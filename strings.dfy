/**
 * String facts the model needs: substring containment, JavaScript's `String.prototype.trim`
 * and the search for the first occurrence of a character.
 */
module Strings {
  import opened Options

  /** `needle` occurs as a contiguous segment of `hay`. */
  ghost predicate Contains(hay: string, needle: string) {
    exists head, tail :: hay == head + needle + tail
  }

  /** Whatever is interpolated between two fixed texts occurs in the result. */
  lemma ContainsInfix(head: string, middle: string, tail: string)
    ensures Contains(head + middle + tail, middle)
  {
  }

  /** Both texts interpolated into a three-part template occur in the result. */
  lemma ContainsBoth(head: string, x: string, middle: string, y: string, tail: string)
    ensures Contains(head + x + middle + y + tail, x)
    ensures Contains(head + x + middle + y + tail, y)
  {
    assert head + x + middle + y + tail == head + x + (middle + y + tail);
  }

  /** Interpolation between fixed texts loses nothing: the interpolated part is determined by the result. */
  lemma InfixInjective(head: string, x: string, y: string, tail: string)
    requires head + x + tail == head + y + tail
    ensures x == y
  {
    var s := head + x + tail;
    assert |x| == |y|;
    assert s[|head|..|head| + |x|] == x;
    assert (head + y + tail)[|head|..|head| + |y|] == y;
  }

  /** `s` wrapped in double quotes, as the prompt templates quote user text. */
  function Quoted(s: string): (q: string)
    ensures |q| == |s| + 2 && q[0] == '"' && q[|q| - 1] == '"' && q[1..|q| - 1] == s
  {
    "\"" + s + "\""
  }

  /**
   * The characters JavaScript's `trim` removes: the WhiteSpace code points (tab, vertical tab,
   * form feed, space, no-break space, byte order mark and every other space separator) and the
   * LineTerminator code points (line feed, carriage return, line and paragraph separators).
   */
  predicate IsWhitespace(c: char) {
    c == '\t' || c == '\n' || c == '\U{B}' || c == '\U{C}' || c == '\r' || c == ' '
    || c == '\U{A0}' || c == '\U{1680}' || ('\U{2000}' <= c <= '\U{200A}')
    || c == '\U{2028}' || c == '\U{2029}' || c == '\U{202F}' || c == '\U{205F}'
    || c == '\U{3000}' || c == '\U{FEFF}'
  }

  /**
   * Every character of `s` is whitespace (in particular the empty string is blank): by
   * TrimEmptyIffBlank, exactly the strings for which `!s.trim()` holds.
   */
  predicate IsBlank(s: string) {
    forall i :: 0 <= i < |s| ==> IsWhitespace(s[i])
  }

  /** `s` without its leading whitespace. */
  function TrimStart(s: string): (r: string)
    ensures |r| <= |s| && r == s[|s| - |r|..]
    ensures r == [] || !IsWhitespace(r[0])
    ensures IsBlank(s[..|s| - |r|])
  {
    if s != [] && IsWhitespace(s[0]) then TrimStart(s[1..]) else s
  }

  /** `s` without its trailing whitespace. */
  function TrimEnd(s: string): (r: string)
    ensures |r| <= |s| && r == s[..|r|]
    ensures r == [] || !IsWhitespace(r[|r| - 1])
    ensures IsBlank(s[|r|..])
  {
    if s != [] && IsWhitespace(s[|s| - 1]) then TrimEnd(s[..|s| - 1]) else s
  }

  /** JavaScript's `s.trim()`. */
  function Trim(s: string): string {
    TrimEnd(TrimStart(s))
  }

  /** `!s.trim()` holds exactly for the strings made of whitespace only. */
  lemma TrimEmptyIffBlank(s: string)
    ensures Trim(s) == [] <==> IsBlank(s)
  {
    var t := TrimStart(s);
    var u := TrimEnd(t);
    // what TrimStart left behind starts inside `s`, and is all of `s` when nothing was dropped
    assert t != [] ==> t[0] == s[|s| - |t|];
    assert t == [] ==> s[..|s| - |t|] == s;
    // likewise for TrimEnd on `t`
    assert u == [] ==> t[|u|..] == t;
  }

  /** The index of the first occurrence of `c` in `s`, or None when `c` does not occur. */
  function IndexOf(s: string, c: char): (r: Option<nat>)
    ensures r.None? <==> c !in s
    ensures r.Some? ==> r.value < |s| && s[r.value] == c
    ensures r.Some? ==> forall j :: 0 <= j < r.value ==> s[j] != c
  {
    if s == [] then None
    else if s[0] == c then Some(0)
    else match IndexOf(s[1..], c)
      case None => None
      case Some(i) => Some(i + 1)
  }

  /** The first occurrence is unique: any position holding `c` with no `c` before it is the one found. */
  lemma IndexOfIsFirst(s: string, c: char, k: nat)
    requires k < |s| && s[k] == c
    requires forall j :: 0 <= j < k ==> s[j] != c
    ensures IndexOf(s, c) == Some(k)
  {
    assert c in s;
  }
}
