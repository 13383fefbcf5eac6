/**
 * The service layer of `services/geminiService.ts`: the prompt templates, the wrapping of returned
 * image bytes as JPEG data URLs, the extraction of the base64 payload from a file's data URL, and
 * the four exported operations as short sequences of remote calls whose outcomes are supplied.
 *
 * Every operation catches every failure inside it and rethrows one fixed message; that is
 * `Err(message)` here. Each operation also returns the requests it sent to the remote model, in
 * the order it sent them.
 */
module GeminiService {
  import opened Options
  import opened Strings
  import opened Types
  import opened Prompts
  import opened Gateway

  /** The value of an operation: its result, or the message of the error it throws. */
  datatype Result<+T> = Ok(value: T) | Err(message: string)

  const ConceptsFailure := "Could not generate product concepts. The model may have safety concerns with the prompt."
  const RefineTextFailure := "Could not refine the product. The model may have safety concerns with the prompt."
  const RefineImageFailure := "Could not refine the product with the provided image."
  const KitFailure := "Could not generate the marketing kit."

  /** Images are requested four at a time for concepts and refinements, one at a time for kit visuals. */
  const ConceptCount: nat := 4
  const VisualCount: nat := 1

  // ---------------------------------------------------------------------------------------------
  // Data URLs

  const JpegPrefix := "data:image/jpeg;base64,"

  /** The data URL of one returned JPEG image, from its base64 bytes. */
  function JpegDataUrl(bytes: string): (url: string)
    ensures |url| == |JpegPrefix| + |bytes| && url[..|JpegPrefix|] == JpegPrefix && url[|JpegPrefix|..] == bytes
  {
    JpegPrefix + bytes
  }

  /** `urls` are the data URLs of `images`, one per image, in the same order. */
  ghost predicate AreJpegDataUrls(urls: seq<string>, images: seq<string>) {
    |urls| == |images| && forall i :: 0 <= i < |urls| ==> urls[i] == JpegDataUrl(images[i])
  }

  /** The `generatedImages.map(...)` of the three image operations. */
  function DataUrls(images: seq<string>): (urls: seq<string>)
    ensures AreJpegDataUrls(urls, images)
  {
    if images == [] then [] else [JpegDataUrl(images[0])] + DataUrls(images[1..])
  }

  /** The base64 payload of a JPEG data URL (the inverse of JpegDataUrl). */
  function JpegPayload(url: string): Option<string> {
    if |url| >= |JpegPrefix| && url[..|JpegPrefix|] == JpegPrefix then Some(url[|JpegPrefix|..]) else None
  }

  /** Mapping the payloads back out of `DataUrls(images)` gives `images` again. */
  lemma {:induction false} DataUrlsRoundTrip(images: seq<string>)
    ensures forall i :: 0 <= i < |images| ==> JpegPayload(DataUrls(images)[i]) == Some(images[i])
  {
    var urls := DataUrls(images);
    forall i | 0 <= i < |images|
      ensures JpegPayload(urls[i]) == Some(images[i])
    {
      assert urls[i] == JpegDataUrl(images[i]);
    }
  }

  /** Distinct images give distinct concept URLs, so a selection designates one image. */
  lemma DataUrlsInjective(a: string, b: string)
    requires JpegDataUrl(a) == JpegDataUrl(b)
    ensures a == b
  {
    InfixInjective(JpegPrefix, a, b, "");
  }

  /** What `FileReader.readAsDataURL` yields for a file of type `mimeType` with base64 content `payload`. */
  function ReadAsDataUrl(mimeType: string, payload: string): string {
    "data:" + mimeType + ";base64," + payload
  }

  /**
   * `fileToBase64`'s `result.split(',')[1]`: the text between the first and the second comma of
   * the data URL (or up to its end), and undefined when it holds no comma.
   */
  function FileToBase64(dataUrl: string): (r: Option<string>)
    ensures r.Some? <==> ',' in dataUrl
    // the payload is the comma-free segment right after the first comma, running to the next comma or the end
    ensures r.Some? ==> ',' !in r.value
    ensures r.Some? ==> var k := IndexOf(dataUrl, ',').value;
                        && k + 1 + |r.value| <= |dataUrl| && dataUrl[k + 1..k + 1 + |r.value|] == r.value
                        && (k + 1 + |r.value| == |dataUrl| || dataUrl[k + 1 + |r.value|] == ',')
  {
    match IndexOf(dataUrl, ',')
    case None => None
    case Some(k) =>
      var rest := dataUrl[k + 1..];
      match IndexOf(rest, ',')
      case None => Some(rest)
      case Some(j) => Some(rest[..j])
  }

  /** For a comma-free type and payload, the split recovers exactly the payload the file reader encoded. */
  lemma FileToBase64RoundTrip(mimeType: string, payload: string)
    requires ',' !in mimeType && ',' !in payload
    ensures FileToBase64(ReadAsDataUrl(mimeType, payload)) == Some(payload)
  {
    var head := "data:" + mimeType + ";base64";
    var url := ReadAsDataUrl(mimeType, payload);
    assert url == head + "," + payload;
    assert url[|head|] == ',';
    assert forall j :: 0 <= j < |head| ==> url[j] == head[j];
    IndexOfIsFirst(url, ',', |head|);
    assert url[|head| + 1..] == payload;
  }

  /** An uploaded JPEG's data URL splits back to its payload, as long as the payload holds no comma. */
  lemma FileToBase64OfJpegDataUrl(bytes: string)
    requires ',' !in bytes
    ensures FileToBase64(JpegDataUrl(bytes)) == Some(bytes)
  {
    assert JpegDataUrl(bytes) == ReadAsDataUrl("image/jpeg", bytes);
    FileToBase64RoundTrip("image/jpeg", bytes);
  }

  // ---------------------------------------------------------------------------------------------
  // Prompts

  /** How a template literal renders a possibly undefined string. */
  function Interpolated(s: Option<string>): string {
    match s
    case Some(t) => t
    case None => "undefined"
  }

  /** One single-image request per visual prompt for the product, in prompt order. */
  function VisualRequests(productName: string): seq<Request> {
    [ GenerateImages(Lifestyle(productName), VisualCount),
      GenerateImages(ProductFocus(productName), VisualCount),
      GenerateImages(ActionShot(productName), VisualCount) ]
  }

  /**
   * The visual requests of a kit: exactly three single-image requests, lifestyle, product focus and
   * action shot in that order, each prompt naming the product, no two prompts alike.
   */
  lemma VisualRequestsNameProduct(productName: string)
    ensures var rs := VisualRequests(productName);
      && |rs| == 3
      && (forall i :: 0 <= i < 3 ==> rs[i].GenerateImages? && rs[i].count == VisualCount
                                     && Contains(Text(rs[i].prompt), productName))
      && rs[0].prompt.Lifestyle? && rs[1].prompt.ProductFocus? && rs[2].prompt.ActionShot?
      && Text(rs[0].prompt) != Text(rs[1].prompt) && Text(rs[1].prompt) != Text(rs[2].prompt)
      && Text(rs[0].prompt) != Text(rs[2].prompt)
  {
    var rs := VisualRequests(productName);
    assert Text(rs[0].prompt) == LifestylePrompt(productName);
    assert Text(rs[1].prompt) == FocusPrompt(productName);
    assert Text(rs[2].prompt) == ActionPrompt(productName);
    VisualPromptsDistinct(productName);
  }

  // ---------------------------------------------------------------------------------------------
  // Operations

  /** A single-image response the kit can use: delivered, and holding an image at index 0. */
  predicate HasFirstImage(response: Outcome<seq<string>>) {
    response.Success? && response.value != []
  }

  /** Every stage of the marketing-kit pipeline delivered: the text, its parse and an image for each visual. */
  predicate KitComplete(text: Outcome<string>, parse: string -> Option<MarketingKitText>,
                        lifestyle: Outcome<seq<string>>, productFocus: Outcome<seq<string>>,
                        action: Outcome<seq<string>>)
  {
    text.Success? && parse(text.value).Some?
    && HasFirstImage(lifestyle) && HasFirstImage(productFocus) && HasFirstImage(action)
  }

  /**
   * `Promise.all` over the visual responses followed by `res.generatedImages[0]` on each: the data
   * URLs of the first image of every response, in response order, or nothing as soon as one call
   * failed or delivered no image.
   */
  function FirstImages(responses: seq<Outcome<seq<string>>>): (r: Option<seq<string>>)
    ensures r.Some? <==> forall i :: 0 <= i < |responses| ==> HasFirstImage(responses[i])
    ensures r.Some? ==> |r.value| == |responses|
    ensures r.Some? ==> forall i :: 0 <= i < |responses| ==> r.value[i] == JpegDataUrl(responses[i].value[0])
  {
    if responses == [] then Some([])
    else if !HasFirstImage(responses[0]) then None
    else match FirstImages(responses[1..])
      case None => None
      case Some(rest) => Some([JpegDataUrl(responses[0].value[0])] + rest)
  }

  /** `generateConcepts`: one request for four renders of the brief. */
  method GenerateConcepts(brief: string, images: Outcome<seq<string>>)
    returns (r: Result<seq<string>>, issued: seq<Request>)
    ensures issued == [GenerateImages(Concept(brief), ConceptCount)]
    ensures r.Ok? <==> images.Success?
    ensures r.Ok? ==> AreJpegDataUrls(r.value, images.value)
    ensures r.Err? ==> r.message == ConceptsFailure
  {
    issued := [GenerateImages(Concept(brief), ConceptCount)];
    match images {
      case Failure =>
        r := Err(ConceptsFailure);
      case Success(bytes) =>
        r := Ok(DataUrls(bytes));
    }
  }

  /** `refineWithText`: one request for four renders of the brief modified by the instruction. */
  method RefineWithText(brief: string, refinement: string, images: Outcome<seq<string>>)
    returns (r: Result<seq<string>>, issued: seq<Request>)
    ensures issued == [GenerateImages(Refinement(brief, refinement), ConceptCount)]
    ensures r.Ok? <==> images.Success?
    ensures r.Ok? ==> AreJpegDataUrls(r.value, images.value)
    ensures r.Err? ==> r.message == RefineTextFailure
  {
    issued := [GenerateImages(Refinement(brief, refinement), ConceptCount)];
    match images {
      case Failure =>
        r := Err(RefineTextFailure);
      case Success(bytes) =>
        r := Ok(DataUrls(bytes));
    }
  }

  /**
   * `refineWithImage`: read the file as a data URL, ask the model to describe the image, then
   * request four renders of the brief inspired by that description. `read` is the file reader's
   * outcome, `description` the analysis call's (whose text may be undefined), `images` the
   * generation call's; a later outcome is consulted only once the earlier stages succeeded.
   */
  method RefineWithImage(brief: string, mimeType: string, read: Outcome<string>,
                         description: Outcome<Option<string>>, images: Outcome<seq<string>>)
    returns (r: Result<seq<string>>, issued: seq<Request>)
    ensures r.Ok? <==> read.Success? && description.Success? && images.Success?
    ensures r.Ok? ==> AreJpegDataUrls(r.value, images.value)
    ensures r.Err? ==> r.message == RefineImageFailure
    // nothing is sent when the file cannot be read; otherwise the description comes first
    ensures read.Failure? <==> issued == []
    ensures read.Success? ==> issued[0] == DescribeImage(FileToBase64(read.value), mimeType, Analysis)
    // image generation is requested only after a description was delivered, and uses it
    ensures |issued| <= 2 && (|issued| == 2 <==> read.Success? && description.Success?)
    ensures |issued| == 2 ==> issued[1] == GenerateImages(Inspired(brief, Interpolated(description.value)), ConceptCount)
  {
    issued := [];
    if read.Failure? {
      r := Err(RefineImageFailure);
      return;
    }
    var base64Data := FileToBase64(read.value);
    issued := issued + [DescribeImage(base64Data, mimeType, Analysis)];
    if description.Failure? {
      r := Err(RefineImageFailure);
      return;
    }
    var designInspiration := Interpolated(description.value);
    issued := issued + [GenerateImages(Inspired(brief, designInspiration), ConceptCount)];
    if images.Failure? {
      r := Err(RefineImageFailure);
      return;
    }
    r := Ok(DataUrls(images.value));
  }

  /**
   * `generateMarketingKit`: one structured-text request; the reply is parsed with `parse` (the
   * unvalidated `JSON.parse`, None when it throws); then one single-image request for each of the
   * three visual prompts built from the parsed product name, joined all-or-nothing.
   */
  method GenerateMarketingKit(brief: string, productDescription: string,
                              text: Outcome<string>, parse: string -> Option<MarketingKitText>,
                              lifestyle: Outcome<seq<string>>, productFocus: Outcome<seq<string>>,
                              action: Outcome<seq<string>>)
    returns (r: Result<MarketingKitData>, issued: seq<Request>)
    ensures |issued| >= 1 && issued[0] == GenerateKitText(KitText(brief, productDescription))
    // the visual calls are issued only once the text has been delivered and parsed, all three at once
    ensures |issued| == 1 || |issued| == 4
    ensures |issued| == 4 <==> text.Success? && parse(text.value).Some?
    ensures |issued| == 4 ==> issued[1..] == VisualRequests(parse(text.value).value.productName)
    // all or nothing
    ensures r.Ok? <==> KitComplete(text, parse, lifestyle, productFocus, action)
    ensures r.Ok? ==> r.value.text == parse(text.value).value
    ensures r.Ok? ==> r.value.visuals == [JpegDataUrl(lifestyle.value[0]), JpegDataUrl(productFocus.value[0]),
                                          JpegDataUrl(action.value[0])]
    ensures r.Err? ==> r.message == KitFailure
  {
    issued := [GenerateKitText(KitText(brief, productDescription))];
    if text.Failure? {
      r := Err(KitFailure);
      return;
    }
    var marketingText := parse(text.value);
    if marketingText.None? {
      r := Err(KitFailure);
      return;
    }
    issued := issued + VisualRequests(marketingText.value.productName);
    var responses := [lifestyle, productFocus, action];
    var visuals := FirstImages(responses);
    assert responses[0] == lifestyle && responses[1] == productFocus && responses[2] == action;
    if visuals.None? {
      r := Err(KitFailure);
      return;
    }
    assert |visuals.value| == 3;
    r := Ok(MarketingKitData(marketingText.value, visuals.value));
  }
}
