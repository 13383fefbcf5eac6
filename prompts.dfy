/**
 * The prompt templates of `services/geminiService.ts`. A request to the remote model carries a
 * `Prompt`: which template, and the values interpolated into it; `Text` renders it to the exact
 * string the service sends.
 */
module Prompts {
  import opened Strings

  const ConceptHead := "A 3D product render of a "
  const ConceptTail := ", photorealistic, studio lighting, multiple angles (front view, side view, three-quarter view), on a clean minimalist white background."

  const RefinementHead := "A refined 3D product render of a "
  const RefinementMiddle := ", specifically modified to incorporate the following change: "
  const RenderTail := ". The image should be photorealistic, with studio lighting, showing multiple angles on a clean minimalist white background."

  const InspiredHead := "A 3D product render of a "
  const InspiredMiddle := ", heavily inspired by the following design elements: "

  const AnalysisInstruction := "Analyze the key design elements of this image, including color palette, materials, textures, and overall aesthetic style. Provide a concise description of these elements that can be used to inspire a new product design."

  const KitHead := "Based on the following product brief: "
  const KitMiddle := " for "
  const KitTail := ", generate a complete marketing kit."

  const LifestyleHead := "A vibrant lifestyle marketing photograph for social media featuring: "
  const LifestyleTail := ". A person is happily using it in a modern, sun-drenched setting."
  const FocusHead := "A sleek product-focused shot of the "
  const FocusTail := " on a minimalist background that complements its design. Showcases its key features."
  const ActionHead := "An action shot for an advertisement featuring the "
  const ActionTail := ". The scene is energetic and targets the product's key demographic."

  /** The concept prompt: a studio render request that embeds the brief verbatim. */
  function ConceptPrompt(brief: string): (p: string)
    ensures Contains(p, brief)
  {
    ContainsInfix(ConceptHead, brief, ConceptTail);
    ConceptHead + brief + ConceptTail
  }

  /** Different briefs give different concept prompts. */
  lemma ConceptPromptInjective(a: string, b: string)
    requires ConceptPrompt(a) == ConceptPrompt(b)
    ensures a == b
  {
    InfixInjective(ConceptHead, a, b, ConceptTail);
  }

  /** The text-refinement prompt: embeds the brief and, in double quotes, the refinement instruction. */
  function RefinementPrompt(brief: string, refinement: string): (p: string)
    ensures Contains(p, brief) && Contains(p, Quoted(refinement))
  {
    ContainsBoth(RefinementHead, brief, RefinementMiddle, Quoted(refinement), RenderTail);
    RefinementHead + brief + RefinementMiddle + Quoted(refinement) + RenderTail
  }

  /** For one brief, different instructions give different refinement prompts. */
  lemma RefinementPromptInjective(brief: string, a: string, b: string)
    requires RefinementPrompt(brief, a) == RefinementPrompt(brief, b)
    ensures a == b
  {
    InfixInjective(RefinementHead + brief + RefinementMiddle, Quoted(a), Quoted(b), RenderTail);
  }

  /** The image-inspired prompt: embeds the brief and, in double quotes, the analysis of the image. */
  function InspiredPrompt(brief: string, inspiration: string): (p: string)
    ensures Contains(p, brief) && Contains(p, Quoted(inspiration))
  {
    ContainsBoth(InspiredHead, brief, InspiredMiddle, Quoted(inspiration), RenderTail);
    InspiredHead + brief + InspiredMiddle + Quoted(inspiration) + RenderTail
  }

  /** The marketing-text prompt: embeds, each in double quotes, the brief and the product description. */
  function KitTextPrompt(brief: string, productDescription: string): (p: string)
    ensures Contains(p, Quoted(brief)) && Contains(p, Quoted(productDescription))
  {
    ContainsBoth(KitHead, Quoted(brief), KitMiddle, Quoted(productDescription), KitTail);
    KitHead + Quoted(brief) + KitMiddle + Quoted(productDescription) + KitTail
  }

  /** The lifestyle visual prompt: a social-media photograph of the named product in use. */
  function LifestylePrompt(productName: string): (p: string)
    ensures Contains(p, productName)
  {
    ContainsInfix(LifestyleHead, productName, LifestyleTail);
    LifestyleHead + productName + LifestyleTail
  }

  /** The product-focus visual prompt: the named product alone, showing its features. */
  function FocusPrompt(productName: string): (p: string)
    ensures Contains(p, productName)
  {
    ContainsInfix(FocusHead, productName, FocusTail);
    FocusHead + productName + FocusTail
  }

  /** The action-shot visual prompt: the named product in an advertisement scene. */
  function ActionPrompt(productName: string): (p: string)
    ensures Contains(p, productName)
  {
    ContainsInfix(ActionHead, productName, ActionTail);
    ActionHead + productName + ActionTail
  }

  /** The three visual prompts for one product are pairwise distinct, whatever its name. */
  lemma VisualPromptsDistinct(productName: string)
    ensures LifestylePrompt(productName) != FocusPrompt(productName)
    ensures FocusPrompt(productName) != ActionPrompt(productName)
    ensures LifestylePrompt(productName) != ActionPrompt(productName)
  {
    // the fixed parts around the name have three different lengths
    assert |LifestylePrompt(productName)| == |LifestyleHead| + |productName| + |LifestyleTail|;
    assert |FocusPrompt(productName)| == |FocusHead| + |productName| + |FocusTail|;
    assert |ActionPrompt(productName)| == |ActionHead| + |productName| + |ActionTail|;
  }

  /** A prompt the service sends: a template and the values interpolated into it. */
  datatype Prompt =
    | Concept(brief: string)
    | Refinement(brief: string, refinement: string)
    | Analysis
    | Inspired(brief: string, inspiration: string)
    | KitText(brief: string, productDescription: string)
    | Lifestyle(productName: string)
    | ProductFocus(productName: string)
    | ActionShot(productName: string)

  /** The string a prompt renders to. */
  function Text(p: Prompt): string {
    match p
    case Concept(brief) => ConceptPrompt(brief)
    case Refinement(brief, refinement) => RefinementPrompt(brief, refinement)
    case Analysis => AnalysisInstruction
    case Inspired(brief, inspiration) => InspiredPrompt(brief, inspiration)
    case KitText(brief, productDescription) => KitTextPrompt(brief, productDescription)
    case Lifestyle(productName) => LifestylePrompt(productName)
    case ProductFocus(productName) => FocusPrompt(productName)
    case ActionShot(productName) => ActionPrompt(productName)
  }
}
