/**
 * The wizard state controller of `App.tsx`: the component's state variables as the fields of a
 * class, and each handler as a method that runs to completion given the outcomes of the remote
 * calls it triggers. A setter call is an assignment; the last one a handler makes wins.
 */
module App {
  import opened Options
  import opened Strings
  import opened Types
  import opened Prompts
  import opened Gateway
  import opened GeminiService

  /** The steps of the wizard, in the order of the `AppStep` enum. */
  datatype AppStep = Brief | Concepts | Marketing

  /** The enum's numeric value, which the view compares with `>=`. */
  function Ordinal(step: AppStep): (n: nat)
    ensures n <= 2 && (n == 0 <==> step == Brief) && (n == 2 <==> step == Marketing)
  {
    match step
    case Brief => 0
    case Concepts => 1
    case Marketing => 2
  }

  const BriefMissing := "Please enter a design brief."
  const RefinementMissing := "Please enter a refinement instruction."
  const SelectionMissing := "Please select a final design first."

  /** What the kit handler passes as the product description, in place of the selected image. */
  const SelectedDesign := "the user's selected product design"

  const GeneratingMessage := "Generating initial concepts..."
  const RefiningMessage := "Refining your design..."
  const InspiringMessage := "Analyzing inspiration and redesigning..."
  const KitMessage := "Building your marketing kit..."

  /** JavaScript truthiness of a `string | null`: present and not empty. */
  predicate IsTruthy(s: Option<string>) {
    s.Some? && s.value != ""
  }

  /** A user action the view forwards to the controller, with the outcomes of the remote calls it leads to. */
  datatype Event =
    | SubmitBrief(newBrief: string, images: Outcome<seq<string>>)
    | SelectConcept(concept: string)
    | SubmitRefinement(refinementText: string, images: Outcome<seq<string>>)
    | UploadInspiration(mimeType: string, read: Outcome<string>, description: Outcome<Option<string>>,
                        images: Outcome<seq<string>>)
    | RequestKit(text: Outcome<string>, parse: string -> Option<MarketingKitText>,
                 lifestyle: Outcome<seq<string>>, productFocus: Outcome<seq<string>>,
                 action: Outcome<seq<string>>)

  class AppState {
    var brief: string
    var concepts: seq<string>
    var selectedConcept: Option<string>
    var marketingKit: Option<MarketingKitData>
    var isLoading: bool
    var loadingMessage: string
    var error: Option<string>
    var currentStep: AppStep

    /** The selection that was in force when the stored marketing kit was generated. */
    ghost var kitBasis: Option<string>

    /**
     * What holds between handlers whatever the order they run in: the selection is one of the
     * current concepts, nothing is loading, and a kit exists only after a kit generation that
     * passed its guard.
     */
    ghost predicate Valid()
      reads this
    {
      && (selectedConcept.Some? ==> selectedConcept.value in concepts)
      && !isLoading
      && (marketingKit.Some? ==> IsTruthy(kitBasis) && brief != "")
    }

    /**
     * What also holds when the handlers are only reached through the view: nothing is generated
     * before the first brief, a brief beyond the first step is not blank, the last step is exactly
     * the one with a kit, and the kit's selection is still among the concepts.
     */
    ghost predicate Reachable()
      reads this
    {
      && Valid()
      && (currentStep == Brief ==> concepts == [] && selectedConcept.None?)
      && (currentStep != Brief ==> !IsBlank(brief))
      && (marketingKit.Some? <==> currentStep == Marketing)
      && (marketingKit.Some? ==> kitBasis.Some? && kitBasis.value in concepts)
    }

    /** The state the component starts in. */
    constructor ()
      ensures Reachable()
      ensures brief == "" && concepts == [] && selectedConcept.None? && marketingKit.None?
      ensures !isLoading && loadingMessage == "" && error.None? && currentStep == Brief
    {
      brief := "";
      concepts := [];
      selectedConcept := None;
      marketingKit := None;
      isLoading := false;
      loadingMessage := "";
      error := None;
      currentStep := Brief;
      kitBasis := None;
    }

    /** `handleError`: show the message and stop loading. */
    method HandleError(message: string)
      modifies this
      ensures error == Some(message) && !isLoading
      ensures brief == old(brief) && concepts == old(concepts) && selectedConcept == old(selectedConcept)
      ensures marketingKit == old(marketingKit) && kitBasis == old(kitBasis)
      ensures loadingMessage == old(loadingMessage) && currentStep == old(currentStep)
    {
      error := Some(message);
      isLoading := false;
    }

    /** `onSelect` of the concept gallery, which offers only the concepts on display. */
    method Select(concept: string)
      requires Valid() && concept in concepts
      modifies this
      ensures Valid() && selectedConcept == Some(concept)
      ensures brief == old(brief) && concepts == old(concepts) && marketingKit == old(marketingKit)
      ensures kitBasis == old(kitBasis) && currentStep == old(currentStep)
      ensures isLoading == old(isLoading) && loadingMessage == old(loadingMessage) && error == old(error)
    {
      selectedConcept := Some(concept);
    }

    /** `handleGenerateConcepts`: start over from a new brief. */
    method HandleGenerateConcepts(newBrief: string, images: Outcome<seq<string>>) returns (issued: seq<Request>)
      requires Valid()
      modifies this
      ensures Valid() && !isLoading
      // a blank brief is rejected before anything is sent or changed
      ensures IsBlank(newBrief) ==>
        && issued == [] && error == Some(BriefMissing)
        && brief == old(brief) && concepts == old(concepts) && selectedConcept == old(selectedConcept)
        && marketingKit == old(marketingKit) && kitBasis == old(kitBasis)
        && loadingMessage == old(loadingMessage) && currentStep == old(currentStep)
      // otherwise the brief is stored and everything derived from the old one is cleared
      ensures !IsBlank(newBrief) ==>
        && issued == [GenerateImages(Concept(newBrief), ConceptCount)]
        && brief == newBrief && selectedConcept.None? && marketingKit.None?
        && loadingMessage == GeneratingMessage
      ensures !IsBlank(newBrief) && images.Success? ==>
        AreJpegDataUrls(concepts, images.value) && currentStep == Concepts && error == old(error)
      ensures !IsBlank(newBrief) && images.Failure? ==>
        concepts == [] && currentStep == old(currentStep) && error == Some(ConceptsFailure)
    {
      if IsBlank(newBrief) {
        HandleError(BriefMissing);
        issued := [];
        return;
      }
      isLoading := true;
      loadingMessage := GeneratingMessage;
      brief := newBrief;
      concepts := [];
      selectedConcept := None;
      marketingKit := None;
      kitBasis := None;
      var generated;
      generated, issued := GenerateConcepts(newBrief, images);
      match generated {
        case Ok(generatedConcepts) =>
          concepts := generatedConcepts;
          currentStep := Concepts;
        case Err(message) =>
          HandleError(message);
      }
      isLoading := false;
    }

    /** `handleRefineWithText`: regenerate the concepts from the stored brief and an instruction. */
    method HandleRefineWithText(refinementText: string, images: Outcome<seq<string>>) returns (issued: seq<Request>)
      requires Valid()
      modifies this
      ensures Valid() && !isLoading
      ensures brief == old(brief) && marketingKit == old(marketingKit) && kitBasis == old(kitBasis)
      ensures currentStep == old(currentStep)
      // a blank instruction is rejected before anything is sent or changed
      ensures IsBlank(refinementText) ==>
        && issued == [] && error == Some(RefinementMissing)
        && concepts == old(concepts) && selectedConcept == old(selectedConcept)
        && loadingMessage == old(loadingMessage)
      // otherwise the selection is cleared whatever happens, the concepts replaced only on success
      ensures !IsBlank(refinementText) ==>
        && issued == [GenerateImages(Refinement(old(brief), refinementText), ConceptCount)]
        && selectedConcept.None? && loadingMessage == RefiningMessage
      ensures !IsBlank(refinementText) && images.Success? ==>
        AreJpegDataUrls(concepts, images.value) && error == old(error)
      ensures !IsBlank(refinementText) && images.Failure? ==>
        concepts == old(concepts) && error == Some(RefineTextFailure)
    {
      if IsBlank(refinementText) {
        HandleError(RefinementMissing);
        issued := [];
        return;
      }
      isLoading := true;
      loadingMessage := RefiningMessage;
      selectedConcept := None;
      var refined;
      refined, issued := RefineWithText(brief, refinementText, images);
      match refined {
        case Ok(refinedConcepts) =>
          concepts := refinedConcepts;
        case Err(message) =>
          HandleError(message);
      }
      isLoading := false;
    }

    /** `handleRefineWithImage`: regenerate the concepts from the stored brief and an inspiration image. */
    method HandleRefineWithImage(mimeType: string, read: Outcome<string>, description: Outcome<Option<string>>,
                                 images: Outcome<seq<string>>) returns (issued: seq<Request>)
      requires Valid()
      modifies this
      ensures Valid() && !isLoading
      ensures brief == old(brief) && marketingKit == old(marketingKit) && kitBasis == old(kitBasis)
      ensures currentStep == old(currentStep)
      // no validation: the selection is always cleared
      ensures selectedConcept.None? && loadingMessage == InspiringMessage
      ensures read.Success? && description.Success? && images.Success? ==>
        AreJpegDataUrls(concepts, images.value) && error == old(error)
      ensures !(read.Success? && description.Success? && images.Success?) ==>
        concepts == old(concepts) && error == Some(RefineImageFailure)
      // the file is analysed first; the render request carries the stored brief
      ensures read.Failure? <==> issued == []
      ensures |issued| == 2 <==> read.Success? && description.Success?
      ensures |issued| == 2 ==> issued[0].DescribeImage? && issued[1].GenerateImages?
                                && issued[1].prompt.Inspired? && issued[1].prompt.brief == old(brief)
    {
      isLoading := true;
      loadingMessage := InspiringMessage;
      selectedConcept := None;
      var refined;
      refined, issued := RefineWithImage(brief, mimeType, read, description, images);
      match refined {
        case Ok(refinedConcepts) =>
          concepts := refinedConcepts;
        case Err(message) =>
          HandleError(message);
      }
      isLoading := false;
    }

    /**
     * `handleGenerateMarketingKit`: build a kit for the stored brief. The guard asks for a
     * selection and a brief; the request carries the brief and a fixed description, not the
     * selected image.
     */
    method HandleGenerateMarketingKit(text: Outcome<string>, parse: string -> Option<MarketingKitText>,
                                      lifestyle: Outcome<seq<string>>, productFocus: Outcome<seq<string>>,
                                      action: Outcome<seq<string>>) returns (issued: seq<Request>)
      requires Valid()
      modifies this
      ensures Valid() && !isLoading
      ensures brief == old(brief) && concepts == old(concepts) && selectedConcept == old(selectedConcept)
      // rejected without a selection or without a brief
      ensures !IsTruthy(old(selectedConcept)) || old(brief) == "" ==>
        && issued == [] && error == Some(SelectionMissing)
        && marketingKit == old(marketingKit) && kitBasis == old(kitBasis)
        && loadingMessage == old(loadingMessage) && currentStep == old(currentStep)
      ensures IsTruthy(old(selectedConcept)) && old(brief) != "" ==>
        && |issued| >= 1 && issued[0] == GenerateKitText(KitText(old(brief), SelectedDesign))
        && loadingMessage == KitMessage
      // on success the kit is stored and the wizard moves to its last step
      ensures IsTruthy(old(selectedConcept)) && old(brief) != "" && KitComplete(text, parse, lifestyle, productFocus, action) ==>
        && marketingKit == Some(MarketingKitData(parse(text.value).value,
                                                 [JpegDataUrl(lifestyle.value[0]), JpegDataUrl(productFocus.value[0]),
                                                  JpegDataUrl(action.value[0])]))
        && kitBasis == old(selectedConcept) && currentStep == Marketing && error == old(error)
      // on failure nothing of the kit changes
      ensures IsTruthy(old(selectedConcept)) && old(brief) != "" && !KitComplete(text, parse, lifestyle, productFocus, action) ==>
        && marketingKit == old(marketingKit) && kitBasis == old(kitBasis) && currentStep == old(currentStep)
        && error == Some(KitFailure)
    {
      if !IsTruthy(selectedConcept) || brief == "" {
        HandleError(SelectionMissing);
        issued := [];
        return;
      }
      isLoading := true;
      loadingMessage := KitMessage;
      var kit;
      kit, issued := GenerateMarketingKit(brief, SelectedDesign, text, parse, lifestyle, productFocus, action);
      match kit {
        case Ok(generatedKit) =>
          marketingKit := Some(generatedKit);
          kitBasis := selectedConcept;
          currentStep := Marketing;
        case Err(message) =>
          HandleError(message);
      }
      isLoading := false;
    }

    /**
     * Whether the view offers `e` in the current state: the brief form only on the first step,
     * the gallery from the second step on and only with its own concepts, the refinement
     * controls only on the second step, and the kit button only while a concept is selected.
     */
    predicate Enabled(e: Event)
      reads this
    {
      match e
      case SubmitBrief(_, _) => currentStep == Brief
      case SelectConcept(concept) => currentStep != Brief && concept in concepts
      case SubmitRefinement(_, _) => currentStep == Concepts
      case UploadInspiration(_, _, _, _) => currentStep == Concepts
      case RequestKit(_, _, _, _, _) => currentStep == Concepts && IsTruthy(selectedConcept)
    }

    /**
     * One user action through the view: an action the view does not offer changes nothing, an
     * offered one runs its handler. Along such runs the step never goes back, the last step
     * always has a kit, and a new kit appears only from a kit request made with a selection.
     */
    method Dispatch(e: Event) returns (issued: seq<Request>)
      requires Reachable()
      modifies this
      ensures Reachable()
      ensures Ordinal(currentStep) >= Ordinal(old(currentStep))
      ensures currentStep == Marketing ==> marketingKit.Some?
      ensures marketingKit.Some? && marketingKit != old(marketingKit) ==>
        e.RequestKit? && IsTruthy(old(selectedConcept)) && kitBasis == old(selectedConcept)
      // under the view's gating, the kit handler's own guard never rejects
      ensures e.RequestKit? && old(Enabled(e)) ==> issued != []
      ensures !old(Enabled(e)) ==>
        && issued == [] && brief == old(brief) && concepts == old(concepts)
        && selectedConcept == old(selectedConcept) && marketingKit == old(marketingKit)
        && currentStep == old(currentStep) && error == old(error)
    {
      if !Enabled(e) {
        issued := [];
        return;
      }
      match e {
        case SubmitBrief(newBrief, images) =>
          issued := HandleGenerateConcepts(newBrief, images);
        case SelectConcept(concept) =>
          Select(concept);
          issued := [];
        case SubmitRefinement(refinementText, images) =>
          issued := HandleRefineWithText(refinementText, images);
        case UploadInspiration(mimeType, read, description, images) =>
          issued := HandleRefineWithImage(mimeType, read, description, images);
        case RequestKit(text, parse, lifestyle, productFocus, action) =>
          issued := HandleGenerateMarketingKit(text, parse, lifestyle, productFocus, action);
      }
    }
  }

  /**
   * A whole run, handler by handler: a brief yields four concepts, the second is selected, and the
   * kit request yields a kit named after the parsed reply with one visual per prompt.
   */
  method WalkThrough()
  {
    var app := new AppState();
    var images: Outcome<seq<string>> := Success(["b0", "b1", "b2", "b3"]);
    assert !IsBlank("mug") by { assert !IsWhitespace("mug"[0]); }
    var issued := app.HandleGenerateConcepts("mug", images);
    assert issued == [GenerateImages(Concept("mug"), ConceptCount)];
    assert app.currentStep == Concepts && |app.concepts| == 4;
    assert app.concepts[1] == JpegDataUrl("b1");

    app.Select(app.concepts[1]);
    assert app.selectedConcept == Some(JpegDataUrl("b1"));

    var kitText := MarketingKitText("AquaMug", "A mug.", "Sip in blue.");
    var parse := (reply: string) => Some(kitText);
    var visual: Outcome<seq<string>> := Success(["v"]);
    issued := app.HandleGenerateMarketingKit(Success("{}"), parse, visual, visual, visual);
    assert issued[0] == GenerateKitText(KitText("mug", SelectedDesign));
    assert app.currentStep == Marketing;
    assert app.marketingKit.Some? && app.marketingKit.value.text.productName == "AquaMug";
    assert |app.marketingKit.value.visuals| == 3;
  }
}
