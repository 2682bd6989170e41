/** The page's client-side logic (frontend/src/App.js): the generate button's
    guard and prompt choice, the caption of a gallery image, the
    active-section tracker, and the page state that the startup loads, the
    generate handler, navigation clicks and the intersection callback update. */
module Frontend {
  import opened Wrappers
  import Json

  // ---------------------------------------------------------------------
  // Fixed identifiers
  // ---------------------------------------------------------------------

  /** The ids of the six navigable sections, in navigation-bar order. */
  const NavIds: seq<string> := ["hero", "problem", "features", "versions", "business", "gallery"]

  /** The ids of the five gallery styles, in button order. */
  const StyleIds: seq<string> := ["product_studio", "lifestyle", "closeup", "in_use", "custom"]

  const CustomStyle: string := "custom"
  const AlertText: string := "Erro ao gerar imagem. Tente novamente."
  const CaptionLength: nat := 100
  const Ellipsis: string := "..."

  // ---------------------------------------------------------------------
  // Values exchanged with the backend
  // ---------------------------------------------------------------------

  /** An entry of the gallery list: the members the gallery reads of it.
      Entries built after a generation carry `prompt_used`; the stored
      documents listed at startup carry `prompt` instead. */
  datatype GalleryImage = GalleryImage(imageBase64: string, promptUsed: Option<string>, prompt: Option<string>)

  /** The body of POST /api/generate-image. */
  datatype GenerateRequestBody = GenerateRequestBody(prompt: string, style: string)

  /** The body of a generate-image response. */
  datatype GenerateResponse = GenerateResponse(success: bool, imageBase64: string, promptUsed: string)

  /** The body of GET /api/images; `images` is None when the member is absent. */
  datatype ImagesResponse = ImagesResponse(images: Option<seq<GalleryImage>>)

  /** How a request settles: with the response body, or with a thrown error
      (a transport failure or a non-2xx status). */
  datatype Settled<T> = Resolved(data: T) | Rejected

  /** One entry of an intersection-observer batch. */
  datatype ObserverEntry = ObserverEntry(targetId: string, isIntersecting: bool)

  // ---------------------------------------------------------------------
  // The gallery's pure expressions
  // ---------------------------------------------------------------------

  /** The generate button is enabled: nothing is generating and, for the
      custom style, the prompt is non-empty (whitespace counts as content). */
  predicate GenerateEnabled(isGenerating: bool, selectedStyle: string, customPrompt: string)
    ensures GenerateEnabled(isGenerating, selectedStyle, customPrompt) ==> !isGenerating
    ensures !isGenerating && selectedStyle != CustomStyle ==> GenerateEnabled(isGenerating, selectedStyle, customPrompt)
    ensures !isGenerating && customPrompt != "" ==> GenerateEnabled(isGenerating, selectedStyle, customPrompt)
    ensures selectedStyle == CustomStyle && customPrompt == "" ==> !GenerateEnabled(isGenerating, selectedStyle, customPrompt)
  {
    !(isGenerating || (selectedStyle == CustomStyle && customPrompt == ""))
  }

  /** A custom prompt made only of blanks still enables the button. */
  lemma BlankPromptEnables(customPrompt: string)
    requires customPrompt != [] && forall i :: 0 <= i < |customPrompt| ==> customPrompt[i] in {' ', '\t', '\n'}
    ensures GenerateEnabled(false, CustomStyle, customPrompt)
  {
  }

  /** The prompt handleGenerate hands to the generate handler: the free text
      only for the custom style. */
  function HandlerPrompt(selectedStyle: string, customPrompt: string): (p: string)
    ensures selectedStyle == CustomStyle ==> p == customPrompt
    ensures selectedStyle != CustomStyle ==> p == ""
  {
    if selectedStyle == CustomStyle then customPrompt else ""
  }

  /** The body the generate handler posts; its prompt is `customPrompt || ''`. */
  function RequestBody(customPrompt: string, style: string): (body: GenerateRequestBody)
    ensures body.prompt == customPrompt && body.style == style
  {
    GenerateRequestBody(if customPrompt != "" then customPrompt else "", style)
  }

  /** The gallery entry built from a successful generate response. */
  function NewImage(response: GenerateResponse): (image: GalleryImage)
    ensures image.imageBase64 == response.imageBase64
    ensures image.promptUsed == Some(response.promptUsed) && image.prompt.None?
  {
    GalleryImage(response.imageBase64, Some(response.promptUsed), None)
  }

  /** The caption under a gallery image: at most the first 100 characters of
      `prompt_used` (nothing when it is absent), always followed by "...". */
  function Caption(promptUsed: Option<string>): (c: string)
    ensures |Ellipsis| <= |c| <= CaptionLength + |Ellipsis|
    ensures c[|c| - |Ellipsis|..] == Ellipsis
    ensures promptUsed.None? ==> c == Ellipsis
    ensures promptUsed.Some? ==> c[..|c| - |Ellipsis|] <= promptUsed.value
    ensures promptUsed.Some? ==>
      |c| - |Ellipsis| == (if |promptUsed.value| < CaptionLength then |promptUsed.value| else CaptionLength)
  {
    match promptUsed
    case None => Ellipsis
    case Some(p) => (if |p| <= CaptionLength then p else p[..CaptionLength]) + Ellipsis
  }

  /** The caption the gallery evidently means to show: `prompt_used` when
      present, otherwise the stored document's `prompt`. */
  function CorrectedCaption(image: GalleryImage): (c: string)
    ensures image.promptUsed.Some? ==> c == Caption(image.promptUsed)
    ensures image.promptUsed.None? && image.prompt.Some? ==> c == Caption(image.prompt)
    ensures image.promptUsed.None? && image.prompt.None? ==> c == Ellipsis
  {
    Caption(if image.promptUsed.Some? then image.promptUsed else image.prompt)
  }

  // ---------------------------------------------------------------------
  // The active-section tracker
  // ---------------------------------------------------------------------

  /** The active section after the callback has visited `entries` starting
      from `current`: every intersecting entry overwrites it, in order. */
  function FoldActive(entries: seq<ObserverEntry>, current: string): (r: string)
    ensures r == current || exists k :: 0 <= k < |entries| && entries[k].isIntersecting && r == entries[k].targetId
  {
    if entries == [] then current
    else
      var next := if entries[0].isIntersecting then entries[0].targetId else current;
      var r := FoldActive(entries[1..], next);
      assert r != next ==> exists k :: 0 <= k < |entries[1..]| && entries[1..][k].isIntersecting && r == entries[1..][k].targetId;
      r
  }

  /** The index of the last intersecting entry, searched from the end. */
  function LastIntersecting(entries: seq<ObserverEntry>): (k: Option<nat>)
    ensures k.Some? ==> k.value < |entries| && entries[k.value].isIntersecting
    ensures k.Some? ==> forall j :: k.value < j < |entries| ==> !entries[j].isIntersecting
    ensures k.None? ==> forall j :: 0 <= j < |entries| ==> !entries[j].isIntersecting
  {
    if entries == [] then None
    else if entries[|entries| - 1].isIntersecting then Some(|entries| - 1)
    else LastIntersecting(entries[..|entries| - 1])
  }

  /** The last intersecting entry of a batch wins; a batch with no
      intersecting entry leaves the active section unchanged. */
  lemma {:induction false} LastIntersectingWins(entries: seq<ObserverEntry>, current: string)
    ensures LastIntersecting(entries).None? ==> FoldActive(entries, current) == current
    ensures LastIntersecting(entries).Some? ==>
      FoldActive(entries, current) == entries[LastIntersecting(entries).value].targetId
  {
    if entries != [] {
      var next := if entries[0].isIntersecting then entries[0].targetId else current;
      var rest := entries[1..];
      LastIntersectingWins(rest, next);
      match LastIntersecting(rest)
      case Some(k) =>
        assert entries[k + 1] == rest[k];
        assert LastIntersecting(entries) == Some(k + 1);
      case None =>
        if entries[0].isIntersecting {
          assert LastIntersecting(entries) == Some(0);
        } else {
          assert LastIntersecting(entries) == None;
        }
    }
  }

  // ---------------------------------------------------------------------
  // The page state
  // ---------------------------------------------------------------------

  /** The state of the page: the App component's state together with the
      gallery's selected style and custom prompt. `alerts` records the
      blocking alerts shown; `inFlight` counts generate requests that have
      been posted and have not settled yet. */
  class App {
    var activeSection: string
    var productData: Option<Json.Value>
    var generatedImages: seq<GalleryImage>
    var isGenerating: bool
    var loading: bool
    var selectedStyle: string
    var customPrompt: string
    var alerts: seq<string>
    var inFlight: nat

    /** At most one generate request is outstanding, exactly while the
        page shows that it is generating. */
    predicate SingleFlight()
      reads this
    {
      inFlight <= 1 && (isGenerating <==> inFlight == 1)
    }

    /** The generate button is enabled in this state. */
    predicate CanGenerate()
      reads this
    {
      GenerateEnabled(isGenerating, selectedStyle, customPrompt)
    }

    /** The initial state, before either startup load has settled. */
    constructor ()
      ensures activeSection == "hero" && productData == None && generatedImages == []
      ensures !isGenerating && loading
      ensures selectedStyle == "product_studio" && customPrompt == ""
      ensures alerts == [] && inFlight == 0
      ensures SingleFlight()
    {
      activeSection := "hero";
      productData := None;
      generatedImages := [];
      isGenerating := false;
      loading := true;
      selectedStyle := "product_studio";
      customPrompt := "";
      alerts := [];
      inFlight := 0;
    }

    /** The product load settles: a response stores its document; either
        way the loading flag is cleared. */
    method ProductLoaded(outcome: Settled<Json.Value>)
      modifies this`productData, this`loading
      ensures !loading
      ensures outcome.Resolved? ==> productData == Some(outcome.data)
      ensures outcome.Rejected? ==> productData == old(productData)
    {
      if outcome.Resolved? {
        productData := Some(outcome.data);
      }
      loading := false;
    }

    /** The image-list load settles: a response replaces the list with its
        `images` (an empty list when absent); a failure leaves it as it is. */
    method ImagesLoaded(outcome: Settled<ImagesResponse>)
      modifies this`generatedImages
      ensures outcome.Resolved? && outcome.data.images.Some? ==> generatedImages == outcome.data.images.value
      ensures outcome.Resolved? && outcome.data.images.None? ==> generatedImages == []
      ensures outcome.Rejected? ==> generatedImages == old(generatedImages)
    {
      if outcome.Resolved? {
        generatedImages := outcome.data.images.GetOr([]);
      }
    }

    /** A click on a style button. */
    method SelectStyle(id: string)
      requires id in StyleIds
      modifies this`selectedStyle
      ensures selectedStyle == id
    {
      selectedStyle := id;
    }

    /** An edit of the custom-prompt text area. */
    method EditCustomPrompt(text: string)
      modifies this`customPrompt
      ensures customPrompt == text
    {
      customPrompt := text;
    }

    /** A click on a navigation item sets the active section to its id (the
        smooth scroll that follows is not modelled). */
    method ClickNav(index: nat)
      requires index < |NavIds|
      modifies this`activeSection
      ensures activeSection == NavIds[index] && activeSection in NavIds
    {
      activeSection := NavIds[index];
    }

    /** The intersection-observer callback: each intersecting entry, in the
        order reported, sets the active section to its target's id. */
    method ObserverCallback(entries: seq<ObserverEntry>)
      modifies this`activeSection
      ensures activeSection == FoldActive(entries, old(activeSection))
    {
      var i := 0;
      while i < |entries|
        invariant 0 <= i <= |entries|
        invariant FoldActive(entries[i..], activeSection) == FoldActive(entries, old(activeSection))
      {
        assert entries[i..][1..] == entries[i + 1..];
        if entries[i].isIntersecting {
          activeSection := entries[i].targetId;
        }
        i := i + 1;
      }
      assert entries[i..] == [];
    }

    /** The generate handler up to its await: it marks a request
        outstanding, without looking at isGenerating, and posts the body. */
    method BeginGenerate(prompt: string, style: string) returns (body: GenerateRequestBody)
      modifies this`isGenerating, this`inFlight
      ensures isGenerating && inFlight == old(inFlight) + 1
      ensures body == RequestBody(prompt, style)
    {
      isGenerating := true;
      inFlight := inFlight + 1;
      body := RequestBody(prompt, style);
    }

    /** The generate handler once the post settles: a response with `success`
        prepends the new image; a response without it is dropped silently; a
        thrown error leaves the list alone and shows one alert. In every case
        isGenerating ends false. */
    method FinishGenerate(outcome: Settled<GenerateResponse>)
      requires inFlight > 0
      modifies this`isGenerating, this`inFlight, this`generatedImages, this`alerts
      ensures !isGenerating && inFlight == old(inFlight) - 1
      ensures outcome.Resolved? && outcome.data.success ==>
        generatedImages == [NewImage(outcome.data)] + old(generatedImages)
      ensures !(outcome.Resolved? && outcome.data.success) ==> generatedImages == old(generatedImages)
      ensures outcome.Resolved? ==> alerts == old(alerts)
      ensures outcome.Rejected? ==> alerts == old(alerts) + [AlertText]
      ensures old(SingleFlight()) ==> SingleFlight()
    {
      match outcome {
        case Resolved(response) =>
          if response.success {
            generatedImages := [NewImage(response)] + generatedImages;
          }
        case Rejected =>
          alerts := alerts + [AlertText];
      }
      isGenerating := false;
      inFlight := inFlight - 1;
    }

    /** The whole generate handler when nothing else happens while its post
        is outstanding. */
    method HandleGenerateImage(prompt: string, style: string, outcome: Settled<GenerateResponse>)
      returns (body: GenerateRequestBody)
      modifies this`isGenerating, this`inFlight, this`generatedImages, this`alerts
      ensures body.prompt == prompt && body.style == style
      ensures !isGenerating && inFlight == old(inFlight)
      ensures outcome.Resolved? && outcome.data.success ==>
        |generatedImages| == |old(generatedImages)| + 1 &&
        generatedImages[0] == GalleryImage(outcome.data.imageBase64, Some(outcome.data.promptUsed), None) &&
        generatedImages[1..] == old(generatedImages)
      ensures !(outcome.Resolved? && outcome.data.success) ==> generatedImages == old(generatedImages)
      ensures alerts == old(alerts) + (if outcome.Rejected? then [AlertText] else [])
    {
      body := BeginGenerate(prompt, style);
      FinishGenerate(outcome);
    }

    /** A click on the generate button: inert while the button is disabled,
        otherwise handleGenerate with the prompt for the selected style. */
    method ClickGenerate() returns (sent: Option<GenerateRequestBody>)
      modifies this`isGenerating, this`inFlight
      ensures old(CanGenerate()) ==>
        sent == Some(RequestBody(HandlerPrompt(selectedStyle, customPrompt), selectedStyle)) &&
        isGenerating && inFlight == old(inFlight) + 1
      ensures !old(CanGenerate()) ==>
        sent == None && isGenerating == old(isGenerating) && inFlight == old(inFlight)
      ensures old(SingleFlight()) ==> SingleFlight()
    {
      if CanGenerate() {
        var body := BeginGenerate(HandlerPrompt(selectedStyle, customPrompt), selectedStyle);
        sent := Some(body);
      } else {
        sent := None;
      }
    }
  }

  /** Mounting the page and letting both startup loads settle. */
  method Mount(product: Settled<Json.Value>, images: Settled<ImagesResponse>) returns (app: App)
    ensures fresh(app)
    ensures !app.loading && !app.isGenerating && app.activeSection == "hero"
    ensures app.selectedStyle == "product_studio" && app.customPrompt == ""
    ensures app.alerts == [] && app.inFlight == 0 && app.SingleFlight()
    ensures app.productData == (if product.Resolved? then Some(product.data) else None)
    ensures app.generatedImages ==
      (if images.Resolved? && images.data.images.Some? then images.data.images.value else [])
  {
    app := new App();
    app.ProductLoaded(product);
    app.ImagesLoaded(images);
  }

  /** Calling the generate handler twice without the button's guard leaves
      a request outstanding while the page no longer shows it generating. */
  method UnguardedHandlerBreaksSingleFlight(response: Settled<GenerateResponse>) returns (app: App)
    ensures fresh(app)
    ensures app.inFlight == 1 && !app.isGenerating && !app.SingleFlight()
  {
    app := new App();
    var first := app.BeginGenerate("", "product_studio");
    var second := app.BeginGenerate("", "product_studio");
    app.FinishGenerate(response);
  }
}
