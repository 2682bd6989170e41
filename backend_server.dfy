/** The backend's image-generation endpoint and its product projections
    (backend/server.py): how the final prompt is composed from the request's
    style and prompt, how every failure becomes one 500 error, and which
    slices of the product document the projection endpoints return. */
module Backend {
  import opened Wrappers
  import Json

  // ---------------------------------------------------------------------
  // Style identifiers and preset texts
  // ---------------------------------------------------------------------

  const ProductStudio: string := "product_studio"
  const Lifestyle: string := "lifestyle"
  const Closeup: string := "closeup"
  const InUse: string := "in_use"
  const Custom: string := "custom"

  /** The style a request gets when it names none. */
  const DefaultStyle: string := ProductStudio

  /** The four styles that have a fixed preset text. */
  const PresetStyles: seq<string> := [ProductStudio, Lifestyle, Closeup, InUse]

  const ProductStudioPreset: string := "Professional product photography of a premium smart water bottle called AquaFresh Pro. \n                The bottle is sleek stainless steel with a matte black finish, featuring a subtle LED ring near the top \n                and a discreet digital temperature display. Studio lighting with soft shadows, clean white background, \n                8K ultra realistic, commercial product shot, minimalist aesthetic."
  const LifestylePreset: string := "Lifestyle product photography of a modern smart water bottle on a minimalist desk setup. \n                Premium stainless steel bottle with matte finish, subtle LED indicators, next to a laptop and plant. \n                Natural soft lighting, shallow depth of field, aspirational lifestyle shot, 8K ultra realistic."
  const CloseupPreset: string := "Extreme close-up macro shot of a premium smart water bottle's UV-C purification system \n                and LED indicator ring. Showing the sophisticated technology integrated into sleek stainless steel design. \n                Studio lighting, 8K ultra realistic, technical product detail shot."
  const InUsePreset: string := "Action shot of a fit professional person drinking from a sleek smart water bottle during workout. \n                Premium stainless steel bottle with LED indicators visible. Gym environment, dynamic lighting, \n                8K ultra realistic, lifestyle advertising photography."

  /** Joins a base prompt and the user's extra text. */
  const DetailsSeparator: string := " Additional details: "

  /** `suffix` is a suffix of `s`. */
  predicate EndsWith(s: string, suffix: string) {
    |suffix| <= |s| && s[|s| - |suffix|..] == suffix
  }

  predicate IsPreset(style: string) {
    style in PresetStyles
  }

  /** The preset text of a preset style. */
  function PresetText(style: string): (text: string)
    requires IsPreset(style)
    ensures |text| > 0
  {
    if style == ProductStudio then ProductStudioPreset
    else if style == Lifestyle then LifestylePreset
    else if style == Closeup then CloseupPreset
    else InUsePreset
  }

  // ---------------------------------------------------------------------
  // The request and its validation
  // ---------------------------------------------------------------------

  /** The body of POST /api/generate-image once validated. */
  datatype ImageGenerationRequest = ImageGenerationRequest(prompt: string, style: string)

  /** Why request validation refused a body (answered with status 422). */
  datatype ValidationError = MissingField(name: string)

  /** Validation of the request body: `prompt` is required, `style` defaults
      to "product_studio". An absent member is None. */
  function ParseImageGenerationRequest(prompt: Option<string>, style: Option<string>)
    : (r: Result<ImageGenerationRequest, ValidationError>)
    ensures r.Success? <==> prompt.Some?
    ensures r.Failure? ==> r.error == MissingField("prompt")
    ensures r.Success? ==> r.value.prompt == prompt.value
    ensures r.Success? && style.Some? ==> r.value.style == style.value
    ensures r.Success? && style.None? ==> r.value.style == ProductStudio
  {
    match prompt
    case None => Failure(MissingField("prompt"))
    case Some(p) => Success(ImageGenerationRequest(p, style.GetOr(DefaultStyle)))
  }

  // ---------------------------------------------------------------------
  // Prompt composition
  // ---------------------------------------------------------------------

  /** The style-to-base-prompt table; "custom" maps to the user's own prompt. */
  function StylePrompts(prompt: string): (table: map<string, string>)
    ensures table.Keys == {ProductStudio, Lifestyle, Closeup, InUse, Custom}
  {
    map[ProductStudio := ProductStudioPreset,
        Lifestyle := LifestylePreset,
        Closeup := CloseupPreset,
        InUse := InUsePreset,
        Custom := prompt]
  }

  /** The prompt handed to the image generator: the table entry for the style
      (the user's prompt when the style is unknown), followed by the user's
      prompt as additional details when the style is not "custom" and the
      prompt is non-empty. */
  function FinalPrompt(style: string, prompt: string): (r: string)
    // the user's prompt always reaches the generator: verbatim for "custom",
    // otherwise as the trailing additional details when it is non-empty
    ensures style == Custom ==> r == prompt
    ensures style != Custom && prompt != "" ==> EndsWith(r, DetailsSeparator + prompt)
    ensures |prompt| <= |r|
  {
    var table := StylePrompts(prompt);
    var base := if style in table then table[style] else prompt;
    if style != Custom && prompt != "" then base + DetailsSeparator + prompt else base
  }

  /** A preset style with an empty prompt yields exactly the preset text. */
  lemma PresetWithoutDetails(style: string)
    requires IsPreset(style)
    ensures FinalPrompt(style, "") == PresetText(style)
  {
  }

  /** A preset style with a non-empty prompt appends it as additional
      details, so the preset text is always a prefix of the result. */
  lemma PresetWithDetails(style: string, prompt: string)
    requires IsPreset(style) && prompt != ""
    ensures FinalPrompt(style, prompt) == PresetText(style) + DetailsSeparator + prompt
    ensures PresetText(style) <= FinalPrompt(style, prompt)
  {
  }

  /** The style "custom" passes the prompt through verbatim, never suffixed. */
  lemma CustomIsVerbatim(prompt: string)
    ensures FinalPrompt(Custom, prompt) == prompt
  {
  }

  /** An unrecognised style falls back to the prompt, which is then appended
      to itself; an empty prompt gives an empty final prompt. */
  lemma UnknownStyleRepeatsPrompt(style: string, prompt: string)
    requires !IsPreset(style) && style != Custom
    ensures prompt == "" ==> FinalPrompt(style, prompt) == ""
    ensures prompt != "" ==> FinalPrompt(style, prompt) == prompt + DetailsSeparator + prompt
  {
  }

  /** The final prompt of a preset style starts with its preset text. */
  lemma PresetIsPrefix(style: string, prompt: string)
    requires IsPreset(style)
    ensures PresetText(style) <= FinalPrompt(style, prompt)
  {
    if prompt == "" {
      PresetWithoutDetails(style);
    } else {
      PresetWithDetails(style, prompt);
    }
  }

  /** The four preset texts are pairwise distinct (their lengths differ),
      so a preset style's final prompt for an empty prompt identifies it. */
  lemma PresetTextsDistinct(s1: string, s2: string)
    requires IsPreset(s1) && IsPreset(s2) && s1 != s2
    ensures PresetText(s1) != PresetText(s2)
    ensures FinalPrompt(s1, "") != FinalPrompt(s2, "")
  {
    assert |ProductStudioPreset| == 411;
    assert |LifestylePreset| == 319;
    assert |CloseupPreset| == 295;
    assert |InUsePreset| == 281;
  }

  // ---------------------------------------------------------------------
  // The generate-image endpoint
  // ---------------------------------------------------------------------

  type Bytes = seq<bv8>

  /** What the image generator did with the final prompt. */
  datatype Generation = Images(images: seq<Bytes>) | Raised(message: string)

  /** The document stored for a generated image (its id and creation time,
      drawn from uuid and the clock, are not modelled). */
  datatype ImageDoc = ImageDoc(prompt: string, style: string, imageBase64: string)

  /** The JSON body of a successful generation. */
  datatype GenerateReply = GenerateReply(success: bool, imageBase64: string, promptUsed: string)

  /** The endpoint's answer: a reply together with the document it stored,
      or an HTTP error. */
  datatype Response =
    | Ok(reply: GenerateReply, stored: ImageDoc)
    | HttpError(status: int, detail: string)

  /** Everything the endpoint takes from outside: the outcome of importing the
      generator library (the message of the exception it raised, if any), the
      EMERGENT_LLM_KEY variable, the generator, base64 encoding and the
      database insert (the message of the exception it raised, if any). */
  datatype Environment = Environment(
    importError: Option<string>,
    apiKey: Option<string>,
    generate: string -> Generation,
    encode: Bytes -> string,
    insert: ImageDoc -> Option<string>)

  const ErrorPrefix: string := "Error generating image: "
  const KeyMissingDetail: string := "EMERGENT_LLM_KEY not configured"
  const NoImageDetail: string := "No image was generated"

  /** The text of an HTTPException with status 500, as the web framework
      renders it when it is turned into a string. */
  function HttpExceptionText(detail: string): string {
    "500: " + detail
  }

  /** The single error every failure ends as. */
  function ServerError(cause: string): (r: Response)
    ensures r.HttpError? && r.status == 500 && r.detail == ErrorPrefix + cause
  {
    HttpError(500, ErrorPrefix + cause)
  }

  /** A key is configured when it is present and non-empty. */
  predicate KeyConfigured(apiKey: Option<string>) {
    apiKey.Some? && apiKey.value != ""
  }

  /** The stored document a successful generation would write. */
  function DocFor(request: ImageGenerationRequest, env: Environment): (doc: ImageDoc)
    requires env.generate(FinalPrompt(request.style, request.prompt)).Images?
    requires |env.generate(FinalPrompt(request.style, request.prompt)).images| > 0
    ensures doc.prompt == FinalPrompt(request.style, request.prompt)
    ensures doc.style == request.style
    ensures doc.imageBase64 == env.encode(env.generate(doc.prompt).images[0])
  {
    var finalPrompt := FinalPrompt(request.style, request.prompt);
    ImageDoc(finalPrompt, request.style, env.encode(env.generate(finalPrompt).images[0]))
  }

  /** Every foreign step on the way to a stored image succeeds. */
  predicate StepsSucceed(request: ImageGenerationRequest, env: Environment) {
    var gen := env.generate(FinalPrompt(request.style, request.prompt));
    env.importError.None? && KeyConfigured(env.apiKey) &&
    gen.Images? && |gen.images| > 0 &&
    env.insert(DocFor(request, env)).None?
  }

  /** POST /api/generate-image. */
  function GenerateProductImage(request: ImageGenerationRequest, env: Environment): (r: Response)
    // every failure path ends as one 500 error whose detail carries the prefix
    ensures r.HttpError? ==> r.status == 500 && ErrorPrefix <= r.detail
    ensures r.Ok? <==> StepsSucceed(request, env)
    // the reply and the stored document carry the same values
    ensures r.Ok? ==> r.reply.success
    ensures r.Ok? ==> r.stored == DocFor(request, env)
    ensures r.Ok? ==> r.reply.promptUsed == r.stored.prompt && r.reply.imageBase64 == r.stored.imageBase64
    ensures r.Ok? ==> r.stored.style == request.style
    // the inner HTTPExceptions are caught and re-wrapped by the outer handler
    ensures env.importError.None? && !KeyConfigured(env.apiKey) ==>
      r == HttpError(500, ErrorPrefix + HttpExceptionText(KeyMissingDetail))
    ensures env.importError.None? && KeyConfigured(env.apiKey) &&
            env.generate(FinalPrompt(request.style, request.prompt)) == Images([]) ==>
      r == HttpError(500, ErrorPrefix + HttpExceptionText(NoImageDetail))
  {
    if env.importError.Some? then
      ServerError(env.importError.value)
    else if !KeyConfigured(env.apiKey) then
      ServerError(HttpExceptionText(KeyMissingDetail))
    else
      var finalPrompt := FinalPrompt(request.style, request.prompt);
      match env.generate(finalPrompt)
      case Raised(message) => ServerError(message)
      case Images(images) =>
        if |images| == 0 then
          ServerError(HttpExceptionText(NoImageDetail))
        else
          var imageBase64 := env.encode(images[0]);
          var doc := ImageDoc(finalPrompt, request.style, imageBase64);
          match env.insert(doc)
          case Some(message) => ServerError(message)
          case None => Ok(GenerateReply(true, imageBase64, finalPrompt), doc)
  }

  // ---------------------------------------------------------------------
  // The product document and its projections
  // ---------------------------------------------------------------------

  /** The product's versions as the backend hard-codes them. */
  const Versions: seq<Json.Value> := [
    Json.Obj(map[
      "name" := Json.Str("AquaFresh Essential"),
      "features" := Json.Arr([Json.Str("Térmica"), Json.Str("Compartimento secreto"), Json.Str("Sem eletrônicos")]),
      "cost_usd" := Json.Num(8.0),
      "price_usd" := Json.Num(29.99),
      "cost_brl" := Json.Num(40.0),
      "price_brl" := Json.Num(149.90),
      "margin_percent" := Json.Num(275.0)]),
    Json.Obj(map[
      "name" := Json.Str("AquaFresh Smart"),
      "features" := Json.Arr([Json.Str("Térmica"), Json.Str("UV-C"), Json.Str("Lembretes LED"), Json.Str("Compartimento")]),
      "cost_usd" := Json.Num(15.0),
      "price_usd" := Json.Num(59.99),
      "cost_brl" := Json.Num(75.0),
      "price_brl" := Json.Num(299.90),
      "margin_percent" := Json.Num(300.0)]),
    Json.Obj(map[
      "name" := Json.Str("AquaFresh Pro"),
      "features" := Json.Arr([Json.Str("Todas"), Json.Str("App Bluetooth"), Json.Str("Display temperatura"), Json.Str("Premium")]),
      "cost_usd" := Json.Num(22.0),
      "price_usd" := Json.Num(89.99),
      "cost_brl" := Json.Num(110.0),
      "price_brl" := Json.Num(449.90),
      "margin_percent" := Json.Num(309.0)]),
    Json.Obj(map[
      "name" := Json.Str("Kit Família (4 unidades)"),
      "features" := Json.Arr([Json.Str("4x AquaFresh Smart"), Json.Str("Cores variadas"), Json.Str("Desconto 20%")]),
      "cost_usd" := Json.Num(55.0),
      "price_usd" := Json.Num(189.99),
      "cost_brl" := Json.Num(275.0),
      "price_brl" := Json.Num(949.90),
      "margin_percent" := Json.Num(245.0)])
  ]

  /** The product's pricing summary as the backend hard-codes it. */
  const Pricing: Json.Value := Json.Obj(map[
    "supplier_cost_range_usd" := Json.Str("$8 - $22"),
    "retail_price_range_usd" := Json.Str("$29.99 - $89.99"),
    "supplier_cost_range_brl" := Json.Str("R$ 40 - R$ 110"),
    "retail_price_range_brl" := Json.Str("R$ 149,90 - R$ 449,90"),
    "average_margin" := Json.Str("275% - 309%"),
    "break_even_units" := Json.Str("50 unidades"),
    "monthly_profit_100_units_brl" := Json.Str("R$ 22.490"),
    "monthly_profit_100_units_usd" := Json.Str("$4.499")])

  /** The shape of the backend's product document: the members the
      projections read are present, and versions and pricing hold the
      hard-coded values. The other members are not modelled. */
  predicate IsProductData(data: map<string, Json.Value>) {
    && "versions" in data && data["versions"] == Json.Arr(Versions)
    && "pricing" in data && data["pricing"] == Pricing
    && "marketing_strategy" in data
    && "sales_channels" in data
  }

  /** GET /api/product/versions. */
  function GetProductVersions(data: map<string, Json.Value>): (r: map<string, Json.Value>)
    requires "versions" in data && "pricing" in data
    ensures r.Keys == {"versions", "pricing"}
    ensures r["versions"] == data["versions"] && r["pricing"] == data["pricing"]
  {
    map["versions" := data["versions"], "pricing" := data["pricing"]]
  }

  /** GET /api/product/marketing. */
  function GetMarketingInfo(data: map<string, Json.Value>): (r: map<string, Json.Value>)
    requires "marketing_strategy" in data && "sales_channels" in data
    ensures r.Keys == {"strategy", "channels"}
    ensures r["strategy"] == data["marketing_strategy"] && r["channels"] == data["sales_channels"]
  {
    map["strategy" := data["marketing_strategy"], "channels" := data["sales_channels"]]
  }

  /** Every version served by /api/product/versions carries a price in reais
      and in dollars. */
  lemma VersionsCarryBothPrices(data: map<string, Json.Value>)
    requires IsProductData(data)
    ensures GetProductVersions(data)["versions"].Arr?
    ensures forall v :: v in GetProductVersions(data)["versions"].items ==>
      Json.HasKey(v, "price_brl") && Json.HasKey(v, "price_usd")
  {
  }
}
