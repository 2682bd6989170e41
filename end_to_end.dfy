/** How the page and the backend fit together: what the gallery posts is
    always a valid request whose final prompt is the preset text or the
    custom prompt, and how the backend's answer reaches the generate
    handler and the gallery list. */
module EndToEnd {
  import opened Wrappers
  import Backend
  import Frontend

  /** What the page's HTTP client makes of the endpoint's answer: a 2xx body
      resolves, a 500 error rejects. */
  function Transport(response: Backend.Response): (s: Frontend.Settled<Frontend.GenerateResponse>)
    ensures s.Resolved? <==> response.Ok?
    ensures s.Resolved? ==> s.data == Frontend.GenerateResponse(
      response.reply.success, response.reply.imageBase64, response.reply.promptUsed)
  {
    match response
    case Ok(reply, _) => Frontend.Resolved(Frontend.GenerateResponse(reply.success, reply.imageBase64, reply.promptUsed))
    case HttpError(_, _) => Frontend.Rejected
  }

  /** A stored image document as the page receives it from GET /api/images:
      the document has `prompt` and no `prompt_used`. */
  function ListedImage(doc: Backend.ImageDoc): (image: Frontend.GalleryImage)
    ensures image.imageBase64 == doc.imageBase64
    ensures image.promptUsed.None? && image.prompt == Some(doc.prompt)
  {
    Frontend.GalleryImage(doc.imageBase64, None, Some(doc.prompt))
  }

  /** The body the page posts always passes the backend's validation, with
      the page's prompt and style unchanged. */
  lemma RequestAlwaysValidates(customPrompt: string, style: string)
    ensures var body := Frontend.RequestBody(customPrompt, style);
      Backend.ParseImageGenerationRequest(Some(body.prompt), Some(body.style))
        == Success(Backend.ImageGenerationRequest(customPrompt, style))
  {
  }

  /** For every style the gallery offers, the prompt the page sends makes the
      backend's final prompt exactly the preset text, or exactly the custom
      prompt for the custom style: the page never triggers the
      "Additional details" suffix. */
  lemma GalleryPromptReachesGenerator(style: string, customPrompt: string)
    requires style in Frontend.StyleIds
    ensures style == Frontend.CustomStyle ==>
      Backend.FinalPrompt(style, Frontend.HandlerPrompt(style, customPrompt)) == customPrompt
    ensures style != Frontend.CustomStyle ==> Backend.IsPreset(style)
    ensures style != Frontend.CustomStyle ==>
      Backend.IsPreset(style) &&
      Backend.FinalPrompt(style, Frontend.HandlerPrompt(style, customPrompt)) == Backend.PresetText(style)
  {
    if style == Frontend.CustomStyle {
      Backend.CustomIsVerbatim(customPrompt);
    } else {
      assert Backend.IsPreset(style);
      Backend.PresetWithoutDetails(style);
    }
  }

  /** The backend never answers with `success` false: the handler's branch
      that drops such a response silently is unreachable from this backend.
      A resolved answer carries the final prompt the backend stored. */
  lemma ServedAnswerIsSuccessful(request: Backend.ImageGenerationRequest, env: Backend.Environment)
    ensures var s := Transport(Backend.GenerateProductImage(request, env));
      && (s.Resolved? <==> Backend.StepsSucceed(request, env))
      && (s.Resolved? ==> s.data.success)
      && (s.Resolved? ==> s.data.promptUsed == Backend.FinalPrompt(request.style, request.prompt))
      && (s.Resolved? ==> s.data.imageBase64 == Backend.DocFor(request, env).imageBase64)
  {
  }

  /** As written, the caption of every image listed at startup is the bare
      "...", whatever prompt its document stored. */
  lemma ListedCaptionIsBare(doc: Backend.ImageDoc)
    ensures Frontend.Caption(ListedImage(doc).promptUsed) == Frontend.Ellipsis
  {
  }

  /** With the corrected caption, a listed image shows the start of its
      stored prompt, and a freshly generated image shows what it showed
      before. */
  lemma CorrectedCaptionShowsStoredPrompt(doc: Backend.ImageDoc, response: Frontend.GenerateResponse)
    ensures var c := Frontend.CorrectedCaption(ListedImage(doc));
      c[..|c| - |Frontend.Ellipsis|] <= doc.prompt &&
      (doc.prompt != "" ==> c != Frontend.Ellipsis)
    ensures Frontend.CorrectedCaption(Frontend.NewImage(response))
      == Frontend.Caption(Some(response.promptUsed))
  {
  }
}
