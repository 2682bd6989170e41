# AquaFresh Pro page: a Dafny model of its image-generation flow

The repository is a single-page marketing site for a fictional smart water
bottle. Almost all of it is static presentation. Its behaviour lies in two places:

- **The page's client logic** (`frontend/src/App.js`). This covers the generate
  button's guard, the prompt the gallery sends for each style, and the
  `isGenerating` request cycle. It also covers how a generate response changes
  the gallery list, the two startup loads, navigation clicks, the
  intersection-observer callback that tracks the active section, and the
  caption under each image.
- **The backend's generate-image endpoint** (`backend/server.py`). It composes a
  final prompt from the request's style and prompt. It wraps every failure in
  one HTTP 500 error. The two projection endpoints serve fixed slices of the
  product document.

Modules:

- `Wrappers` (`wrappers.dfy`): `Option` and `Result`.
- `Json` (`json.dfy`): JSON values as exchanged between backend and page.
- `Backend` (`backend_server.dfy`): pure functions. These are the style table,
  `FinalPrompt`, request validation with its default style, the endpoint as a
  function of the request and its environment, and the projections.
- `Frontend` (`frontend_app.dfy`): the page. The guard, the prompt choice, the
  caption and the observer fold are pure functions. The page state is the class
  `App`. Its methods are the startup loads, the style buttons, the
  custom-prompt edit, navigation clicks, the observer callback and the generate
  handler. The handler is split at its `await` into `BeginGenerate` and
  `FinishGenerate`. Network results enter as `Settled` values: a resolved body
  or a rejection. `alerts` records the blocking alerts shown. `inFlight` counts
  posted requests that have not settled.
- `EndToEnd` (`end_to_end.dfy`): lemmas that connect the two sides.

Behaviour worth knowing, all stated in the contracts below:

- The generate handler never checks `isGenerating` itself. Only the button's
  `disabled` expression keeps requests single-flight. `App.ClickGenerate`
  preserves `SingleFlight()`. Calling the handler directly twice breaks it
  (`UnguardedHandlerBreaksSingleFlight`).
- A custom prompt made only of blanks enables the button.
- A generate response whose `success` is false is dropped with no alert. Only a
  thrown error raises an alert. This backend never answers with `success` false,
  so that branch is unreachable from it.
- An image-list load replaces the list outright. If it settles after a
  generation, it discards the newly prepended image.
- For an unknown style, the backend appends the prompt to itself.

## Model

| member | source | states |
|---|---|---|
| `Backend.PresetText` | backend/server.py:374-391 | each of the four preset styles has a fixed, non-empty preset text |
| `Backend.PresetTextsDistinct` | backend/server.py:374-391 | the four preset texts are pairwise distinct, so the final prompt for an empty prompt identifies the preset style |
| `Backend.ParseImageGenerationRequest` | backend/server.py:45-47 | a body is accepted iff it has a prompt; the prompt is kept; a missing style becomes "product_studio", a given one is kept |
| `Backend.StylePrompts` | backend/server.py:374-393 | the style table has exactly the five keys product_studio, lifestyle, closeup, in_use and custom |
| `Backend.FinalPrompt` | backend/server.py:395-397 | the user's prompt always reaches the generator: verbatim for "custom", otherwise as the trailing " Additional details: " part when non-empty, and the result is never shorter than the prompt; the five case lemmas below pin down the result for every (style, prompt) |
| `Backend.PresetWithoutDetails` | backend/server.py:395-396 | a preset style with an empty prompt yields exactly its preset text |
| `Backend.PresetWithDetails` | backend/server.py:395-397 | a preset style with a non-empty prompt p yields preset + " Additional details: " + p, so the preset is a prefix |
| `Backend.PresetIsPrefix` | backend/server.py:395-397 | whatever the prompt, a preset style's final prompt starts with the preset text |
| `Backend.CustomIsVerbatim` | backend/server.py:392-397 | style "custom" yields the request prompt exactly, never suffixed |
| `Backend.UnknownStyleRepeatsPrompt` | backend/server.py:395-397 | an unrecognised style yields "" for an empty prompt and p + " Additional details: " + p otherwise |
| `Backend.ServerError` | backend/server.py:429-431 | the outer handler's error has status 500 and detail "Error generating image: " followed by the exception's text |
| `Backend.DocFor` | backend/server.py:409-418 | the stored document holds the final prompt, the request's style and the base64 text of the first generated image |
| `Backend.GenerateProductImage` | backend/server.py:363-431 | success iff every foreign step succeeds (import, non-empty key, a non-empty image list, the insert); the reply has success true and the same prompt and image as the stored document, which keeps the request's style; every failure is one 500 error with the "Error generating image: " prefix, the missing key and the empty image list included |
| `Backend.GetProductVersions` | backend/server.py:345-348 | the answer has exactly the members versions and pricing, equal to the product document's |
| `Backend.GetMarketingInfo` | backend/server.py:355-361 | the answer has exactly the members strategy and channels, equal to the document's marketing_strategy and sales_channels |
| `Backend.VersionsCarryBothPrices` | backend/server.py:178-215 | every version served by /product/versions carries price_brl and price_usd |
| `Frontend.GenerateEnabled` | frontend/src/App.js:507 | the button is enabled only when nothing is generating; with nothing generating it is enabled for every preset style and for any non-empty custom prompt; it is disabled for the custom style with an empty prompt |
| `Frontend.HandlerPrompt` | frontend/src/App.js:458-460 | the handler gets the custom prompt for the custom style and "" for every other style; `EndToEnd.GalleryPromptReachesGenerator` gives what the backend makes of it |
| `Frontend.BlankPromptEnables` | frontend/src/App.js:507 | with nothing generating, a custom prompt of blanks only enables the generate button |
| `Frontend.RequestBody` | frontend/src/App.js:622-625 | the posted body always has a prompt, equal to the handler's argument, and the given style |
| `Frontend.NewImage` | frontend/src/App.js:628-631 | the entry prepended after a successful generation carries the response's image_base64 and prompt_used, and no prompt |
| `Frontend.Caption` | frontend/src/App.js:541 | the caption is a prefix of prompt_used of length min(length of prompt_used, 100), always followed by "..."; only "..." when prompt_used is absent |
| `Frontend.CorrectedCaption` | frontend/src/App.js:541 | the corrected caption falls back to the stored prompt when prompt_used is absent and is unchanged otherwise |
| `Frontend.FoldActive` | frontend/src/App.js:644-650 | after a batch the active section is the previous one or the id of an intersecting entry of the batch |
| `Frontend.LastIntersecting` | frontend/src/App.js:644-650 | reference definition: the index of an intersecting entry after which no entry intersects, or none when no entry intersects |
| `Frontend.LastIntersectingWins` | frontend/src/App.js:644-650 | the active section after a batch is the id of the last intersecting entry, and is unchanged when no entry intersects |
| `Frontend.App.constructor` | frontend/src/App.js:587-592 | initial state: section "hero", no product data, empty list, not generating, loading; with the gallery's own initial state from frontend/src/App.js:447-448, style "product_studio" and an empty custom prompt; no alerts, nothing in flight, so single-flight holds |
| `Frontend.App.ProductLoaded` | frontend/src/App.js:595-604 | loading is false afterwards whether the load succeeds or fails; a success stores the document, a failure leaves productData as it was |
| `Frontend.App.ImagesLoaded` | frontend/src/App.js:606-613 | a response sets the list to its images, or to [] when absent; a failure leaves the list unchanged |
| `Frontend.App.SelectStyle` | frontend/src/App.js:481 | a style button sets the selected style to its id |
| `Frontend.App.EditCustomPrompt` | frontend/src/App.js:498 | the text area sets the custom prompt |
| `Frontend.App.ClickNav` | frontend/src/App.js:43-44 | a navigation click sets the active section to that item's id, one of the six fixed ids |
| `Frontend.App.ObserverCallback` | frontend/src/App.js:644-650 | the callback's loop leaves the active section equal to the fold of the batch over the previous value |
| `Frontend.App.BeginGenerate` | frontend/src/App.js:619-625 | the handler sets isGenerating and posts the body without consulting isGenerating; one more request is outstanding |
| `Frontend.App.FinishGenerate` | frontend/src/App.js:626-638 | isGenerating ends false in every case; success true prepends {image_base64, prompt_used}; success false changes nothing and raises no alert; a thrown error leaves the list and raises exactly one alert; single-flight is preserved |
| `Frontend.App.HandleGenerateImage` | frontend/src/App.js:619-639 | over a whole call: isGenerating ends false; on success the list grows by one with the response at the head and the old list as tail; otherwise the list is unchanged; a thrown error appends exactly the one alert "Erro ao gerar imagem. Tente novamente." to the earlier alerts, and nothing else adds one |
| `Frontend.App.ClickGenerate` | frontend/src/App.js:504-507 | a click posts the body for the selected style's prompt iff the button is enabled, and is inert otherwise; it preserves single-flight |
| `Frontend.Mount` | frontend/src/App.js:594-617 | after both startup loads: not loading, not generating, section "hero"; productData is the document or stays null on failure; the list is the loaded images, or [] when absent or failed; the gallery starts at "product_studio" with an empty custom prompt, no alerts and nothing in flight, so single-flight holds |
| `Frontend.UnguardedHandlerBreaksSingleFlight` | frontend/src/App.js:619-638 | two handler calls without the button's guard leave a request outstanding while isGenerating is false |
| `EndToEnd.Transport` | frontend/src/App.js:622-635 | the page sees a resolved body iff the backend answered without error, and that body carries the reply's success, image_base64 and prompt_used unchanged |
| `EndToEnd.ListedImage` | backend/server.py:433-437 | a document listed by GET /api/images reaches the page with its image and its `prompt`, and without `prompt_used` |
| `EndToEnd.RequestAlwaysValidates` | backend/server.py:45-47 | every body the page posts passes validation with the page's prompt and style |
| `EndToEnd.GalleryPromptReachesGenerator` | frontend/src/App.js:458-460 | for the five gallery styles, the final prompt is the custom prompt for "custom" and exactly the preset text otherwise |
| `EndToEnd.ServedAnswerIsSuccessful` | frontend/src/App.js:627-632 | an answer from this backend reaches the handler resolved iff every foreign step succeeded; it then has success true and carries the final prompt and the image of the stored document |
| `EndToEnd.ListedCaptionIsBare` | frontend/src/App.js:541 | as written, every image listed at startup is captioned "..." whatever its stored prompt |
| `EndToEnd.CorrectedCaptionShowsStoredPrompt` | frontend/src/App.js:541 | with the correction, a listed image's caption is a prefix of its stored prompt (not bare when the prompt is non-empty), and generated images keep their caption |

## Findings

| source | as written | input that shows it | evidently intended | confidence | as-written member | corrected member |
|---|---|---|---|---|---|---|
| frontend/src/App.js:541 | the caption reads `prompt_used`, but the documents that GET /api/images lists carry `prompt` (stored at backend/server.py:412-418) | any stored document, e.g. prompt "Studio shot", is captioned "..." | show the first 100 characters of the stored prompt | high; not executed | `EndToEnd.ListedCaptionIsBare` | `Frontend.CorrectedCaption` |

## Left out

- Presentational sections: Hero, Problem, Features, Versions, Business and Footer, with their Tailwind classes and static copy. They are not modelled because they hold no logic. Optional chaining renders nothing when data is absent.
- Price formatting with `toFixed(2)` and the `scrollY > 50` navbar test. Both are floating-point display details.
- DOM plumbing. This covers the scroll listener, `scrollIntoView`, and building, observing and disconnecting the intersection observer. The observer is re-created when `loading` changes. Only the callback's fold over a batch of entries is modelled.
- `console.error` and the backend's `logger` calls are left out. They only log. Each `alert` is recorded in `App.alerts`.
- Interleavings of the two startup loads and the generate handler are not enumerated. Each step is modelled on its own, and callers may order them as they like.
- Foreign calls: the image generator, base64 encoding, the database insert, uuid and the clock. The first three are fields of `Backend.Environment`. The stored document's id and creation time are not modelled.
- GET /api/images is modelled only by the shape of what it returns (`EndToEnd.ListedImage`). Its query details are not modelled: the `_id` projection, the newest-first `created_at` sort and the 100-item limit. They are database behaviour.
- The endpoints `/`, `/product`, `/product/personas` and `/status` are not part of this model. Neither are CORS, dotenv or the database setup.
- Backend.VersionsCarryBothPrices: PRODUCT_DATA is written out only for `versions` and `pricing`. Prices are exact decimals, not binary floats. The other members are opaque.
- Backend.ParseImageGenerationRequest: only the presence of `prompt` and `style` is modelled. A member of the wrong type is also refused with status 422, and that is not modelled.
- Backend.GenerateProductImage: an exception's text is a parameter. For the inner HTTPExceptions it is taken to be the framework's "500: detail" rendering.
- Frontend.Caption: JavaScript's `substring` counts UTF-16 code units; the model counts characters.
- Frontend.App.SelectStyle and Frontend.App.ClickNav: they require one of the fixed ids, because only the fixed buttons call them.
- `backend_test.py` is not part of this model. It drives a live deployment over HTTP.
