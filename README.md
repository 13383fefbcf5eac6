# Product-design wizard: state controller and generation service

This project models the core of a three-step product-design wizard written in TypeScript.

1. The user enters a design **brief** and gets four rendered **concepts**.
2. The user refines them with a text instruction or an inspiration image, then selects one.
3. The user asks for a **marketing kit**: a product name, a description, ad copy and three promotional visuals.

All generation happens in a remote image/text model. The model covers the two local pieces around it:

- **`App` (app.dfy)**: the wizard state controller of `App.tsx`.
  - It is the class `AppState`.
  - Its fields are the component's state variables: `brief`, `concepts`, `selectedConcept`, `marketingKit`, `isLoading`, `loadingMessage`, `error` and `currentStep`.
  - Each handler is one method that runs to completion, given the outcomes of the remote calls it triggers.
  - `Valid` is the invariant every handler keeps, in any order: the selection is one of the concepts, nothing is left loading, and a kit exists only after a kit generation that passed its guard.
  - `Dispatch` adds the view's gating: which handler the screen offers at each step. Under it, `Reachable` is preserved, the step never goes back, and the last step always shows a kit.
- **`GeminiService` (gemini_service.dfy)**: the service layer of `services/geminiService.ts`.
  - Every remote call is an `Outcome` (`Success(value)` or `Failure`) supplied to the model.
  - Each operation returns its result, or the one fixed message it throws, together with the requests it sent, in order.
- **`Prompts` (prompts.dfy)**: the service's prompt templates.
  - A request carries a `Prompt`: a template plus the values interpolated into it.
  - `Text` renders it to the exact string sent.
- **`Gateway` (gateway.dfy)**: outcomes and requests.
- **`Strings` (strings.dfy)**: JavaScript's `trim` and its whitespace set, substring containment, and the first-comma search.
- **`Types` (types.dfy)**: the records of `types.ts`.
- **`Options` (options.dfy)**: `null` and `undefined` values.

Behaviours of the code that the model keeps as written:

- **`fileToBase64` keeps `split(',')[1]`.** That is the text between the first and the second comma, not everything after the first comma, and `undefined` when there is no comma. For a data URL whose MIME type and payload hold no comma, it is exactly the payload, which `FileToBase64RoundTrip` proves.
- **`refineWithImage` does not reject an empty or missing description.** An absent `text` is interpolated into the prompt as `undefined`, and an empty one as the empty string.
- **The number of returned images is not checked.** Four images are requested, but the code maps whatever list comes back, so the model states only that there is one data URL per returned image, in order.
- **The parsed marketing text is not checked locally.** `JSON.parse`'s result is used unvalidated, so the model takes the parse as a supplied function that either yields a record or fails.
- **The kit guard tests `!brief` without trimming.** A blank but non-empty brief passes it. Under the view's gating, `Reachable` shows that the stored brief is never blank beyond the first step.
- **A successful handler leaves `error` as it was.** Only the five-second timer clears it.

## Model

| member | source | states |
|---|---|---|
| Strings.Quoted | services/geminiService.ts:45 | user text is wrapped in double quotes and kept intact between them |
| Strings.TrimEmptyIffBlank | App.tsx:36 | `!s.trim()` holds exactly when every character of `s` is JavaScript whitespace, so both handler guards reject exactly the blank inputs |
| Prompts.ConceptPrompt | services/geminiService.ts:26 | the concept prompt contains the brief verbatim |
| Prompts.ConceptPromptInjective | services/geminiService.ts:26 | different briefs give different concept prompts |
| Prompts.RefinementPrompt | services/geminiService.ts:45 | the refinement prompt contains the brief and the quoted instruction |
| Prompts.RefinementPromptInjective | services/geminiService.ts:45 | for one brief, different instructions give different prompts |
| Prompts.InspiredPrompt | services/geminiService.ts:82 | the image-inspired prompt contains the brief and the quoted image description |
| Prompts.KitTextPrompt | services/geminiService.ts:103 | the kit-text prompt contains the quoted brief and the quoted product description |
| Prompts.LifestylePrompt | services/geminiService.ts:122 | the lifestyle visual prompt contains the product name |
| Prompts.FocusPrompt | services/geminiService.ts:123 | the product-focus visual prompt contains the product name |
| Prompts.ActionPrompt | services/geminiService.ts:124 | the action-shot visual prompt contains the product name |
| Prompts.VisualPromptsDistinct | services/geminiService.ts:121-125 | the three visual prompts for one product are pairwise different |
| GeminiService.JpegDataUrl | services/geminiService.ts:34 | a returned image becomes `data:image/jpeg;base64,` followed by its bytes, unchanged |
| GeminiService.DataUrls | services/geminiService.ts:34 | the image map yields one data URL per returned image, same length and same order |
| GeminiService.DataUrlsRoundTrip | services/geminiService.ts:34 | stripping the prefix from each data URL gives back each image's bytes |
| GeminiService.DataUrlsInjective | services/geminiService.ts:34 | different images give different data URLs, so a selected data URL determines the image bytes it came from |
| GeminiService.FileToBase64 | services/geminiService.ts:17 | `split(',')[1]`: present exactly when the data URL has a comma; then it is the comma-free segment right after the first comma, running to the next comma or the end |
| GeminiService.FileToBase64RoundTrip | services/geminiService.ts:16-17 | for a comma-free MIME type and payload, the split returns exactly the payload the file reader encoded |
| GeminiService.FileToBase64OfJpegDataUrl | services/geminiService.ts:17 | an uploaded JPEG's data URL splits back to its payload, provided the payload holds no comma |
| GeminiService.VisualRequestsNameProduct | services/geminiService.ts:121-137 | a kit makes exactly three single-image requests: lifestyle, then product focus, then action shot; each prompt names the product and no two are alike |
| GeminiService.FirstImages | services/geminiService.ts:139-140 | the joined visuals exist exactly when every response was delivered with an image at index 0; they are the data URLs of those first images, in request order |
| GeminiService.GenerateConcepts | services/geminiService.ts:22-39 | one request for four renders of the brief; success exactly when the call delivers, giving one data URL per image; otherwise the fixed concepts message |
| GeminiService.RefineWithText | services/geminiService.ts:41-58 | one request for four renders of the brief with the instruction; success exactly when the call delivers; otherwise the fixed refinement message |
| GeminiService.RefineWithImage | services/geminiService.ts:60-96 | nothing is sent if the file cannot be read; the description request comes first; image generation is requested only after a description arrived, and its prompt carries the brief and that description; any failure gives the one image-refinement message |
| GeminiService.GenerateMarketingKit | services/geminiService.ts:98-148 | the text request comes first; the three visual requests are sent only after the text was delivered and parsed; the kit exists exactly when every stage delivered; it holds the parsed text and the three visuals in prompt order; otherwise the one kit message and no partial kit |
| App.Ordinal | App.tsx:12-16 | the step enum's values, `BRIEF` lowest and `MARKETING` highest |
| App.AppState.constructor | App.tsx:19-27 | the initial state: empty brief and concepts, no selection, kit or error, not loading, first step |
| App.AppState.HandleError | App.tsx:29-33 | shows the message and stops loading; nothing else changes |
| App.AppState.Select | components/ConceptGallery.tsx:17-23 | selecting one of the displayed concepts keeps the invariant and changes only the selection |
| App.AppState.HandleGenerateConcepts | App.tsx:35-56 | a blank brief only sets the brief error, sends nothing and changes no data. Otherwise: the brief is stored and selection and kit are cleared; on success the concepts are the result's data URLs and the step becomes `CONCEPTS`; on failure the concepts stay empty, the step is unchanged and the error is the service message. Loading ends on every path. |
| App.AppState.HandleRefineWithText | App.tsx:58-75 | a blank instruction only sets its error; otherwise the selection is cleared whatever happens and the concepts are replaced only on success; brief, kit and step never change |
| App.AppState.HandleRefineWithImage | App.tsx:77-90 | no validation; the selection is always cleared; on any failure the old concepts are kept whole; the render request carries the stored brief; brief, kit and step never change |
| App.AppState.HandleGenerateMarketingKit | App.tsx:92-109 | rejected, with nothing sent and kit and step unchanged, exactly when there is no truthy selection or the brief is empty; otherwise the request carries the stored brief and the fixed product description; on success the kit is stored and the step becomes `MARKETING`; selection and concepts never change |
| App.AppState.Dispatch | App.tsx:125-147 | under the view's gating the reachable-state invariant holds, the step never decreases, the last step always has a kit, a new kit appears only from a kit request made with a selection, and the kit guard never rejects an offered request; an action not offered changes nothing |

## Left out

- The remote model client and every network call. Each call is an `Outcome` parameter; image content and model behaviour are not modelled.
- The `API_KEY` check at module load (services/geminiService.ts:5-9). It is configuration I/O.
- The requested `responseSchema` (services/geminiService.ts:104-115). The remote service is asked for it, but it is never checked locally. `JSON.parse` is a supplied function returning a record or nothing.
- The model names, `outputMimeType` and `aspectRatio` of each request. They are constant configuration. A request records only its prompt and its `numberOfImages`.
- `FileReader` events (services/geminiService.ts:14-18). The read is an `Outcome` of the data URL; only the split is modelled. `ReadAsDataUrl` gives the data-URL shape used by the round-trip lemma.
- `Promise.all` concurrency (services/geminiService.ts:139). The three visual outcomes are joined in request order, all or nothing.
- `console.error` logging in every catch block.
- The five-second `setTimeout` that clears `error` (App.tsx:32). It needs a clock.
- React's asynchronous interleaving: a handler runs to completion before the next one starts. Hook closures (`useCallback` dependency lists) are taken to read the current state.
- The `err instanceof Error ? … : '…'` fallback messages (App.tsx:52, 71, 86, 105). The service only ever throws `Error`, so the fallbacks are never used.
- View rendering, styling and `components/Stepper.tsx`. Only the gallery's selection offer and the view's gating enter the model, in `Select`, `Enabled` and `Dispatch`.
