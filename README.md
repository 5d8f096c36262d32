# VEOXIN generation flow in Dafny

VEOXIN is a browser studio for generating short videos with the Veo models
plus a small Express proxy that holds the provider API key. This project
models the part of it that carries behaviour:

- the client service `VeoService.generateVideo` (`gemini_service.dfy`): model
  choice, prompt assembly, the request object built field by field, and the
  create → poll → download run with its progress reports and error texts;
- the proxy's three POST endpoints (`server.dfy`): the key guard, the request
  reshaped for the provider with reference images re-tagged as ASSET, the
  operation projection, the download URL and the 500 replies;
- the App component's generation state (`app.dfy`): status line, history and
  selected video, and the ordered mapping of error messages to user texts;
- the PromptForm component (`prompt_form.dfy`): initial parameters, per-field
  setters, uploads (three reference images at most, `split(',')[1]` on the
  data URL) and the submit condition.

`types.dfy` transcribes `types.ts` and `constants.ts`; `api.dfy` holds the
JSON bodies that client and proxy exchange; `common.dfy` holds the JavaScript
rules the code depends on (truthiness of possibly-undefined strings, `||`
fallbacks, template-literal rendering of numbers and `undefined`, `includes`).
`workflow_properties.dfy` proves what a run does for every provider behaviour,
and `end_to_end.dfy` connects client, proxy and form.

The network is abstract. A `Provider` value scripts what the proxy answers:
the creation reply, a finite list of poll replies and the download reply,
whose success carries the object URL the browser would create. Each reply is
a 2xx JSON body, a failed reply with its status and possibly-unreadable body,
or a rejected `fetch` with its message. A run is described by
its `Outcome` (`Done(url)`, `Failed(failure)` with the thrown message, or
`Polling` when the scripted poll replies run out while the operation is still
pending) and by its event trace: progress reports, pauses and the requests
posted to the proxy. The SDK calls and `fetch` on the proxy side are function
parameters of the handlers.

The code has no poll cap: the client loops while the operation is not done.
An operation that never finishes is represented by the `Polling` outcome.

## Model

| member | source | states |
|---|---|---|
| GeminiService.SelectModel | services/geminiService.ts:26 | the pro model is chosen if and only if the mode is REFERENCES_TO_VIDEO, the fast model if and only if it is not |
| GeminiService.BuildPrompt | services/geminiService.ts:129-134 | the prompt text; its layout is stated by AvatarPromptLayout and PlainPromptLayout below |
| GeminiService.AvatarPromptLayout | services/geminiService.ts:130-131 | an AVATAR prompt is "[SCENE: ", the scene, "] [SCRIPT: ", the script as interpolated ("undefined" when absent), "] " and the avatar enhancement, each at its exact offset, and nothing else |
| GeminiService.PlainPromptLayout | services/geminiService.ts:133 | any other prompt is the user's prompt, ", " and the visual enhancement, each at its exact offset, and nothing else |
| GeminiService.PromptIgnoresOtherSettings | services/geminiService.ts:129-134 | two parameter sets with the same mode, prompt and script give the same prompt |
| GeminiService.WrapReferences | services/geminiService.ts:49-51 | same count and order as the input, each image wrapped as image/png |
| GeminiService.RequestFor | services/geminiService.ts:31-52 | the request body as a value; each field is stated by BuildRequest's contract below |
| GeminiService.BuildRequest | services/geminiService.ts:31-52 | the request built in place equals its specification; one video, resolution and aspect ratio copied; image only in FRAMES mode with a start frame; lastFrame is the start frame for a looping clip, else the end frame, and absent outside FRAMES; referenceImages only in REFERENCES mode, same count and order, PNG-wrapped |
| GeminiService.PollLoop | services/geminiService.ts:73-99 | no poll exactly when the operation is already done; three events per poll (their order, report then pause then poll, is stated by RoundsAreNumbered); at most one poll more than there are replies, and exactly that many when the replies run out |
| GeminiService.RenderingMessage | services/geminiService.ts:77 | the progress text after k polls; RoundsAreNumbered below states where it appears |
| GeminiService.CreationFailureText | services/geminiService.ts:65-67 | the thrown text for a failed creation reply is never empty |
| GeminiService.PollFailureText | services/geminiService.ts:89-91 | the thrown text for a failed poll reply is never empty |
| GeminiService.ApiErrorText | services/geminiService.ts:96-97 | the thrown text for an operation error is never empty |
| GeminiService.VideoUri | services/geminiService.ts:101 | the lookup succeeds exactly when the response, its video list, a first entry and its video are present, and yields that video's uri, itself possibly undefined |
| GeminiService.AfterPolling | services/geminiService.ts:99-121 | the run keeps the submission and loop events as its prefix; it is still polling exactly when the loop ran out of replies; a done run's URL is the download reply's object URL |
| GeminiService.Workflow | services/geminiService.ts:57-121 | every run starts with the submission report and the creation request; a done run's URL is the download reply's object URL |
| GeminiService.PollUntilDone | services/geminiService.ts:73-99 | the while loop produces exactly the run of the recursive loop specification: same end, same events, same poll count |
| GeminiService.SubmitAndFollow | services/geminiService.ts:57-121 | posting a request body, polling and downloading produce exactly the outcome and events of the workflow specification for that body |
| GeminiService.GenerateVideo | services/geminiService.ts:19-127 | the whole create → poll → download method produces exactly the outcome and events of the workflow specification for the request its parameters specify |
| WorkflowProperties.FirstSettled | services/geminiService.ts:89-98 | the index of the first poll reply that is not pending (ok, no error, not done), or the number of replies; every reply before it is pending |
| GeminiService.EndOn | services/geminiService.ts:89-98 | a non-pending reply never leaves the loop out of replies; a failed reply aborts with its poll-failure text, a rejected fetch with its own message, an operation error with the API error text (even when done); it settles exactly on a reply with no error, which is then done |
| WorkflowProperties.LoopStopsAtFirstSettled | services/geminiService.ts:75-98 | the loop polls up to and including the first non-pending reply, and that reply alone decides how it ends |
| WorkflowProperties.LoopEventsAreRounds | services/geminiService.ts:75-92 | the loop's events are only reports, pauses and poll requests, three events per poll, and the last event is a poll; the report-pause-poll order of each round is stated by RoundsAreNumbered |
| WorkflowProperties.UnansweredRoundIsLast | services/geminiService.ts:76-87 | a loop that runs out of replies ends with the report quoting its last poll, the pause and that poll |
| WorkflowProperties.RoundsAreNumbered | services/geminiService.ts:76-77 | the k-th poll request is preceded by exactly one progress report quoting k×10 seconds, and a pause |
| WorkflowProperties.SubmissionMakesNoPoll | services/geminiService.ts:29-63 | the submission report and creation request contain no poll and no download request |
| WorkflowProperties.PollingRunEndsWithRound | services/geminiService.ts:75-87 | a run still polling ends with the report quoting its total number of polls, the pause and a poll request |
| WorkflowProperties.CreationFailureEndsRun | services/geminiService.ts:57-68 | a non-ok creation reply fails with the error, message or "HTTP <status>" text, a rejected creation fetch with its message; no poll, no download, nothing after the creation request |
| WorkflowProperties.NoPollWhenCreatedDone | services/geminiService.ts:70-75 | a creation reply that is already done makes no poll request and goes straight to the video URI; its error field is never examined |
| WorkflowProperties.PollingDecidesRun | services/geminiService.ts:75-115 | exactly n+1 polls for the first non-pending reply n; HTTP failure, rejected fetch and API error (even when done) abort with their texts and nothing after that poll; a done reply is downloaded; all pending means still polling |
| WorkflowProperties.FinishAfterSettling | services/geminiService.ts:101-121 | a settled operation either fails on the missing property without a download, or ends with the download request for its (possibly undefined) URI and yields the object URL, the download failure text or the rejection's message |
| Common.IntToString | services/geminiService.ts:97 | the template-literal rendering of an integer is non-empty and starts with "-" exactly for negative numbers |
| Common.NatToStringIsDecimal | services/geminiService.ts:77 | a natural number renders as decimal digits only, a single digit exactly below ten |
| Server.Project | server.js:55-60 | the reply carries exactly the operation's name, done, error and response |
| Server.ShapingFails | server.js:44-45 | re-tagging fails exactly when references are present and config is absent; HandleGenerate and ClientRequestsShapeCleanly state its consequences |
| Server.ProjectionForgetsExtraFields | server.js:89-94 | operations differing only in fields outside the four are reported identically |
| Server.Retag | server.js:45-48 | same count and order, each image unchanged and tagged ASSET |
| Server.ProviderRequestFor | server.js:36-49 | model, prompt and image kept; config unchanged without references; with references, config unchanged apart from referenceImages, which holds the re-tagged list |
| Server.HandleGenerate | server.js:18-69 | no key: 500 with both texts and no provider call; references without config: 500 with the TypeError text; otherwise one provider call with the shaped request and the projected operation, or 500 with the thrown message or default text |
| Server.HandlePoll | server.js:72-102 | no key: 500 and no call; otherwise one call with the given operation and the projected result, or 500 with the thrown message or default text |
| Server.DownloadUrl | server.js:120 | the URL is the URI followed by "&key=" and the key |
| Server.DownloadUrlEndsWithKey | server.js:120 | the key is exactly the text after the URI and "&key=" |
| Server.HandleDownload | server.js:105-136 | no key: 500 and no fetch; otherwise one fetch of the download URL; ok streams video/mp4, not ok gives 500 with the download failure text, a rejected fetch 500 with its message or the default |
| AppState.DisplayMessage | App.tsx:66-68 | a message containing "13" shows the Error-13 text even if it contains "SAFETY"; "SAFETY" alone shows the safety text; an empty or absent message the timeout text; any other message itself |
| AppState.DisplayMessageNeverEmpty | App.tsx:66-68 | the displayed text is never empty: one of the three canned texts or the error's own message |
| AppState.Code13IsInternalError | App.tsx:68 | an API error with code 13 always shows the Error-13 text, whatever its message |
| AppState.LastProgress | App.tsx:52 | with no progress report the initial message; otherwise the message of a report after which no further report comes, i.e. the latest one |
| AppState.LastProgressOfRound | App.tsx:52 | after a report, a pause and a poll, the status line shows that report |
| AppState.PollingShowsLatestRound | App.tsx:52 | while still polling after k polls, the status line reads the rendering message for k×10 seconds |
| AppState.CountedRoundIsShown | App.tsx:52 | events ending on a report, pause and poll, whose report counts the polls, leave that report on the status line |
| AppState.App.constructor | App.tsx:35-37 | idle with an empty message, empty history, nothing selected |
| AppState.App.IsLoading | App.tsx:125 | the form is loading if and only if the step is GENERATING |
| AppState.App.StartGeneration | App.tsx:48 | step GENERATING with the initializing message; history and selection unchanged |
| AppState.App.OnProgress | App.tsx:52 | only the message changes; step, history and selection are kept |
| AppState.App.RelayProgress | App.tsx:51-53 | after relaying a run's progress callbacks, the status message is the latest report, or unchanged when none came; step, history and selection kept |
| AppState.App.RecordSuccess | App.tsx:55-63 | the new result is prepended to the history, the earlier entries keep their order, it becomes the selection, step SUCCESS |
| AppState.App.RecordFailure | App.tsx:64-70 | step ERROR with the mapped message; history and selection unchanged |
| AppState.App.HandleGenerate | App.tsx:47-72 | success prepends and selects the result with SUCCESS; failure keeps history and selection and shows the mapped message; a run still polling stays GENERATING on the latest report |
| AppState.App.SelectFromHistory | App.tsx:140 | the chosen history entry becomes the selection; nothing else changes |
| AppState.App.DismissError | App.tsx:241 | status becomes IDLE with an empty message; history and selection unchanged |
| PromptFormState.InitialParams | components/PromptForm.tsx:30-37 | TEXT_TO_VIDEO, empty prompt and script, 9:16, 720p, duration 7, no frames, no references, not looping |
| PromptFormState.FirstComma | components/PromptForm.tsx:60 | the index of the first comma, or the length when there is none; no comma before it |
| PromptFormState.Base64Part | components/PromptForm.tsx:60 | undefined exactly when the data URL has no comma; otherwise a comma-free segment |
| PromptFormState.DataUrlPayload | components/PromptForm.tsx:60 | for a data URL "header,payload" (possibly followed by more comma-separated text) the stored value is exactly the payload |
| PromptFormState.EncodeAll | components/PromptForm.tsx:47 | one encoded entry per file, in selection order |
| PromptFormState.UploadKeepsLeadingFiles | components/PromptForm.tsx:46-48 | the stored references are the first min(3, n) encoded files, a prefix of the whole selection |
| PromptFormState.CanGenerate | components/PromptForm.tsx:196 | the button is enabled if and only if not loading and the prompt is non-empty |
| PromptFormState.PromptForm.constructor | components/PromptForm.tsx:30-37 | the form starts from the initial parameters, within the upload limit |
| PromptFormState.PromptForm.SelectMode | components/PromptForm.tsx:75 | only the mode changes |
| PromptFormState.PromptForm.SetPrompt | components/PromptForm.tsx:100 | only the prompt changes |
| PromptFormState.PromptForm.SetScript | components/PromptForm.tsx:111 | only the script changes |
| PromptFormState.PromptForm.SetAspectRatio | components/PromptForm.tsx:158 | only the aspect ratio changes, to 16:9 or 9:16 |
| PromptFormState.PromptForm.SetResolution | components/PromptForm.tsx:174 | only the resolution changes, to 720p or 1080p |
| PromptFormState.PromptForm.HandleFileChange | components/PromptForm.tsx:41-53 | no file list: unchanged; references: the first three files at most, in order, encoded; a frame: only that field, from the first file; an empty list for a frame: unchanged; never more than three references |
| PromptFormState.PromptForm.Submit | components/PromptForm.tsx:196-197 | the current parameters are handed over if and only if not loading and the prompt is non-empty |
| EndToEnd.ClientRequestsShapeCleanly | server.js:44-45 | a request built by the client always has a config, so re-tagging references never fails |
| EndToEnd.ReferencesReachProviderAsAssets | server.js:29-49 | the provider receives the client's model, prompt, start frame, last frame and settings, and the chosen references in order as PNG images tagged ASSET, only in REFERENCES mode |
| EndToEnd.FormCapsProviderReferences | components/PromptForm.tsx:47 | parameters edited in the form never send more than three reference images to the provider |
| EndToEnd.ThirdPollDelivers | services/geminiService.ts:75-115 | pending, pending, then done: exactly three polls, then the download, and the object URL is the result |
| EndToEnd.InternalErrorOnFirstPoll | services/geminiService.ts:96-97 | an error {13, "internal"} on the first poll fails with "API Error 13: internal" after one poll, downloads nothing, and the page shows the Error-13 text |
| EndToEnd.VideoWithoutUriIsFetchedAsUndefined | services/geminiService.ts:101-110 | a done operation whose video has no uri is not a client error: the client posts a download body without uri and makes no poll, and the proxy fetches "undefined&key=" followed by the key |

## Left out

- Network I/O: `fetch`, the GenAI SDK calls and stream piping are abstract provider replies or function parameters; a JSON round trip is taken to preserve every value. A successful reply whose body is not JSON, and a rejection of `videoResponse.blob()`, are not modelled.
- Timing: the ten-second `setTimeout` between polls is a `Wait` event without duration; `Date.now()` is the `now` parameter of `App.HandleGenerate`.
- Browser runtime: `Blob`, `URL.createObjectURL` (the object URL is part of the provider script), `FileReader` (files are given as their data URLs) and the download anchor of `handleDownload`.
- The API key check through `window.aistudio` at App.tsx:39-45, `components/ApiKeyModal.tsx` and `components/LoadingScreen.tsx` (random message rotation); `LOADING_MESSAGES` is therefore not transcribed.
- All JSX rendering, styling, `MODE_LABELS`, the advanced-panel toggle and `console` logging.
- Server plumbing: CORS, the JSON body limit, static hosting, the catch-all route and `listen`.
- AppState.App.HandleGenerate: progress reports are relayed after the service call returns, in their original order; the final state is the same, but the intermediate states a re-render could observe are not modelled.
- GeminiService.ApiErrorText and the operation error: `code` and `message` are taken to be present (an integer and a string); an absent one would print as "undefined".
- Runtime TypeErrors (reading `generatedVideos[0].video.uri` from an incomplete response, writing `referenceImages` into an absent config) carry V8's message texts.
- A reference list assigned by the form is kept as a list of possibly-undefined payloads, since `split(',')[1]` can be undefined; how the provider treats such an image is not modelled.
- Concurrency of several generations started from different tabs is not modelled; one generation runs at a time.
