# AI Sonic Remix: remix client, file intake and page controller

A model of the logic in a small browser front-end. The user uploads an audio
track. A generative-AI service is asked for a "remix" of the track. Both clips
are then played back. Three pieces carry the logic:

- **Remix client** (`GeminiService`, `gemini_service.dfy`). It first checks the
  API key. It then sends one primary audio-to-audio request. The primary path
  is used only when the first response part that has `inlineData` also has
  non-empty data. Otherwise the fallback runs: a text analysis of the track,
  the default phrase `Dynamic beatbox rhythm.` when no text comes back, and a
  speech synthesis of that text. The synthesis response is accepted only when
  its first part has audio. The result description is either
  `AI Audio Remix Generated` or the text-to-speech label, the first 50
  characters of the synthesized text, and `...`. Every error is rethrown
  unchanged. The three remote requests are oracle inputs: `Reply` is either
  `Returned(response)` or `Threw(error)`. Each run returns its result together
  with the requests it made, in order (`Outcome.calls`). This trace is what
  lets the model state that a missing key makes no request, that the primary
  path skips the fallback, and that the fallback runs at most once. The
  byte-copy loop of `base64ToBlob` is a method over an array.
- **File intake** (`FileDropzone`, `file_dropzone.dfy`). A file whose media
  type does not start with `audio/` is refused. For any other file, the data
  URL that the reader produced is split on `,` and segment 1 becomes the base64
  payload. The data URL form is the one in section 3 of RFC 2397. Only the
  first file of a drop or picker selection is used. The `Dropzone` class holds
  the `isDragging` flag and the `disabled` property.
- **Page controller** (`Controller`, `app.dfy`). The class `App` has the six
  state fields of the page. It has one method per handler, plus the render
  guards for the remix button and the download name. `Valid()` describes the
  reachable states, and every handler keeps it. In particular, `Uploading` is
  never entered. The remix handler is split at its `await`. `BeginRemix` is the
  part before the request and `CompleteRemix` the part after it.
  `HandleStartRemix` composes the two around the remix client.

Object URLs are modelled as values that name what they resolve to:
`FileUrl(file)` for a selected file, and `BlobUrl(payload, type)` for the Blob
built from a base64 payload. `BlobUrl(payload, type)` stands for the Blob
that `Base64ToBlob` builds, with that type, from the string `atob(payload)`
returns. In the source, `url` and `audioUrl` are plain strings.

Behaviours of the code worth noting:

- `reset` does not clear the error message (App.tsx:42-48).
- The primary response is checked only at its first `inlineData` part. If that
  part's data is empty, the fallback runs even when a later part carries audio.
- The synthesis response is checked only at part 0.
- The ellipsis is appended even to a short text.

## Model

| member | source | states |
|---|---|---|
| `GeminiService.ProcessAudioRemix` | services/geminiService.ts:4-71 | With no key, or an empty key, it fails with "API Key not found" and makes no request. The requests made are always a prefix of primary, analysis, synthesis, and the first two carry the caller's audio and type. A failure is the unchanged error of the last request made, or one of the client's own two errors. A stop after the primary request with success means the primary audio was accepted, and the result is that payload with the fixed description. The fallback runs exactly when the key is present and the primary response had no accepted audio. Every result's URL is a Blob of type audio/mp3. The description is the fixed literal exactly when only the primary request was made. When the fallback runs, the requests after the primary one are exactly the fallback's requests, and the result is exactly the fallback's result. |
| `GeminiService.FallbackRemix` | services/geminiService.ts:74-108 | Analysis is always requested first, with the caller's audio. Synthesis is requested exactly when analysis returned, and it is sent `RemixText` of the analysis text. An analysis or synthesis error is rethrown. A synthesis response without audio in part 0 gives "Failed to generate fallback audio.". Success happens exactly when both returned and part 0 has audio, and the result is that payload as an audio/mp3 Blob with `FallbackDescription` of the text. |
| `GeminiService.CandidateParts` | services/geminiService.ts:48-49 | The parts are present exactly when the response has candidates, the list is non-empty, the first candidate has content, and that content has parts. They are then the first candidate's parts. |
| `GeminiService.FindInlinePart` | services/geminiService.ts:49 | The index found is that of the first part with `inlineData`. When none is found, no part has `inlineData`. |
| `GeminiService.PrimaryAudio` | services/geminiService.ts:48-51 | At the first part with `inlineData`, the payload is that part's data when it is present and non-empty, and absent otherwise. With no candidate parts, or no part with `inlineData`, it is absent. An accepted payload is never empty. |
| `GeminiService.TtsAudio` | services/geminiService.ts:100-101 | Audio is accepted exactly when the first part of the first candidate has non-empty `inlineData.data`, and it is that data. |
| `GeminiService.RemixText` | services/geminiService.ts:86 | The text is never empty. It is the analysis text when that is present and non-empty, and "Dynamic beatbox rhythm." otherwise. |
| `GeminiService.FallbackDescription` | services/geminiService.ts:106 | The length is the label's plus min(50, length of the text) plus 3. The description starts with the label, continues with the first min(50, length) characters of the text, and ends with "...". |
| `GeminiService.FallbackDescriptionIsNotPrimary` | services/geminiService.ts:62-65 | No fallback description equals the primary description, so the two paths can be told apart from the result. |
| `GeminiService.ShortTextKeptWhole` | services/geminiService.ts:106 | A text of at most 50 characters appears whole in the description, and "..." is still appended. |
| `GeminiService.MissingKeyMakesNoCall` | services/geminiService.ts:9-12 | For an absent or empty key the outcome is exactly the "API Key not found" failure with no request, whatever the service would answer. |
| `GeminiService.LaterAudioPartIgnored` | services/geminiService.ts:48-56 | When the first `inlineData` part has missing or empty data, the primary audio is absent. The invocation is then exactly the primary request followed by the fallback's requests and result. |
| `GeminiService.PrimaryAndSynthesisRulesDiffer` | services/geminiService.ts:48-101 | A response whose audio sits in its second part is accepted by the primary rule and refused by the synthesis rule. |
| `GeminiService.ScenarioPrimaryAudio` | services/geminiService.ts:58-65 | When the primary response has audio, the result is that payload as an audio/mp3 Blob with "AI Audio Remix Generated", after the primary request alone, for any analysis and synthesis replies. |
| `GeminiService.ScenarioTextOnlyPrimary` | services/geminiService.ts:48-107 | When the primary response is text-only and the analysis returns "Boom bap tsh ka-pow", the requests are primary, analysis, and synthesis of that text. The description is the label, that text, and "...". |
| `GeminiService.ScenarioPrimaryThrows` | services/geminiService.ts:23-70 | When the primary request throws, its error is rethrown after that single request, and no fallback request is made. |
| `GeminiService.Base64ToBlob` | services/geminiService.ts:110-118 | The Blob has as many bytes as the decoded string has characters. Byte i is the character code at i, reduced modulo 256 as a `Uint8Array` stores it. The type is the one passed in. |
| `GeminiService.BinaryStringRoundTrip` | services/geminiService.ts:111-116 | For a binary string, which is what `atob` returns, the bytes of the copy loop read back to the same string. The reading back is `BytesToBinaryString`, which takes each byte as a character code. |
| `FileDropzone.IsAudioType` | components/FileDropzone.tsx:23 | A type is audio exactly when it is "audio/" followed by some subtype, possibly empty. |
| `FileDropzone.FindComma` | components/FileDropzone.tsx:32 | The result is the position of the first comma, or absent exactly when the string has none. |
| `FileDropzone.Split` | components/FileDropzone.tsx:32 | A split has at least one segment. It has exactly one when the string has no comma. The first segment is the text before the first comma. |
| `FileDropzone.SplitSegmentsCommaFree` | components/FileDropzone.tsx:32 | No segment of a split contains a comma. |
| `FileDropzone.SplitJoin` | components/FileDropzone.tsx:32 | Joining the segments with commas gives back the original string. |
| `FileDropzone.DataUrlPayload` | components/FileDropzone.tsx:30-32 | Segment 1 is absent exactly when the data URL has no comma. Otherwise it is the comma-free text right after the first comma, ending at the next comma or at the end. |
| `FileDropzone.PayloadIsSecondSegment` | components/FileDropzone.tsx:32 | The payload is segment 1 of splitting the data URL on commas, and it is absent exactly when the split has a single segment. |
| `FileDropzone.DataUrlRoundTrip` | components/FileDropzone.tsx:29-32 | For `data:<type>;base64,<data>` with a comma-free type and data, the stripped payload is exactly the data. |
| `FileDropzone.ProcessFile` | components/FileDropzone.tsx:22-42 | A file is refused exactly when its type does not start with "audio/". An accepted file keeps its name and type unchanged. Its URL is the file's object URL, and its base64 is segment 1 of the reader's data URL. |
| `FileDropzone.FirstFile` | components/FileDropzone.tsx:49-50 | There is a first file exactly when the list is present and non-empty, and it is element 0. |
| `FileDropzone.SelectFile` | components/FileDropzone.tsx:54-58 | A file is emitted exactly when the selection has a first file of an audio type, and it is what processing that first file gives. |
| `FileDropzone.TextFileRefused` | components/FileDropzone.tsx:23-26 | A "text/plain" file named like an MP3 is refused. |
| `FileDropzone.Dropzone.constructor` | components/FileDropzone.tsx:9-10 | A new zone is not dragging and keeps the `disabled` it was given. |
| `FileDropzone.Dropzone.HandleDragOver` | components/FileDropzone.tsx:12-15 | A drag-over sets `isDragging` only when the zone is not disabled, and otherwise leaves it unchanged. |
| `FileDropzone.Dropzone.HandleDragLeave` | components/FileDropzone.tsx:17-20 | After a drag-leave the zone is not dragging. |
| `FileDropzone.Dropzone.HandleDrop` | components/FileDropzone.tsx:44-52 | After any drop the zone is not dragging. A disabled zone emits nothing. An enabled zone emits what the selection of the dropped files gives. |
| `FileDropzone.Dropzone.HandleInputChange` | components/FileDropzone.tsx:54-58 | The picker emits a file exactly when its first file is audio. That file keeps its name and type, and its payload is segment 1 of the data URL. The handler does not consult `disabled`. It emits exactly what `SelectFile` gives for the selection. |
| `Controller.App.constructor` | App.tsx:8-14 | The page starts idle, with no input, no result, an empty message and nothing playing. |
| `Controller.App.HandleFileSelected` | App.tsx:19-23 | The input becomes the file, the state becomes Ready, and the result is cleared. The error message and playing flags are untouched, and the invariant holds afterwards. |
| `Controller.App.RemixActionOffered` | App.tsx:168-185 | When the remix button is shown, there is an input to send, no result, and no download link. In every reachable state the button is shown exactly when the page is Ready without a result. |
| `Controller.App.BeginRemix` | App.tsx:25-29 | Without an input nothing changes and nothing is sent. With an input, the state becomes Processing, the message becomes empty, and the input is what is sent. The input and result are kept. |
| `Controller.App.CompleteRemix` | App.tsx:31-39 | On success the result is stored and the state is Ready. On failure the state is Error with the fixed localized message and no result. The input is kept either way. |
| `Controller.App.HandleStartRemix` | App.tsx:25-40 | Without an input nothing changes and no request is made. Otherwise the remix client runs on the input's base64 and type, and the requests made are its requests. Success stores its result with state Ready and an empty message. Failure gives Error with the fixed message. The input and playing flags are kept, and the invariant holds afterwards. |
| `Controller.App.Reset` | App.tsx:42-48 | The input and result are cleared, the state is Idle, and both playing flags are false. The error message is left as it was. |
| `Controller.App.OnInputAudioEvent` | App.tsx:55-64 | A play event sets `isPlayingInput`. Pause and ended events clear it. Nothing else changes. |
| `Controller.App.OnRemixAudioEvent` | App.tsx:57-69 | A play event sets `isPlayingRemix`. Pause and ended events clear it. Nothing else changes. |
| `Controller.App.DownloadName` | App.tsx:238-240 | A download name exists exactly when the page is Ready with an input and a result. The name is "remix-" followed by the input's name. |
| `Controller.ResultIsDownloadable` | App.tsx:168-240 | In every reachable state a stored result comes with its download link. The remix action and the download link are never offered together. |

## Left out

- The remote generative service and its SDK are not modelled. Their answers are the `Reply` inputs. The prompt texts are not recorded in the requests. Model identifiers and voice names are opaque constants.
- The fallback's synthesis reply is a fixed input. The model does not make it depend on the text that was sent.
- `Response.text` is the SDK's derived text of a response. It is taken as given, not computed from the parts.
- `window.atob` is not modelled. `Base64ToBlob` starts from the string it returns. `atob` throwing on malformed base64 is therefore not modelled. In the source that error would be rethrown like any other.
- `URL.createObjectURL`, `Blob` and `FileReader` are browser primitives. Object URLs are the `ObjectUrl` values described above, and they are never revoked, as in the source.
- `FileDropzone.ProcessFile`: for an audio file, the reader's data URL is required to contain a comma, which `readAsDataURL` always produces. Without one, the source would emit `base64: undefined`. The source has no read-error handler, so a failed read emits nothing, and that path is not modelled.
- `Controller.App.HandleStartRemix` requires that there is no result yet. The only caller is the button, which is rendered only in that case (App.tsx:185). Without this, a failure after an earlier success would leave a stale result in the Error state.
- `GeminiService.FallbackDescription` counts characters as Unicode scalar values. JavaScript's `substring(0, 50)` counts UTF-16 code units, so the two differ for text outside the Basic Multilingual Plane.
- Async scheduling, React batching and stale closures are not modelled. Each handler runs to completion in order.
- The "Mix" button's `currentTime` and `play()` calls are not modelled. Their only effect on the state is the play events modelled by the listeners.
- Listener registration and cleanup are not modelled.
- All JSX rendering, styling, `alert` and `console` output are not modelled, except the two render guards above.
- components/MusicVisualizer.tsx is not part of this model. It is a cosmetic animation driven by random numbers.
