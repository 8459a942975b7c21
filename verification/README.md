# VoiceInk transcription core, modelled in Dafny

This project models the sequential core of VoiceInk, a macOS dictation app, as pure Dafny functions and proves properties about them:

- **Custom cloud-model registry** (`custom_models.dfy`, module `CustomModels`). This is the ordered list of user-defined OpenAI-compatible endpoints, with add, remove and update. It also covers the field validation (`validateModel`, both overloads) that runs before a configuration is saved. Its findings are reported in a fixed check order.
- **Cloud error diagnostics** (`cloud_errors.dfy`, module `CloudErrors`). `formatCloudError` maps each `CloudTranscriptionError` to the text shown after an endpoint test. A reader recovers from any such text everything it shows: the status code and server response of an HTTP failure, the description of an unrecognised network failure, and which fixed case it is otherwise.
- **Silent WAV writer** (`silent_wav.dfy`, module `SilentWav`). `createSilentWAVData` produces the canonical 44-byte RIFF/WAVE header for mono 16-bit PCM, followed by zeros. A header reader gets every field back.
- **Local Parakeet engine** (`parakeet.dfy`, module `Parakeet`):
  - `readAudioSamples` skips the 44-byte header and turns each little-endian `Int16` into `max(-1, min(v / 32767, 1))`;
  - the `loadModel` / `transcribe` / clean-up lifecycle, with the FluidAudio download, initialisation and inference passed in as a `Backend` of functions.
- **WAV round trip** (`wav_round_trip.dfy`). The silent file, decoded by the engine, gives back that many zero samples.
- **Dashboard metrics** (`metrics.dfy`, module `Metrics`): word counts by `split(separator: " ")`, total words, total recorded time, typing time at 35 words per minute, and the two averages.
- **Power Mode switch** (`power_mode.dfy`, module `PowerMode`). The `toggleBinding` getter and setter, and `noneEnabled`.

Shared modules:

- `Results`: `Option`, `Result`, `Outcome`.
- `Bytes`: bytes and little-endian `UInt16`/`UInt32` layouts.
- `Text`: the `whitespacesAndNewlines` set, trimming, and Swift's decimal rendering of `Int` with a reader for it.

What the Swift code does and does not do:

- **No voice-activity segmentation.** `transcribe` passes the whole decoded buffer to inference.
- **Two lifecycle fields.** The lifecycle is just `asrManager` (present or not) and `isModelLoaded`. A failed load leaves `(nil, false)`. The clean-up unloads the model but keeps the manager. Errors from FluidAudio, during loading or inference, are rethrown unchanged.
- **`notInitialized` from the service itself.** The service throws it only when the manager is still absent after the load step. `Parakeet.NewEngineGuardNeverFires` shows that this state is never reached from a new service. FluidAudio may still throw its own `notInitialized`, which passes through.
- **Unclassified status codes.** Statuses other than 401, 403, 404, 422 and ≥ 500 get no hint at all.
- **Adding without validation.** `addCustomModel` does not validate. Name uniqueness holds only when callers validate first; `CustomModels.AddValidatedKeepsNamesUnique` and `CustomModels.UpdateValidatedKeepsNamesUnique` state when it does.
- **Any silent WAV size.** `createSilentWAVData` takes the sample rate and frame count as arguments.

## Model

| member | source | states |
|---|---|---|
| CustomModels.AddCustomModel | VoiceInk/Services/CloudTranscription/CustomModelManager.swift:19-23 | the new list is the old list, unchanged, followed by the added model; nothing is validated |
| CustomModels.RemoveCustomModel | VoiceInk/Services/CloudTranscription/CustomModelManager.swift:25-29 | a model is kept exactly when its id differs from the removed id; the survivors keep their relative order (subsequence), and exactly as many models are dropped as carry the id |
| CustomModels.RemoveIdempotent | VoiceInk/Services/CloudTranscription/CustomModelManager.swift:25-29 | removing the same id twice is the same as removing it once |
| CustomModels.RemoveAbsentIsIdentity | VoiceInk/Services/CloudTranscription/CustomModelManager.swift:25-29 | removing an id no model has leaves the list as it was |
| CustomModels.RemoveDistributes | VoiceInk/Services/CloudTranscription/CustomModelManager.swift:25-29 | removal works element by element: it distributes over concatenation |
| CustomModels.RemoveUndoesAdd | VoiceInk/Services/CloudTranscription/CustomModelManager.swift:19-29 | adding a model with a new id and then removing that id restores the list |
| CustomModels.FirstIndexOf | VoiceInk/Services/CloudTranscription/CustomModelManager.swift:32 | `firstIndex(where:)`: none iff no model has the id, otherwise the smallest index holding it |
| CustomModels.UpdateCustomModel | VoiceInk/Services/CloudTranscription/CustomModelManager.swift:31-37 | length and the id at every position are preserved; only the first model with the id is replaced; a no-op when the id is absent |
| CustomModels.UpdateIdempotent | VoiceInk/Services/CloudTranscription/CustomModelManager.swift:31-37 | applying the same update twice equals applying it once |
| CustomModels.Findings | VoiceInk/Services/CloudTranscription/CustomModelManager.swift:66-97 | each finding is present iff its check fails; "cannot be empty" and "must be a valid URL" for the endpoint exclude each other; findings come in check order |
| CustomModels.FindingsShape | VoiceInk/Services/CloudTranscription/CustomModelManager.swift:66-97 | a list in check order that never holds both endpoint findings repeats nothing and has at most six entries |
| CustomModels.IsValidUrl | VoiceInk/Services/CloudTranscription/CustomModelManager.swift:132-137 | an endpoint is valid iff `URL(string:)` parses it and the URL has both a scheme and a host |
| CustomModels.ValidateModel | VoiceInk/Services/CloudTranscription/CustomModelManager.swift:66-97 | each message appears iff its field is blank after trimming. The URL message appears iff the endpoint is not blank and the parse fails or lacks a scheme or a host. The duplicate message appears iff some stored name equals the untrimmed name. Messages come in check order, each at most once, at most six |
| CustomModels.ValidateModelExcluding | VoiceInk/Services/CloudTranscription/CustomModelManager.swift:99-130 | as the five-argument overload, except that the duplicate check ignores stored models whose id equals `excludingId` |
| CustomModels.ExcludingNothingAgrees | VoiceInk/Services/CloudTranscription/CustomModelManager.swift:124-127 | with `excludingId == nil` both overloads return the same list |
| CustomModels.ValidateModelEmptyIff | VoiceInk/Services/CloudTranscription/CustomModelManager.swift:66-97 | validation returns no message exactly when every field is non-blank, the URL has scheme and host, and no stored name is equal |
| CustomModels.MessageInjective | VoiceInk/Services/CloudTranscription/CustomModelManager.swift:70-93 | different findings have different message texts |
| CustomModels.MessagesDistinct | VoiceInk/Services/CloudTranscription/CustomModelManager.swift:66-97 | findings without repeats give message strings without repeats |
| CustomModels.ValidationMessages | VoiceInk/Services/CloudTranscription/CustomModelManager.swift:66-97 | the returned `[String]` holds each message at most once, at most six, and is empty iff every check passes |
| CustomModels.AddValidatedKeepsNamesUnique | VoiceInk/Services/CloudTranscription/CustomModelManager.swift:91-94 | adding a model that passed validation keeps the stored names pairwise distinct |
| CustomModels.UpdateValidatedKeepsNamesUnique | VoiceInk/Services/CloudTranscription/CustomModelManager.swift:124-127 | updating with a model that passed validation excluding its own id keeps names, and ids, pairwise distinct |
| Text.Trim | VoiceInk/Services/CloudTranscription/CustomModelManager.swift:69 | `trimmingCharacters(in: .whitespacesAndNewlines)` is never longer than its input, and it is empty exactly when every character is whitespace |
| Text.TrimKeepsCore | VoiceInk/Services/CloudTranscription/CustomModelManager.swift:69 | what trimming keeps is an infix that neither starts nor ends with whitespace, and only whitespace is cut off on either side |
| Text.TrimIdempotent | VoiceInk/Services/CloudTranscription/CustomModelManager.swift:69 | trimming a trimmed string changes nothing |
| Text.DecimalRoundTrip | VoiceInk/Services/CloudTranscription/CustomModelManager.swift:180 | the decimal text of any `Int`, negative ones included, reads back as that number |
| CloudErrors.StatusHint | VoiceInk/Services/CloudTranscription/CustomModelManager.swift:181-191 | 401 gets the authentication hint, 403 the permission hint, 404 the endpoint hint, 422 the model-and-parameters hint, and every code ≥ 500 the server hint. Every other code gets no hint. A hint starts with a space |
| CloudErrors.HintsDistinct | VoiceInk/Services/CloudTranscription/CustomModelManager.swift:181-191 | the five hints are pairwise different, so the hint tells which kind of status came back |
| CloudErrors.ResponseSuffix | VoiceInk/Services/CloudTranscription/CustomModelManager.swift:193-195 | the server-response line is added iff the response is non-empty, and it starts with a line break |
| CloudErrors.NetworkMessage | VoiceInk/Services/CloudTranscription/CustomModelManager.swift:198-213 | a network failure whose `URLError` code is not one of the four recognised ones gives "Network error: " followed by the wrapped error's description, and only such failures start that way |
| CloudErrors.FormatCloudError | VoiceInk/Services/CloudTranscription/CustomModelManager.swift:177-242 | every diagnostic is non-empty. It starts with "HTTP " exactly for `apiRequestFailed`, and with "Network error: " exactly for an unrecognised network failure |
| CloudErrors.CloudErrorRoundTrip | VoiceInk/Services/CloudTranscription/CustomModelManager.swift:177-242 | every text reads back as what it shows of its error: status code and response, the wrapped description, or which of the four recognised `URLError` codes and nine fixed cases it is |
| CloudErrors.UrlAdviceRecognised | VoiceInk/Services/CloudTranscription/CustomModelManager.swift:200-207 | each of the four advices for a recognised `URLError` code reads back as that code |
| CloudErrors.ConstantTextRecognised | VoiceInk/Services/CloudTranscription/CustomModelManager.swift:215-240 | each of the nine fixed texts reads back as its own case, and never as a `URLError` advice |
| CloudErrors.FormatCloudErrorDistinguishes | VoiceInk/Services/CloudTranscription/CustomModelManager.swift:177-242 | two errors give the same text exactly when they agree on what the text shows. So the fixed texts are pairwise different, and the four recognised `URLError` codes give four different texts |
| CloudErrors.ShownKeepsText | VoiceInk/Services/CloudTranscription/CustomModelManager.swift:198-213 | the description of a recognised `URLError`, and whether an unrecognised cause was a `URLError` at all, do not affect the text |
| CloudErrors.HttpDiagnosticRoundTrip | VoiceInk/Services/CloudTranscription/CustomModelManager.swift:179-196 | "HTTP c", the hint for c, then the response line when m is non-empty: reading the text back yields exactly (c, m) |
| CloudErrors.ParseRecognisesOnlyHttp | VoiceInk/Services/CloudTranscription/CustomModelManager.swift:177-242 | only the HTTP case's text reads back as an HTTP diagnostic |
| CloudErrors.HttpDiagnosticInjective | VoiceInk/Services/CloudTranscription/CustomModelManager.swift:179-196 | different status codes or responses give different diagnostics |
| Bytes.LE32RoundTrip | VoiceInk/Services/CloudTranscription/CustomModelManager.swift:257 | a `UInt32` written little-endian reads back unchanged |
| SilentWav.CreateSilentWavData | VoiceInk/Services/CloudTranscription/CustomModelManager.swift:244-278 | the file is 44 + 2·frameCount bytes, so its payload has even length, and every byte after the header is zero |
| SilentWav.SerializedHeaderFields | VoiceInk/Services/CloudTranscription/CustomModelManager.swift:255-272 | the 44 header bytes read back as exactly the header that was written |
| SilentWav.HeaderRoundTrip | VoiceInk/Services/CloudTranscription/CustomModelManager.swift:255-274 | the 44-byte layout (RIFF, size, WAVE, fmt chunk, data chunk) puts every field where the reader finds it, whatever follows |
| SilentWav.SilentWavHeader | VoiceInk/Services/CloudTranscription/CustomModelManager.swift:244-278 | the header declares RIFF size 36 + 2n, fmt size 16, PCM, one channel, the sample rate, byte rate 2·rate, block align 2, 16 bits, and data size 2n |
| Parakeet.Int16Of | VoiceInk/Services/ParakeetTranscriptionService.swift:92 | the two bytes read as a signed 16-bit value, negative exactly when the high byte's top bit is set |
| Parakeet.Int16RoundTrip | VoiceInk/Services/ParakeetTranscriptionService.swift:92 | every `Int16` written little-endian is read back as itself |
| Parakeet.Sample | VoiceInk/Services/ParakeetTranscriptionService.swift:93 | the sample lies in [-1, 1]. −32768 gives −1; any other value v gives v / 32767. It is zero only for two zero bytes |
| Parakeet.DecodePcm16 | VoiceInk/Services/ParakeetTranscriptionService.swift:90-95 | one sample per byte pair, sample i built from bytes 2i (low) and 2i+1 (high) |
| Parakeet.ReadAudioSamples | VoiceInk/Services/ParakeetTranscriptionService.swift:81-101 | it fails iff the read failed or the file has at most 44 bytes, and the only error is `invalidAudioData`. Otherwise it yields (count − 44) / 2 samples, sample i from bytes 44+2i and 45+2i |
| Parakeet.NewEngine | VoiceInk/Services/ParakeetTranscriptionService.swift:16-18 | a new service has no manager and no loaded model |
| Parakeet.LoadModel | VoiceInk/Services/ParakeetTranscriptionService.swift:20-50 | a no-op when already loaded. Otherwise it succeeds iff download and initialisation succeed, leaving the model loaded with an initialised manager. On failure it leaves no manager and the model unloaded, and it rethrows exactly the error the failing download or initialisation threw |
| Parakeet.Cleanup | VoiceInk/Services/ParakeetTranscriptionService.swift:70-74 | after the clean-up the model is unloaded and the manager kept |
| Parakeet.Transcribe | VoiceInk/Services/ParakeetTranscriptionService.swift:52-79 | the state afterwards is the state after the load step. Clean-up is scheduled iff transcription succeeded. A failed load ends the call with the load's error. With no manager after loading, the call throws `notInitialized`. Otherwise an undecodable file gives `invalidAudioData`, and the result is exactly inference's result on the decoded samples, error or text. An odd-length payload is excluded only on calls that reach the file read |
| Parakeet.FailedLoadNeverReadsFile | VoiceInk/Services/ParakeetTranscriptionService.swift:52-61 | when the model is not loaded and loading fails, `transcribe` throws the load's error before reading the file, so every file is accepted, one with an odd-length payload included |
| Parakeet.Settle | VoiceInk/Services/ParakeetTranscriptionService.swift:70-74 | once the scheduled clean-up has run the model is unloaded; without one the state is unchanged |
| Parakeet.LoadModelKeepsValid | VoiceInk/Services/ParakeetTranscriptionService.swift:20-50 | loading keeps the invariant "loaded implies a manager" |
| Parakeet.TranscribeKeepsValid | VoiceInk/Services/ParakeetTranscriptionService.swift:53-59 | from a valid state the service's own `notInitialized` guard never fires, so a `notInitialized` result was thrown by FluidAudio, either by the load step of this call or by inference; the state after the call and its clean-up is valid |
| Parakeet.GuardFiresIff | VoiceInk/Services/ParakeetTranscriptionService.swift:53-59 | the guard fires exactly in the state "loaded but without a manager", which no load step repairs |
| Parakeet.TranscribeSucceedsIff | VoiceInk/Services/ParakeetTranscriptionService.swift:52-79 | from a valid state, transcription succeeds iff the model is or becomes loaded, the file decodes, and inference succeeds |
| Parakeet.RunKeepsValid | VoiceInk/Services/ParakeetTranscriptionService.swift:20-79 | any sequence of loads and transcriptions, each followed by its clean-up and each answered by FluidAudio in its own way, keeps the invariant |
| Parakeet.NewEngineGuardNeverFires | VoiceInk/Services/ParakeetTranscriptionService.swift:57-59 | after any history starting from a new service, whatever FluidAudio answered along the way and answers next, `transcribe`'s own guard never throws `notInitialized` |
| Parakeet.EvenPayloadsRunSafely | VoiceInk/Services/ParakeetTranscriptionService.swift:90-92 | a history whose files all have a header-only or even-length payload never reaches the trapping slice, in any state and with any answers from FluidAudio |
| Parakeet.RetryAfterFailedDownload | VoiceInk/Services/ParakeetTranscriptionService.swift:43-66 | after a download that fails, the service is back in its initial state, and a later load that succeeds leaves the model loaded; a transcription then reaches inference with the decoded file |
| WavRoundTrip.SilentWavDecodesToSilence | VoiceInk/Services/ParakeetTranscriptionService.swift:86-95 | the silent file for n ≥ 1 frames decodes to exactly n samples, all zero |
| WavRoundTrip.EmptySilentWavIsRejected | VoiceInk/Services/ParakeetTranscriptionService.swift:86-88 | the silent file for zero frames is only a header and decodes to `invalidAudioData` |
| Metrics.Split | VoiceInk/Views/Metrics/MetricsContent.swift:119 | every piece of `split(separator: " ")` is non-empty and has no space |
| Metrics.WordCountIsWordEnds | VoiceInk/Views/Metrics/MetricsContent.swift:119 | the number of pieces equals the number of maximal runs of non-space characters (counted where a run ends) |
| Metrics.SplitKeepsCharacters | VoiceInk/Views/Metrics/MetricsContent.swift:119 | the pieces, joined, are the text with its spaces removed |
| Metrics.WordCountZeroIffBlank | VoiceInk/Views/Metrics/MetricsContent.swift:119 | a text has zero words iff it is empty or all spaces |
| Metrics.SplitAcrossSpace | VoiceInk/Views/Metrics/MetricsContent.swift:119 | the words of a + " " + b are the words of a followed by those of b |
| Metrics.ExtraSpacesDoNotCount | VoiceInk/Views/Metrics/MetricsContent.swift:119 | leading, trailing and doubled spaces do not change the word count |
| Metrics.TotalWordsTranscribed | VoiceInk/Views/Metrics/MetricsContent.swift:118-120 | the left fold `reduce(0)` equals the plain sum of the per-transcription word counts; zero for no transcriptions |
| Metrics.TotalWordsAdditive | VoiceInk/Views/Metrics/MetricsContent.swift:118-120 | the total over a concatenation is the sum of the totals |
| Metrics.TotalWordsOfOne | VoiceInk/Views/Metrics/MetricsContent.swift:118-120 | the total for one transcription is its word count |
| Metrics.TotalRecordedTime | VoiceInk/Views/Metrics/MetricsContent.swift:122-124 | the left fold `reduce(0)` equals the plain sum of the durations; zero seconds for no transcriptions |
| Metrics.TotalRecordedTimeAdditive | VoiceInk/Views/Metrics/MetricsContent.swift:122-124 | the recorded time over a concatenation is the sum of the times |
| Metrics.EstimatedTypingTime | VoiceInk/Views/Metrics/MetricsContent.swift:126-131 | 12/7 seconds per word (35 words per minute), never negative |
| Metrics.TypingTimeMonotone | VoiceInk/Views/Metrics/MetricsContent.swift:126-131 | more words never give a shorter typing time |
| Metrics.TypingTimeAdditive | VoiceInk/Views/Metrics/MetricsContent.swift:126-131 | the typing time over a concatenation is the sum of the typing times |
| Metrics.AverageWordsPerMinute | VoiceInk/Views/Metrics/MetricsContent.swift:150-153 | zero when the recorded time is not positive; otherwise words per minute, i.e. rate × seconds = 60 × words |
| Metrics.AverageWordsPerSession | VoiceInk/Views/Metrics/MetricsContent.swift:155-158 | zero for no transcriptions; otherwise average × count = total words |
| PowerMode.NoneEnabledIff | VoiceInk/Views/Settings/PowerModeSettingsSection.swift:58-61 | `noneEnabled` holds iff no configuration is enabled, vacuously for none |
| PowerMode.ToggleSet | VoiceInk/Views/Settings/PowerModeSettingsSection.swift:44-52 | turning on sets the flag and nothing else. Turning off with every configuration disabled clears the flag. Turning off with one enabled keeps the flag and raises the alert |
| PowerMode.GetAfterSet | VoiceInk/Views/Settings/PowerModeSettingsSection.swift:41-53 | the getter reads back the requested value, unless the request was "off" while a configuration is enabled, in which case the flag is unchanged and the alert is up |
| PowerMode.SetIdempotent | VoiceInk/Views/Settings/PowerModeSettingsSection.swift:44-52 | repeating the same request changes nothing further |
| PowerMode.StaysOnWhileEnabled | VoiceInk/Views/Settings/PowerModeSettingsSection.swift:44-52 | while any configuration is enabled, no sequence of requests turns Power Mode off |
| PowerMode.FollowsRequestsWhenNoneEnabled | VoiceInk/Views/Settings/PowerModeSettingsSection.swift:44-52 | with every configuration disabled, the switch ends on the last request and never raises the alert |

## Left out

- Persistence (`loadCustomModels`, `saveCustomModels`, UserDefaults and JSON) and logging are not modelled. They are storage and side effects around the list operations.
- `testEndpoint` is not modelled: it does temporary-file I/O and a network call through a transcription service that is not part of this model. Only the two pure helpers it uses, `formatCloudError` and `createSilentWAVData`, are.
- `URL(string:)` is a parameter `parse: string -> Option<UrlParts>`. `isValidURL` is modelled exactly on top of it, as `IsValidUrl`.
- Trimming removes Unicode scalars of the `whitespacesAndNewlines` set, written out, from both ends; `trimmingCharacters(in:)` also works scalar by scalar. `split(separator: " ")` splits a Swift `String` into grapheme clusters, and the model splits on scalars. A space followed by a combining mark is one cluster that is not a space, and the model treats it differently.
- CustomModels.ValidateModel: the duplicate-name check compares names scalar by scalar, while Swift's `String ==` compares by canonical equivalence. So "Caf\u{E9}" and "Cafe\u{301}" count as duplicates in Swift but not in the model, because Unicode normalisation is not modelled.
- CustomModels.ValidateModelExcluding: the same scalar-by-scalar name comparison as in `ValidateModel`.
- Parakeet.Transcribe: errors from FluidAudio pass through unchanged and may be any `ASRError`. So the model does not promise that `invalidAudioData` comes only from decoding, nor that a load error differs from the service's own errors. Instead it states which step each result comes from.
- The Swift declaration of `CloudTranscriptionError` is not part of this model; the datatype has exactly the cases `formatCloudError` switches over. A wrapped error's `localizedDescription` is a plain string field.
- FluidAudio (`AsrManager`, `AsrModels.downloadAndLoad`, `initialize`, `transcribe`, `cleanup`) is a `Backend` of functions. Model download, inference and the manager's internal decoder state are not modelled.
- Parakeet.Cleanup: the clean-up `Task` is fire-and-forget and races with the next call. The model runs it as a separate step after the call returns (`Settle`, `Run`), so interleavings where it runs after a later load are not covered.
- Parakeet.Sample: `Float(short) / 32767.0` is exact real division, so IEEE single-precision rounding is not modelled.
- Parakeet.ReadAudioSamples: a payload of odd length makes the last two-byte slice run past the end of the `Data`, which traps. The model states even length as a precondition rather than modelling the trap. `Transcribe` and `Run` demand it only of calls that reach the file read.
- SilentWav.CreateSilentWavData: the `UInt32(...)` conversions and the `UInt32` addition `36 + dataSize` trap when out of range. The model requires the arguments to keep every field within 32 bits rather than modelling the trap.
- Logging in `loadModel`, `transcribe` and the clean-up is not modelled.
- `dailyTranscriptionCounts` depends on `Calendar.current` and `Date()`.
- Durations are exact reals; `TimeInterval` rounding is not modelled.
- The SwiftUI views around the metrics and the Power Mode switch are not modelled, and neither is the alert's presentation. `showDisableAlert` is a plain flag.
