# Tamil–English medical transcription: recording controller and transcription proxy

The system is a small web application with two parts. A browser page records a spoken
consultation while a button is held and uploads it. A Node.js proxy forwards the upload to a
transcription webhook and returns English and Tamil transcripts. This project models and
proves two parts of it:

- **The page's recording controller** (`public/script.js`), as the class
  `Recording.Controller`.
  - Its fields are the page's module-level variables: the stream, the recorder and its
    state, the chunk buffer, `startTime`, the timer interval.
  - It also holds the page elements the code writes: the screens, the patient-id input and
    label, the timer display, the status indicator and the two transcript panes.
  - Every browser callback is a method the environment calls once that callback has been
    scheduled: the microphone answer, the stopped recorder's task, the interval tick, the
    upload's completion or failure, and the 3-second revert. Counters in the class record
    what is scheduled. A recorder is started without a timeslice, and `stop()` queues one
    task that delivers its one chunk (`ondataavailable`) and then fires `onstop`, so the
    two handlers run back to back as one event, `OnRecorderStopped`.
  - Every method states its whole new state as an update of `Snapshot()`. Each event
    method (the ones the browser or the user triggers) keeps `Valid()`: the interval runs
    exactly while a recorder records, a recorder exists only once a stream is held, and a held
    stream means the status has left idle.
    The small helpers those event methods call (`SetRecordingStatus`, `UpdateTimer`,
    `InitAudio` and the like) only state their update.
- **The pure parts of the page.**
  - The timer text (`Timer.FormatTimer`), built from models of JavaScript's `String(n)`,
    `padStart`, floored division and truncated `%`.
  - The status labels and the transcript texts chosen after an upload (`Display`).
  - How the page reads a field of the parsed body (`Json.FieldText`): JavaScript
    truthiness for `||`, and `String(v)` for what `textContent` and `new Error` show.
  - `String.prototype.trim` (`JsText.Trim`), with the JavaScript white-space set.
- **The `/api/transcribe` handler** (`server.js`), as the pure function
  `Proxy.Transcribe`. Its inputs are the parsed upload, the webhook URL and the webhook
  call's outcome. It returns the status, the JSON body and the one outbound call, if any.
- **The round trip** (`Pipeline`): what the page sends, what the proxy answers, and what
  the page then shows.

The controller is modelled as the code behaves, including these behaviours:

- No code path sets the idle status.
- A press is refused only when a recorder is recording or no stream is held. The status is
  not consulted, so a recording need not begin from "ready": a new one can start while an
  earlier upload is still processing (`Scenarios.StartWhileUploading`).
- The 3-second revert to "ready" is unconditional, even during a newer recording
  (`Scenarios.RevertDuringRecording`).
- Logging out stops the tracks but keeps the stream. After logging back in, a press made
  before the new microphone answer passes the guards, empties the buffer and replaces the
  recorder, but starting the new recorder throws, so nothing records and the clock and the
  status stay as they were. The old recorder's task, if still due, then puts its chunk in
  the emptied buffer and uploads it whole (`Scenarios.PressAfterLogout`).
- The chunk buffer is kept after the upload. It is emptied only when the next press comes
  (`Scenarios.BufferKeptAfterDone`).
- `ondataavailable` appends to whatever buffer is current. When a press comes between a
  release and the old recorder's task, the old recording lands in the new buffer: its own
  upload is still whole, but the next upload sends it in front of the new recording
  (`Scenarios.LateChunkCrossesRecordings`).
- The uploaded patient id is read from the input when the recorder stops, not when the
  session started (`Scenarios.IdReadAtUpload`).
- A transcript field that is truthy but converts to "" (an empty array) leaves its pane
  blank under "done" (`Pipeline.EmptyArrayLeavesPaneBlank`). A field that is an object with
  its own `toString` member cannot be converted, so the page throws and shows the error
  status instead (`Pipeline.UnconvertibleTranscriptThrows`).
- Before the start time the timer shows negative fields ("-1:-1"), because JavaScript's `%`
  keeps the dividend's sign.

## Model

| member | source | states |
|---|---|---|
| Recording.Controller.constructor | public/script.js:19-28 | The page starts on the login screen with no stream, no recorder, an empty buffer, nothing scheduled and the idle status, and the invariant holds. |
| Recording.Controller.EnterPatientId | public/script.js:7 | Typing replaces the patient-id input and changes nothing else. |
| Recording.Controller.ShowScreen | public/script.js:35-36 | Switching screens changes only which screen is shown. |
| Recording.Controller.Login | public/script.js:31-41 | A session starts exactly when the input is not blank. It then shows the dashboard with the trimmed id and issues one microphone request. Otherwise nothing changes. |
| Recording.Controller.InitAudio | public/script.js:37 | `initAudio` issues exactly one microphone request. |
| Recording.Controller.OnMicrophoneResult | public/script.js:50-65 | A granted request holds a stream with live tracks and sets the status to ready. A refused one changes nothing but the pending count. |
| Recording.Controller.Logout | public/script.js:43-47 | Logout shows the login screen and stops the tracks. Everything else is unchanged, the held stream included. |
| Recording.Controller.StopAudio | public/script.js:67-74 | `stopAudio` stops the tracks and keeps the stream. |
| Recording.Controller.StartRecording | public/script.js:86-107 | Nothing changes while a recorder records or when no stream is held. With stopped tracks, the buffer is emptied and an inactive recorder replaces the old one, and nothing else changes. Otherwise the buffer is emptied, a recorder records, the start time is now, the display reads the time since then and the interval runs. The status becomes recording whatever it was. |
| Recording.Controller.StartTimer | public/script.js:100-102 | The start time is now, the display is updated at once and the interval is scheduled. |
| Recording.Controller.StopRecording | public/script.js:109-120 | Nothing changes unless a recorder records. Otherwise the recorder stops, its task (data, then stop) becomes due, the interval stops and the status is processing. |
| Recording.Controller.StopRecorder | public/script.js:112 | `mediaRecorder.stop()` leaves the recorder inactive with its one task (data, then stop) due. |
| Recording.Controller.UpdateTimer | public/script.js:122-127 | The timer display shows `FormatTimer(now, startTime)` and nothing else changes. |
| Recording.Controller.OnTimerTick | public/script.js:102 | An interval tick, possible only while the interval runs, updates the display and nothing else. |
| Recording.Controller.SetRecordingStatus | public/script.js:129-138 | The status indicator takes the given status and nothing else changes. |
| Recording.Controller.OnRecorderStopped | public/script.js:93-97 | A stopped recorder's task appends its one chunk to the buffer as it is now and at once sends `UploadRequest` of that buffer, chunk included, with the input as it reads now. Earlier chunks keep their place and order, one upload more is in flight, one task less is due, and nothing else changes. |
| Recording.Controller.OnDataAvailable | public/script.js:93-95 | The chunk is appended at the end of the buffer; earlier chunks keep their place and order, and nothing else changes. |
| Recording.Controller.SendAudioToServer | public/script.js:140-154 | `sendAudioToServer` sends exactly `UploadRequest(buffer, input)` for the buffer and input as they are at that moment, and the upload is now in flight. |
| Recording.Controller.ShowTranscripts | public/script.js:159-160 | The two transcript panes take the given texts and nothing else changes. |
| Recording.Controller.Show | public/script.js:156-176 | An upload's outcome replaces both panes and the status. The upload is no longer in flight and one more revert to ready is due. |
| Recording.Controller.ScheduleRevert | public/script.js:164 | The 3-second timeout adds one due revert. |
| Recording.Controller.OnUploadResponse | public/script.js:156-167 | The status is done exactly when `ok`, else error. A pane is blank exactly when `ok` and its field's text is "". The panes show `OnResponse`. |
| Recording.Controller.OnUploadError | public/script.js:168-173 | A thrown error shows "Error: " and "பிழை: " followed by its message, with the error status. |
| Recording.Controller.RevertToReady | public/script.js:164 | The timeout sets the status to ready whatever it is, and nothing else changes. |
| Recording.Concat | public/script.js:141 | The bytes of the blob, characterised by `Recording.ConcatAppend`. |
| Recording.ConcatAppend | public/script.js:94 | The blob of a longer chunk list is the blob of the earlier chunks followed by the new ones, so appending never disturbs bytes already buffered. |
| Recording.UploadRequest | public/script.js:141-144 | The upload carries the buffer's bytes in order, named exactly `recording.wav` and of type `audio/wav`, with the trimmed input as patient id. |
| Timer.Elapsed | public/script.js:123 | The elapsed seconds are the floor of the elapsed milliseconds over 1000. |
| Timer.JsRemainder60 | public/script.js:125 | `e % 60` lies in 0..59 for a non-negative `e`, in -59..0 otherwise, and differs from `e` by a multiple of 60. |
| Timer.MinutesField | public/script.js:124 | The minutes text, characterised by `Timer.PaddedField` applied to `e / 60`. |
| Timer.SecondsField | public/script.js:125 | The seconds text, characterised by `Timer.SecondsFieldShape`. |
| Timer.FormatTimer | public/script.js:122-127 | The timer text, characterised by `Timer.FormatTimerReadsBack`, `Timer.FormatTimerAtStart` and `Timer.FormatTimerBeforeStart`. |
| Timer.FormatTimerReadsBack | public/script.js:122-127 | Once the clock is not before the start, the display has two or more minute digits, a colon and two second digits. Seconds are below 60 and minutes * 60 + seconds equals the elapsed seconds. |
| Timer.PaddedField | public/script.js:124 | A padded field of a natural number is at least two digits long and still denotes that number. |
| Timer.SecondsFieldShape | public/script.js:125 | The seconds field of a non-negative elapsed time is exactly two digits and denotes `e % 60`. |
| Timer.FormatTimerAtStart | public/script.js:100-101 | The display reads "00:00" at the instant a recording starts. |
| Timer.ElapsedMonotone | public/script.js:123 | Within a recording the elapsed seconds never decrease as the clock advances. |
| Timer.FormatTimerBeforeStart | public/script.js:123-126 | With the clock one second before the start, the display reads "-1:-1". |
| Display.StatusLabel | public/script.js:129-138 | Every status that `setRecordingStatus` handles gets a non-empty label. Idle has none. |
| Display.StatusLabelInjective | public/script.js:131-137 | No two statuses share a label. |
| Display.Or | public/script.js:159-160 | `v \|\| d` on a field already read, characterised by `Display.OnResponse` and `Display.PaneBlankOnlyForEmptyText`. |
| Display.OnThrown | public/script.js:168-172 | The catch branch shows each prefix followed by the message, which can be cut back out of either pane, with the error status. |
| Display.OnResponse | public/script.js:156-167 | For `ok`, each pane shows its field's text, or its fixed notice when the field is falsy, and the status is done. Otherwise the text of `data.error`, or "Transcription failed" when it is falsy, is shown as a thrown error. |
| Display.PaneBlankOnlyForEmptyText | public/script.js:156-173 | A pane is blank exactly when a successful response carries a truthy field whose text is "". Thrown errors fill both panes, and the status is always done or error. |
| Display.FailedResponseIsThrown | public/script.js:165-167 | A non-ok response looks on screen exactly like a thrown error carrying the chosen message. |
| JsText.IsSpace | public/script.js:32 | The characters `trim` removes: the ECMAScript WhiteSpace and LineTerminator code points. It decides `Login` through `JsText.TrimEmptyIffBlank`. |
| JsText.LeadingSpacesSpec | public/script.js:32 | The leading count covers only white space and stops at the first non-space character. |
| JsText.TrailingSpacesSpec | public/script.js:32 | The trailing count covers only white space and stops at the last non-space character. |
| JsText.Trim | public/script.js:32 | `trim`, characterised by `JsText.TrimIsSlice`, `JsText.TrimEnds`, `JsText.TrimEmptyIffBlank`, `JsText.TrimKeepsTrimmed` and `JsText.TrimIdempotent`. |
| JsText.TrimIsSlice | public/script.js:32 | `trim` keeps a slice of the input that starts at its first non-space character and is followed only by white space. |
| JsText.TrimEnds | public/script.js:32 | A non-empty trimmed string neither starts nor ends with white space. |
| JsText.TrimKeepsTrimmed | public/script.js:32 | A string that neither starts nor ends with white space is its own trim. |
| JsText.TrimEmptyIffBlank | public/script.js:32-33 | The trimmed id is empty exactly when the input is blank. |
| JsText.TrimIdempotent | public/script.js:32 | Trimming twice removes nothing more than trimming once. |
| JsText.Digits | public/script.js:124-125 | `String(n)` of a natural number is one or more decimal digits, with no leading zero except for 0 itself. |
| JsText.IntToString | public/script.js:124-125 | `String(i)` for an integer: a minus sign for a negative one, then `JsText.Digits` of its magnitude, which `JsText.ParseDigitsOfDigits` reads back. |
| JsText.ParseDigitsOfDigits | public/script.js:124-125 | Reading back the digits of `n` gives `n`. |
| JsText.PadStart | public/script.js:124-125 | The padded text is as long as the width, or as the text when that is longer. |
| JsText.PadStartSpec | public/script.js:124-125 | The padded text ends with the original text and every character before it is the fill. |
| JsText.ParseLeadingZeros | public/script.js:124-125 | Leading zeros do not change the number a digit string denotes. |
| JsText.Join | public/script.js:159-160 | `Array.prototype.join`, characterised by `JsText.JoinEmptyIff`. |
| Json.ElementText | public/script.js:159-160 | An array element inside `join`: `null` becomes "", every other value its `String` text; used by `Json.TruthyTextEmptyIff`. |
| JsText.JoinEmptyIff | public/script.js:159-160 | An array's `join(",")` text is empty exactly when it has no element, or one that converts to "". |
| Wrappers.Truthy | server.js:30 | A configured string is truthy when present and non-empty, as `!n8nWebhookUrl` tests it here and `if (req.body.patientId)` at server.js line 46; used by `Proxy.Transcribe`, `Proxy.ForwardCarriesUpload` and `Pipeline.ForwardedFromPage`. |
| Json.IsTruthy | public/script.js:159-160 | JavaScript truthiness of a parsed value, characterised by `Json.FieldText`, `Json.StringFieldText` and `Json.NumberFieldText`. |
| Json.Converts | public/script.js:159-166 | `String(v)` returns unless the value is an object with its own `toString` member, or an array holding such a value outside `null`s; `Pipeline.ClientView` and `Pipeline.UnconvertibleTranscriptThrows` show the throw it leads to. |
| Json.FieldConverts | public/script.js:159-166 | Reading `body.key \|\| d` with `String` returns: a field that `\|\|` takes converts; used in the contract of `Pipeline.ClientView`. |
| Json.ToText | public/script.js:159-166 | `String(v)` of a parsed value that converts, characterised by `Json.TruthyTextEmptyIff`, `Json.StringFieldText` and `Json.NumberFieldText`. |
| Json.TruthyTextEmptyIff | public/script.js:159-160 | A truthy value that converts has an empty `String` text exactly when it is an array that is empty or whose only element converts to "". |
| Json.FieldText | public/script.js:159-166 | For a field whose conversion returns, the default is taken exactly when the body is not an object or the field is missing or falsy. Otherwise the field reads as the `String` text of its value. |
| Json.StringFieldText | public/script.js:159-160 | A string field is used exactly when it is non-empty, and then reads as itself. |
| Json.NumberFieldText | public/script.js:159-160 | A number field is used exactly when it is not zero, and then reads as its decimal text, with a minus sign when negative. |
| Proxy.MissingFileBody | server.js:25 | The 400 body, characterised by `Proxy.MissingFileRejected`. |
| Proxy.MockBody | server.js:32-36 | The mock payload, characterised by `Proxy.MockWithoutWebhook`. |
| Proxy.FallbackBody | server.js:59-65 | The 500 body, characterised by `Proxy.FallbackOnFailure`. |
| Proxy.OutboundRequest | server.js:40-48 | The form carries the uploaded bytes and content type, the original name or "audio.wav" when that is empty, and the patient id exactly when it is truthy. |
| Proxy.Transcribe | server.js:22-67 | The status is 200, 400 or 500. It is 400 exactly when no file came. A webhook call is made exactly when a file came and the URL is truthy. It is 500 exactly when that call failed. The body is an object unless it is the webhook's own body passed through. |
| Proxy.MissingFileRejected | server.js:24-26 | No file gives 400 with only `error: "No audio file provided"` and no call, whatever the configuration. |
| Proxy.MockWithoutWebhook | server.js:28-37 | With a file and no webhook URL, the answer is 200 with exactly the keys `transcription_en`, `transcription_ta` and `language`, holding the two mock strings and "ta-en", which the page reads as those texts, and no call is made. |
| Proxy.ForwardCarriesUpload | server.js:39-50 | With a file and a URL, exactly one call is made to that URL. It carries the uploaded bytes and content type, a non-empty filename, and the patient id exactly when it is truthy. |
| Proxy.PassThrough | server.js:50-56 | A delivered webhook body is answered unchanged with 200. |
| Proxy.FallbackOnFailure | server.js:57-65 | A failed call gives 500 with exactly the keys error, details, fallback and the two transcripts. `details` is the failure's message, `fallback` is true, and both fallback texts are non-empty. |
| Pipeline.Ok | public/script.js:158 | `response.ok`: the status is in 200..299; `Pipeline.ClientView` shows "done" only when it holds. |
| Pipeline.ReadWithoutThrowing | public/script.js:156-163 | The page gets through lines 156-163 without throwing: a non-null body, a 2xx status, and both transcripts convert where taken; `Pipeline.ClientView` shows "done" exactly then. |
| Pipeline.ClientView | public/script.js:156-173 | The page shows "done" exactly for a non-null body with a 2xx status whose taken transcripts convert, and "error" otherwise. A null body shows the read TypeError. A failed reply whose `error` does not convert shows the conversion TypeError instead of its own message. A pane is blank only when the body's field for it is an array. |
| Pipeline.PageNeverRejected | server.js:24-26 | The page always attaches the recording, so the proxy never answers it with 400. |
| Pipeline.ForwardedFromPage | server.js:40-48 | The webhook receives the recorded bytes as `recording.wav` of type `audio/wav`, and the trimmed patient id exactly when the input is not blank. |
| Pipeline.MockShownAsDone | server.js:28-37 | Without a webhook the page shows the two mock transcripts and "done". |
| Pipeline.FailureShownAsGenericError | server.js:57-65 | A failed webhook call shows the proxy's generic error with the error status. Neither the details nor the fallback transcripts reach the panes. |
| Pipeline.TranscriptShown | server.js:50-56 | A webhook answer with two truthy transcripts that convert shows their `String` texts, with "done". |
| Pipeline.UnconvertibleTranscriptThrows | public/script.js:159-173 | A 2xx answer whose English transcript is `{"toString": 1}` throws when shown, so the page shows the conversion TypeError with the error status. |
| Pipeline.EmptyArrayLeavesPaneBlank | public/script.js:159-160 | An empty array as the English transcript is truthy but converts to "", so the English pane is blank under "done". |
| Pipeline.MissingFileShown | server.js:24-26 | How the page would show the 400 reply to a request without audio: as the thrown error "No audio file provided". |
| Scenarios.StartWhileUploading | public/script.js:86-88 | A press starts a recording while the previous upload is still in flight. |
| Scenarios.RevertDuringRecording | public/script.js:164 | The revert makes the status "ready" while a newer recorder records. |
| Scenarios.LateChunkCrossesRecordings | public/script.js:90-97 | When a press comes before the old recorder's task, the old upload is whole, and the next upload sends the old bytes in front of the new ones. |
| Scenarios.BufferKeptAfterDone | public/script.js:140-176 | The buffer still holds the recording after its result is shown. |
| Scenarios.PressAfterLogout | public/script.js:86-99 | A press after logging out and back in, before the microphone answers, empties the buffer and records nothing, leaving the clock and the status alone. The old recorder's task still due then uploads its chunk whole. |
| Scenarios.MicrophoneRefused | public/script.js:61-64 | A refused microphone leaves the status idle, and presses do nothing. |
| Scenarios.BlankLoginRefused | public/script.js:31-40 | A blank id starts no session and issues no microphone request. |
| Scenarios.IdReadAtUpload | public/script.js:144 | The id typed after logout, while the old recorder's task is still due, is the one uploaded. |

## Left out

- DOM class toggling (hidden screens, the placeholder style, the loader, the active record button) and the label text node: the screen is one boolean, and the label is `Display.StatusLabel(status)` rather than a separate field.
- The page markup is not modelled, so the texts it holds before any update (the timer and the transcript panes) start as "".
- `alert` and `console` calls have no effect on the modelled state and are left out.
- The visualizer, audio context, analyser and animation frames (public/script.js:105, public/script.js:117-119, public/script.js:180 onwards) are cosmetic, float-based drawing.
- `getUserMedia`, `MediaRecorder`, `Blob`, `FormData`, `fetch`, `axios` and the clock are browser or network APIs. Their outcomes are method parameters (`granted`, `chunk`, `nowMs`, the parsed response fields, the thrown message) or the `Upstream` input of the proxy.
- Timing of `setInterval` and `setTimeout` is not modelled. Ticks and the revert are events that may come at any time once scheduled.
- Recording.Controller.StopAudio: a logout while a recorder records (possible only while the button is still held) ends the tracks, and the browser then stops that recorder by itself without the interval being cleared. The model keeps the recorder recording until the release. Other recorder errors are not modelled either.
- Recording.Controller.OnRecorderStopped: the tasks of stopped recorders may come in any order in the model; the browser runs them oldest first. The chunk is a parameter, so which recording's bytes it carries is not tracked.
- `response.json()` failing on a non-JSON body is the thrown-error path (`OnUploadError`) with an arbitrary message. The same holds for a field whose conversion throws: the controller takes the TypeError through `OnUploadError`, and `Pipeline.ClientView` shows which replies throw.
- The wording of the browser's TypeErrors is not modelled; it is the `Pipeline.TypeErrors` input.
- Json.ToText: it is defined only for values that convert (`Json.Converts`). JSON numbers are integers, and `String(n)` is modelled as plain decimal digits. JavaScript writes fractions, and magnitudes of 10^21 and above in exponent form, and rounds integers beyond 2^53.
- Objects are maps, so key order and repeated keys are already resolved as `JSON.parse` resolves them.
- Express, multer, cors and dotenv wiring, static serving and `app.listen` (server.js:1-20, server.js:69-71) are framework setup. The webhook URL is an input of `Proxy.Transcribe`.
- Multer rejecting a malformed multipart body (before the handler runs) is outside the handler.
