# Audio recorder and processing route, modelled in Dafny

This project models the two parts of the audio app that hold state and ordering:

- **The `AudioRecorder` component** (`component/audio.tsx`). It acquires the microphone, buffers the
  recorder's data chunks and counts seconds. When recording stops it builds an `audio/wav` Blob from the
  chunks, and it hands that Blob to its caller as `recording.wav`.
- **The `POST` handler of `/api/processaudio`** (`app/api/processaudio/route.ts`). It checks the
  `audio` form field and writes the bytes to a temporary file. It then calls the transcription service
  and the text model twice (summary, mood), deletes the file and answers
  `{transcription, summary, mood}`. Every exception goes to a single 500 handler.

Files:

- `base.dfy` (module `Base`): the `byte` type and `Option` (JavaScript's `null`).
- `decimal.dfy` (module `Decimal`): how JavaScript writes a non-negative integer (`toString`,
  `${n}`) and `padStart` with a one-character pad, together with the digit parser that inverts them.
- `audio_component.dfy` (module `AudioComponent`): the class `AudioRecorder`, whose fields are the
  component's three state cells and its refs, and whose methods are its handlers. Also the Blob
  concatenation `Concat`, `formatDuration` as `FormatDuration`, and its inverse `ParseDuration`.
- `process_audio.dfy` (module `ProcessAudioRoute`): `POST` as the method `Post`. The file system is a
  `map` from path to bytes. The services are oracle functions. The method also returns the list of
  external calls it made.

How the model represents the code:

- **Microphone.** The outcome of `getUserMedia` is the boolean parameter `micGranted`.
- **Recorder events.** The data, stop and interval events are separate methods, called by the
  environment:
  - a data event comes only from a recorder that is recording or flushing after `stop()`;
  - a stop event comes once per recorder that was told to stop;
  - a tick comes only while some interval is live.
- **Shared refs.** The handlers read the refs when they run. So a late stop event acts on the current
  buffer and the current timer.
- **The start/stop window.** After `stop()` and before its stop event, the start button can be
  rendered again. A start in that window makes the late stop event clear the *new* interval. The old interval
  is left running, and the field `strayTimers` counts such intervals. `StartBeforeStopEvent` walks
  through this case.
- **Render guards.** `StartOffered`, `StopOffered` and `UploadOffered` are the conditions under which
  the component renders each button (component/audio.tsx:74, 87, 105). `StartRecording` requires
  `StartOffered`, because its only caller is the button of line 79, which is rendered only under that
  condition (the exit animation that keeps it on screen a moment longer is under "## Left out").
- **Null transcript text.** The transcription service can reject, or it can resolve with a transcript
  whose `text` is `null`. The handler does not check for `null`. The model keeps this:
  - a `null` text appears in both prompts as the four characters `null`;
  - it comes back as `transcription: null`.
- **Mood.** The mood text is returned exactly as the model gave it. It is not checked against
  Positive/Negative/Neutral.
- **Form field.** `formData.get('audio')` can be a file, a string or `null`. A missing field or an
  empty string is falsy and gets 400. A non-empty string passes the check, but it has no
  `arrayBuffer()`, so the request fails with 500 before anything is staged.

Behaviour of the code that the model keeps:

- The temporary file is deleted only on the success path. On any failure after staging, the catch
  block answers 500 and the file stays in the store.
- The temp file name depends only on `Date.now()`. Two requests in the same millisecond share one
  path (`TempFilePathCollision`).
- A finished recording can only be handed over (there is no way to drop it). The upload's media
  type is not checked: the path always ends in `.wav`, whatever the upload's type.
- `startRecording` has no guard of its own against a running recording. Only the render guard of
  component/audio.tsx:74 keeps it from being called then, and the model relies on that guard
  (`StartRecording` requires `StartOffered`); the two ways around it are under "## Left out".
- A transcript whose text is null does not stop the pipeline.

`Concat` (the bytes of `new Blob(chunks)`), `FormatDuration`, `TempFileName`, `TempFilePath`,
`SummarizePrompt`, `MoodPrompt`, `Interpolated` (template-literal rendering), `StripPrefix` and
`Plan` are definitions. The members below state what they mean.

The contract of `NonEmpty` says only that the kept chunks are non-empty and no more than were
delivered. That every non-empty chunk is kept, in order, is stated by the ensures of
`AudioRecorder.OnDataAvailable` (one chunk at a time) and by `ConcatNonEmpty` (for the Blob's bytes).

## Model

| member | source | states |
|---|---|---|
| Decimal.NatToString | component/audio.tsx:66-68 | the decimal text of a non-negative integer is non-empty, all digits, and has no leading zero unless the number is 0 |
| Decimal.NatToStringRoundTrip | component/audio.tsx:66-68 | reading the digits back gives the number again |
| Decimal.CanonicalRoundTrip | component/audio.tsx:66-68 | every digit string without a leading zero is the text written for the number it denotes (the other half of the bijection) |
| Decimal.NatToStringInjective | app/api/processaudio/route.ts:29 | two numbers have the same decimal text exactly when they are equal |
| Decimal.PadStart | component/audio.tsx:68 | `padStart(width, c)` gives a string of length max(len, width) that ends with the input, with only `c` before it |
| AudioComponent.FormatDurationParts | component/audio.tsx:65-69 | the display is canonical minutes, `:`, exactly two digits; the seconds part is `s % 60 < 60`, the minutes part is `s / 60`, and minutes*60 + seconds == s |
| AudioComponent.FormatDurationRoundTrip | component/audio.tsx:65-69 | parsing the display gives back the number of seconds |
| AudioComponent.FormatDurationCovers | component/audio.tsx:65-69 | every well-formed `m:ss` string is the display of the seconds it denotes |
| AudioComponent.FormatDurationInjective | component/audio.tsx:65-69 | different durations are displayed differently, in both directions |
| AudioComponent.NonEmpty | component/audio.tsx:21-25 | the chunks kept by the size test are all non-empty and no more than were delivered |
| AudioComponent.ConcatAppend | component/audio.tsx:23-28 | the Blob of a buffer split in two is the Blob of the first part followed by that of the second |
| AudioComponent.ConcatNonEmpty | component/audio.tsx:21-28 | dropping empty chunks leaves the Blob's bytes unchanged |
| AudioComponent.ConcatEmptyIff | component/audio.tsx:28 | the Blob is empty exactly when every buffered chunk is empty |
| AudioComponent.ConcatChunkAt | component/audio.tsx:28 | each chunk appears in the Blob, unchanged, right after the bytes of the chunks before it |
| AudioComponent.AudioRecorder.constructor | component/audio.tsx:8-13 | not recording, no Blob, duration 0, no recorder, empty buffer, nothing delivered, no timer; only the start button is offered |
| AudioComponent.AudioRecorder.StartRecording | component/audio.tsx:15-47 | refused microphone: every field unchanged; granted: recording, empty buffer, duration 0, interval running, Blob untouched; an interval still named by `timerRef` is left running, and none is when no stop is pending |
| AudioComponent.AudioRecorder.OnDataAvailable | component/audio.tsx:21-25 | a chunk is appended at the end exactly when its size is > 0; nothing else changes |
| AudioComponent.AudioRecorder.Tick | component/audio.tsx:38-40 | the duration goes up by exactly 1 and nothing else changes; it can run only while an interval is live |
| AudioComponent.AudioRecorder.StopRecording | component/audio.tsx:49-54 | a no-op unless a recorder exists and recording is on; otherwise one stop event becomes owed; afterwards not recording |
| AudioComponent.AudioRecorder.OnStop | component/audio.tsx:27-33 | the Blob is the in-order concatenation of the buffer (and of every chunk delivered since the start), typed `audio/wav`; the named interval is cleared, so with no stray interval no tick can follow |
| AudioComponent.AudioRecorder.HandleUpload | component/audio.tsx:56-63 | with a Blob: the callback gets `recording.wav`, type `audio/wav`, the Blob's bytes, and the Blob becomes null; without one: no callback, nothing changes |
| AudioComponent.FiveTicks | component/audio.tsx:35-40 | start, five ticks, stop and the stop event: the display reads `0:05` and no interval is live |
| AudioComponent.RecordTwoChunks | component/audio.tsx:21-33 | two data chunks around an empty one end up, in order, in the handed-over `recording.wav` |
| AudioComponent.StartBeforeStopEvent | component/audio.tsx:31-40 | a start between `stop()` and its stop event leaves the recorder recording with no named interval and one stray interval that still ticks |
| ProcessAudioRoute.Post | app/api/processaudio/route.ts:17-60 | 400 `No file uploaded` exactly for a missing or empty field, with no calls and the store unchanged; calls are a prefix of transcribe, summarize, mood, each made only after the previous one succeeded; 200 exactly when all three succeed, with their outputs verbatim and the temp file removed; any failure after staging gives 500 `Error processing audio` and leaves the temp file |
| ProcessAudioRoute.PlanOrder | app/api/processaudio/route.ts:32-42 | transcription comes first; the summary and mood calls are distinct prompts, in that order, and both carry the same transcript text |
| ProcessAudioRoute.PromptsCarryText | app/api/processaudio/route.ts:63-73 | each prompt is its fixed prefix followed by the text verbatim, so removing the prefix recovers the text |
| ProcessAudioRoute.PromptsInjective | app/api/processaudio/route.ts:63-73 | different texts give different prompts |
| ProcessAudioRoute.PromptsDistinct | app/api/processaudio/route.ts:63-73 | a summary prompt never equals a mood prompt |
| ProcessAudioRoute.TempFilePathShape | app/api/processaudio/route.ts:29 | the path is the temp directory, `/uploaded-audio-`, the timestamp's digits and `.wav`; the upload's name and type play no part |
| ProcessAudioRoute.TempFilePathCollision | app/api/processaudio/route.ts:29 | two requests get the same temp path exactly when their timestamps are equal |

## Left out

- Toasts, `console.error` and rendering (framer-motion, `AnimatePresence`, the `<audio>` player, `URL.createObjectURL`) are presentation and have no state to model.
- `getUserMedia` is reduced to its outcome (`micGranted`). The model leaves out three things:
  - a `MediaRecorder` constructor or `start()` that throws after the stream was granted;
  - stopping the stream's tracks in the stop event;
  - a recorder that stops by itself.
- Asynchrony is reduced to the order of events. Not modelled:
  - a second click on the start button while the microphone request is still pending (each `StartRecording` is atomic);
  - React applying state updates at the next render (the handlers read the rendered `isRecording`); the model applies every update at once;
  - `AnimatePresence` (component/audio.tsx:73) keeps an exiting start button mounted and clickable during its exit animation, so a click there can run `startRecording` just after `isRecording` turned true, outside `StartOffered`, leaving an orphaned recorder and a stray interval;
  - `mode="wait"` mounts the start button only after the recording panel has finished exiting, which narrows (but does not close) the stop/stop-event window that `StartBeforeStopEvent` walks through.
- Decimal.NatToString: models `toString` on unbounded integers. JavaScript numbers are exact only up to 2^53 and switch to exponent form at 1e21; every duration and `Date.now()` value here is far below both limits.
- The AssemblyAI and Gemini clients, their keys and the model name are replaced by the oracle functions in `Services`. An oracle gives the same answer to the same input, while the real model may not. No timeout or retry exists in the code, and none is modelled.
- `request.formData()` is reduced to its outcome: either the body is not form data, or the first value of the `audio` field (or `null`).
- `fs.writeFileSync` and `fs.unlinkSync` are map updates that never fail. Disk errors are not modelled. Within one request the unlink cannot fail, because it removes the file written a few steps earlier.
- Concurrent requests are not interleaved: each `Post` is one atomic step over the store. The shared temp path is stated only by `TempFilePathCollision`. That is where 2 unlinks of 1 file, or a transcription of another request's bytes, would start.
- `path.join` normalisation (`..`, repeated separators) is left out. `os.tmpdir()` returns a directory without a trailing separator, so the join is `tmpDir + "/" + name`.
- `Date.now()` and `tmpdir()` are parameters (`now`, `tmpDir`).
- The HTTP layer (headers, JSON serialisation) is left out. A response is a status plus a body value.
- app/page.tsx and app/audio/page.tsx are not part of this model. They are a static landing page and the upload page's client code, which only posts the file to the route.
