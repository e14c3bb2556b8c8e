# Live screen-review session engine: a Dafny model

This project models the real-time media core of a browser page. The page shares the user's screen and microphone with a live multimodal inference service, plays back the speech the service synthesises, and keeps a transcript of the session. Seven modules cover it:

- `Pcm16` (`pcm16.dfy`): the 16-bit PCM wire format.
  - Samples are laid out little-endian in bytes.
  - For playback a sample is normalised to a float by dividing by 32768.
- `AudioWorklet` (`audio_worklet.dfy`): the microphone encoder of `public/audio-worklet.js`.
  - A class holds the FIFO buffer and the messages posted so far.
  - `Process` appends an input block and then posts 2048-sample chunks while enough samples are buffered.
  - Each posted sample is clamped to [-1, 1], scaled asymmetrically and truncated toward zero.
- `Playback` (`playback.dfy`): the playback scheduler of `playPCM16`. One pointer says where the next chunk starts. Lemmas about runs of chunks prove two things:
  - chunks never overlap;
  - chunks are gapless when no stall occurs.
- `ElapsedTime` (`elapsed_time.dfy`): `getElapsedTime`, the `MM:SS` clock of the transcript. It uses JavaScript's `%` and `padStart`. A parser shows that the text reads back as the minutes and seconds elapsed.
- `Status` (`status.dfy`): the class-list filter of `setStatus`.
- `Transcript` (`transcript.dfy`): the transcript list and its single speaking marker (`currentSpeakingEntry`). Entries carry the identity of their DOM node. A panel invariant holds:
  - node ids are distinct;
  - the marker names the one speaking entry, if any.
- `App` (`app.dfy`): the module-level state of `public/app.js`, as one class `App` with one field per variable. Its methods are the page's callbacks and helpers:
  - `onopen`, `onmessage`, `onerror` and `onclose`;
  - the frame loop and the recorder's `port.onmessage`;
  - `startSession`, `stopSession` and `cleanup`.

  A mutable DOM list, class list or handle becomes a field that the methods reassign. Each method's `ensures` states the fields it changes in terms of the specification functions of the other modules, and the properties of those functions are proved as lemmas. The few values a method changes without stating them are listed under "## Left out", one line per method.

What the browser decides is passed in as a parameter:
- the wall clock `Date.now()` (`clockMs`);
- the playback context's `currentTime` (`now`);
- the outcome of each awaited startup step (`Startup`);
- the screen video's width;
- the encoded JPEG frame.

Outbound traffic is recorded rather than performed:
- `App.sent` holds every `sendRealtimeInput` call, in order;
- `App.released` holds every handle closed, stopped or disconnected, in order;
- `App.cues` holds every `source.start`, with the context it was made on, its start time and its samples.

Some behaviours of the code are easy to misread; the model keeps each one exactly as written:
- **After an interruption:** the playback pointer is reset to 0, not to the playback context's current time (`public/app.js:73`). The next chunk then starts 50 ms after `now` when `now` is positive, and at once when `now` is 0 (`Playback.StartTime`).
- **Opening the connection:** the entry appended is of type `analyzing`, not a system entry (`public/app.js:341`).
- **Interruption entry:** the entry appended is of type `listening`, not a system entry (`public/app.js:376`).
- **`onerror`:** it only appends an error entry and changes neither the status nor the session (`public/app.js:379-390`). Of the connection's callbacks only `onclose` stops an active session; the Stop button (`public/app.js:528`) and the screen track's `ended` listener (`public/app.js:216-218`) also call `stopSession`.
- **`lastTurnHadText`:** `interrupted` does not reset it (`public/app.js:370-377`). Only `turnComplete` clears it.
- **Speaking marker:** the marker is a transcript entry of its own type, `speaking`, beside the system, feedback, listening, analyzing and error entries.

## Model

| member | source | states |
|---|---|---|
| Pcm16.DecodeLE | public/app.js:51 | an even payload of n bytes gives n/2 samples, each in the signed 16-bit range |
| Pcm16.EncodeLE | public/app.js:261 | laying k samples out as bytes gives 2k bytes |
| Pcm16.DecodeEncode | public/app.js:258-264 | reading back the bytes the recorder sends gives its samples back (little-endian round trip) |
| Pcm16.EncodeDecode | public/app.js:51 | writing decoded samples out again gives the original bytes, so no payload is misread |
| Pcm16.ToFloat | public/app.js:54 | a float sample lies in [-1, 1) and is exactly the 16-bit value divided by 32768 |
| Pcm16.DecodeSamples | public/app.js:45-55 | an n-byte payload gives n/2 floats, each in [-1, 1) and equal to the i-th 16-bit sample / 32768 |
| AudioWorklet.Trunc | public/audio-worklet.js:22 | storing into an Int16Array truncates toward zero: the result is within 1 of x and no further from zero than x |
| AudioWorklet.Clamp | public/audio-worklet.js:21 | the result lies in [-1, 1], equals s inside that range and is the nearer bound outside it |
| AudioWorklet.ToPcm | public/audio-worklet.js:21-22 | every converted value is a 16-bit value; inputs <= -1 give -32768, inputs >= 1 give 32767, 0 gives 0, and the sign is kept |
| AudioWorklet.ToPcmMonotonic | public/audio-worklet.js:21-22 | a louder input never gives a smaller sample |
| AudioWorklet.QuantisationError | public/audio-worklet.js:22 | played back through the /32768 decoder, a sample is within 1/16384 of the clamped input and never further from zero |
| AudioWorklet.Chunks | public/audio-worklet.js:17-18 | a buffer of n samples yields floor(n / 2048) chunks of exactly 2048 samples |
| AudioWorklet.Residual | public/audio-worklet.js:17 | what stays buffered is shorter than 2048 and has n mod 2048 samples |
| AudioWorklet.ChunksThenResidual | public/audio-worklet.js:13-18 | conservation and FIFO order: the chunks in order, then the residue, are exactly the buffered input |
| AudioWorklet.Encode | public/audio-worklet.js:19-23 | a chunk converts to the same number of 16-bit values |
| AudioWorklet.Frames | public/audio-worklet.js:17-24 | the number of posted messages is floor(n / 2048) |
| AudioWorklet.FramesAt | public/audio-worklet.js:17-23 | message k has 2048 samples, and its sample i is the conversion of input sample 2048k + i |
| AudioWorklet.ConvertChunk | public/audio-worklet.js:19-23 | the Int16Array filled index by index holds the conversion of the chunk |
| AudioWorklet.AudioRecorderWorklet.constructor | public/audio-worklet.js:2-6 | a new worklet has an empty buffer, buffer size 2048 and nothing posted |
| AudioWorklet.AudioRecorderWorklet.Process | public/audio-worklet.js:8-27 | always returns true; a missing input or channel changes nothing; otherwise the messages posted are the frames of old buffer + channel data, in order, and the buffer keeps the residue (under 2048 samples) |
| Playback.Duration | public/app.js:57 | the duration of a 24 kHz buffer of n samples is n / 24000 |
| Playback.StartTime | public/app.js:64-68 | a chunk never starts before `now` or before the pointer: it starts at the pointer if the pointer is not behind `now`, else at `now` + 0.05 |
| Playback.Advance | public/app.js:64-69 | after scheduling, the pointer is the chunk's start plus its duration |
| Playback.StartsSnoc | public/app.js:64-69 | scheduling one more chunk extends the run: it starts where the pointer left by the earlier chunks says |
| Playback.NoOverlap | public/app.js:64-69 | each chunk starts no earlier than the previous one ends, stall or not |
| Playback.Gapless | public/app.js:64-69 | without a stall, chunk k starts exactly where the chunks before it end |
| Playback.StartsStep | public/app.js:64-69 | without a stall, each chunk starts exactly where the previous one ends |
| Playback.PointerBeforeChunk | public/app.js:64-69 | a chunk's start is the start time chosen from the end of the chunk before it |
| Playback.BackToBack | public/app.js:64-69 | with the pointer at 0, a 1 s chunk and a 0.5 s chunk arriving at 0 start at 0 and at 1 s |
| ElapsedTime.NatToDecimal | public/app.js:84-85 | `toString` of a non-negative integer is at least one decimal digit |
| ElapsedTime.PadStart2 | public/app.js:84-85 | `padStart(2, "0")` gives at least two characters and ends with the original text |
| ElapsedTime.JsRemainder | public/app.js:85 | JavaScript's `%` takes the dividend's sign, stays below the divisor in magnitude and differs from the dividend by a multiple of the divisor |
| ElapsedTime.ElapsedClock | public/app.js:81-87 | the clock text itself; what it means is proved by `ElapsedIsClockText`, `ClockFields`, `NoStartClock` and `ClockAtStart` |
| ElapsedTime.DecimalRoundTrip | public/app.js:84-85 | the decimal text of n reads back as n |
| ElapsedTime.PaddedRoundTrip | public/app.js:84-85 | a padded field has at least two digits and reads back as the number written |
| ElapsedTime.ClockArithmetic | public/app.js:84-85 | seconds are in 0..59 and minutes * 60 + seconds is the whole seconds elapsed |
| ElapsedTime.ClockTextParses | public/app.js:86 | `MM:SS` text for seconds under 60 has digits around one colon and parses back to the minutes and seconds |
| ElapsedTime.ElapsedIsClockText | public/app.js:81-86 | for a started session and non-negative elapsed time, the clock is the minutes and seconds of the elapsed time written as `MM:SS` |
| ElapsedTime.ClockFields | public/app.js:81-86 | the clock has at least two minute digits, a colon and two second digits; seconds lie in 0..59 and minutes * 60 + seconds = floor(elapsed / 1000) |
| ElapsedTime.NoStartClock | public/app.js:82 | without a start time the clock reads `00:00` |
| ElapsedTime.ClockAtStart | public/app.js:81-87 | read at the instant the timer starts, the clock reads `00:00` |
| Status.StateClass | public/app.js:194 | `state-<s>` is a state class |
| Status.KeepClasses | public/app.js:190-193 | the class-list filter itself; what it keeps is proved by `KeepClassesFilters`, `KeepClassesSnoc`, `KeepClassesAppend` and `KeepClassesIdempotent` |
| Status.SetStatusClasses | public/app.js:188-195 | the class list after `setStatus` itself; what it shows is proved by `SetStatusShowsOne`, `SetStatusOverwrites` and `KeepsPlainClasses` |
| Status.KeepClassesFilters | public/app.js:190-193 | the filter keeps exactly the classes that do not start with `state-`, and never grows the list |
| Status.KeepClassesSnoc | public/app.js:191-192 | one more class is kept exactly when it is not a state class |
| Status.KeepClassesAppend | public/app.js:190-193 | filtering a concatenation filters each part |
| Status.KeepClassesIdempotent | public/app.js:190-193 | filtering twice is filtering once |
| Status.SetStatusShowsOne | public/app.js:188-195 | after `setStatus(s, …)` exactly one state class shows, `state-<s>`, and it is last |
| Status.SetStatusOverwrites | public/app.js:188-195 | a second `setStatus` replaces the first: only the latest state shows |
| Status.KeepsPlainClasses | public/app.js:189-194 | classes without a state class (such as `reveal`) pass the filter unchanged |
| Transcript.Remove | public/app.js:138 | removing a node never lengthens the list; which entries stay is proved by `RemoveMembers`, `RemoveAbsent` and `RemoveAt` |
| Transcript.RemoveMembers | public/app.js:138 | removing a node keeps exactly the entries with another id |
| Transcript.RemoveAbsent | public/app.js:138 | removing an id no entry has changes nothing |
| Transcript.RemoveAt | public/app.js:138 | with distinct ids, removing entry p's node takes out exactly that entry and keeps the others in order |
| Transcript.AtMostOneSpeaking | public/app.js:119-141 | at most one speaking entry exists, and none exists exactly when the marker is unset |
| Transcript.RemoveMarker | public/app.js:136-141 | removing the marked entry removes one entry, leaves no speaking entry and keeps every other type's count |
| Transcript.AppendEntry | public/app.js:89-102 | appending a non-speaking entry with a fresh id keeps ids distinct and the marker consistent, and adds one to its type's count only |
| Transcript.AppendMarker | public/app.js:119-134 | appending the marker while none is set makes it the one speaking entry and changes no other count |
| Transcript.Panel.Add | public/app.js:89-102 | appending an entry keeps the panel invariant |
| Transcript.Panel.AddSpeaking | public/app.js:119-134 | showing the marker keeps the panel invariant |
| Transcript.Panel.RemoveSpeaking | public/app.js:136-141 | hiding the marker keeps the panel invariant |
| Transcript.Panel.Cleared | public/app.js:143-146 | a cleared transcript satisfies the invariant |
| Transcript.Panel.AddAll | public/app.js:89-102 | a run of appends keeps the invariant and leaves the marker alone |
| Transcript.AddKeeps | public/app.js:89-117 | an appended entry is last, with the given type, message and time; earlier entries and the marker are untouched; exactly its type's count grows by one |
| Transcript.AddSpeakingKeeps | public/app.js:119-134 | afterwards exactly one speaking entry exists and the marker is set; a second call changes nothing; with no marker before, the new entry is appended last |
| Transcript.RemoveSpeakingKeeps | public/app.js:136-141 | afterwards no speaking entry is left and the marker is clear; only the marked entry has gone, with the rest in order; other counts are unchanged; with no marker set, nothing changes |
| Transcript.WithTextKeeps | public/app.js:353-358 | a text part leaves no marker and ends the list with one feedback entry holding the text |
| Transcript.TurnClosedKeeps | public/app.js:361-367 | `turnComplete` leaves no marker and adds one system entry exactly when the turn carried no text |
| Transcript.InterruptedKeeps | public/app.js:370-377 | an interruption leaves no marker and adds exactly one listening entry |
| Transcript.ClearedKeeps | public/app.js:143-146 | clearing empties the list and unsets the marker |
| Transcript.AddAllNotes | public/app.js:89-102 | read back as (type, message) pairs, a run of appends gives the old list followed by the notes |
| Transcript.AddAllStamped | public/app.js:89-102 | a run of appends adds one entry per note, with consecutive fresh ids and the shared time |
| Transcript.AddAllAppend | public/app.js:89-102 | appending in two runs gives the same list as one run |
| App.IsAudioPart | public/app.js:347 | the test `inlineData?.mimeType?.startsWith("audio/")` itself; what an audio part does is stated by `App.App.HandlePart` and `App.PartEffect` |
| App.IsTextPart | public/app.js:353 | the test `part.text` (present and non-empty) itself; what a text part does is stated by `App.App.HandlePart` and `Transcript.WithTextKeeps` |
| App.PlaybackTarget | public/app.js:37-41 | the context a chunk is queued on is the live one if any, else the one created next |
| App.QueuedCues | public/app.js:43-70 | the audio parts of a message queue exactly one cue each, all on one context |
| App.QueuedCueStarts | public/app.js:64-69 | the queued cues start exactly where the scheduler's run over the message's chunks says |
| App.QueuedSnoc | public/app.js:346-352 | one more part queues one more cue, with its decoded samples, exactly when it carries audio |
| App.ConnectionErrorText | public/app.js:387 | the error text is never empty: the message if non-empty, else the reason if non-empty, else the fixed fallback "Unknown WebSocket error" |
| App.FrameTick | public/app.js:221-246 | a tick stops iff the session is inactive or has no screen stream; it retries after 500 ms iff the video has no width; otherwise it sends and reschedules after 2000 ms |
| App.StartupNotes | public/app.js:427-479 | a successful startup writes seven entries, the sixth saying how the microphone went; a failed one ends with "Failed: " and the failing step's message |
| App.SessionPanel | public/app.js:418-484 | whatever the transcript held before, the startup leaves it valid with no speaking marker |
| App.SessionPanelNotes | public/app.js:425-479 | the startup's entries are exactly the startup notes: nothing from before survives |
| App.MicNonFatal | public/app.js:446-455 | the microphone's outcome never decides whether the session starts, and changes only the one microphone entry |
| App.SignalsKeeps | public/app.js:361-377 | the signals add one "Feedback delivered" for a completed turn without text and one listening entry for an interruption, and leave no marker |
| App.PartsKeeps | public/app.js:345-360 | the parts of a turn keep the transcript valid, add one feedback entry per text part and no other visible entry |
| App.MessageKeeps | public/app.js:343-377 | a whole message, type by type: one feedback entry per text part, one "Feedback delivered" only for a completed turn without any text, one listening entry per interruption, nothing else; no marker after `turnComplete` or `interrupted` |
| App.PartStep | public/app.js:346-358 | handling one more part keeps the loop invariant of `onmessage` |
| App.ToFloatSamples | public/app.js:52-55 | the Float32Array filled index by index holds each sample / 32768 |
| App.InterruptBeforeAudio | public/app.js:338-377 | a session comes up and the service interrupts before any audio: the session is active, the page is `listening`, the transcript has exactly one listening entry and no speaking marker |
| App.StartedSession | public/app.js:418-468 | on a loaded page a startup whose steps all succeed leaves the session active, the orb `connecting` and no listening entry |
| App.App.constructor | public/app.js:4-15 | the loaded page is inactive, holds no handle, has an empty transcript and the pointer at 0 |
| App.App.InitPlaybackContext | public/app.js:37-41 | a context exists afterwards; an existing one is kept, else exactly one new one is created |
| App.App.PlayPcm16 | public/app.js:43-70 | a context exists and is reused; one cue is queued at the scheduler's start time with the decoded samples, and the pointer advances by the chunk's duration |
| App.App.StopPlayback | public/app.js:72-78 | the pointer is 0 and no context is held; a held context is released |
| App.App.AddTranscriptEntry | public/app.js:89-102 | the transcript gains one entry of the type and message, stamped with the clock text the caller read from `ElapsedClock` |
| App.App.AddFeedbackEntry | public/app.js:104-117 | the transcript gains one feedback entry |
| App.App.AddSpeakingEntry | public/app.js:119-134 | the marker is shown, unless one already is |
| App.App.RemoveSpeakingEntry | public/app.js:136-141 | the marked entry leaves the list, if there is one |
| App.App.ClearTranscript | public/app.js:143-146 | the transcript is empty and the marker unset |
| App.App.SetStatus | public/app.js:188-196 | the orb shows the new state over the kept classes, and the status text is replaced |
| App.App.SwitchStatus | public/app.js:188-196 | a second `setStatus` in one callback leaves the classes as if only the second had run |
| App.App.StartSessionTimer | public/app.js:155-160 | the start time is the clock reading and the interval is running |
| App.App.StartClock | public/app.js:155-160 | a clock read at the instant the timer starts reads `00:00` |
| App.App.StopSessionTimer | public/app.js:162-168 | no interval runs and the start time is cleared |
| App.App.OnOpen | public/app.js:338-342 | the orb says `analyzing` and one `analyzing` entry is appended |
| App.App.HandleAudioPart | public/app.js:347-352 | an audio part sets `speaking`, shows the marker once, opens a playback context only if none is live, and queues the decoded chunk on it at the scheduler's start time |
| App.App.HandleTextPart | public/app.js:353-358 | a text part replaces the marker with a feedback entry and sets the turn flag |
| App.App.HandleTurnComplete | public/app.js:361-369 | the marker goes; "Feedback delivered" is added only for a turn without text; the flag is cleared; `analyzing` is shown only while active, else the status is untouched |
| App.App.NoteSilentTurn | public/app.js:364-366 | "Feedback delivered" is appended exactly when the turn carried no text |
| App.App.ResumeAnalyzing | public/app.js:368 | the orb returns to `analyzing` only while the session is active |
| App.App.HandleInterrupted | public/app.js:370-377 | the pointer is 0; a fresh context that no queued cue was made on replaces the old one; the marker goes; the orb says `listening` and one listening entry is appended |
| App.App.HandlePart | public/app.js:346-358 | one part, its audio first, then its text: an audio part sets orb and status text to `speaking`, opens a context only if none is live and queues its samples on it at the scheduler's start time; otherwise cues, pointer, orb, status text and context are untouched |
| App.App.HandleParts | public/app.js:345-360 | the cues appended are exactly `QueuedCues`: one per audio part, in order, with its samples, on one context, at the scheduler's start times; the flag records any text; orb and status text say `speaking` iff audio came; a context is created only if audio came and none was live |
| App.App.OnMessage | public/app.js:343-378 | parts, then `turnComplete`, then `interrupted`: the flag, the transcript, the cues with their samples and context, the pointer, the contexts (one more for an interruption, plus one if audio opened a context where none was live), the released handles, the orb and the status text as each step leaves them, with the interruption deciding last and closing whichever context is live |
| App.App.HandleSignals | public/app.js:361-377 | after the parts, `turnComplete` then `interrupted` leave the orb and status text of the last `setStatus` that ran, or both unchanged when none ran; only an interruption releases the live context and creates a fresh one |
| App.App.OnError | public/app.js:379-390 | only one error entry is appended; status and session are left alone |
| App.App.OnClose | public/app.js:391-398 | an active session is stopped: every handle released, the pointer at 0, the timer stopped, the orb `idle` with "Session ended"; the transcript and cues are kept; an inactive page is left unchanged |
| App.App.SendVideoFrames | public/app.js:221-247 | a tick does what `FrameTick` decides: it stops with nothing sent, retries after 500 ms, or sends the frame and reschedules after 2000 ms (an active session always holds its connection) |
| App.App.OnRecorderChunk | public/app.js:258-266 | a chunk goes out as little-endian PCM exactly when the session is active and connected |
| App.App.ClearFrameTimer | public/app.js:498-501 | the timer is cleared; it is released only if it was pending |
| App.App.CloseSession | public/app.js:502-505 | the connection is closed only if held |
| App.App.StopScreenStream | public/app.js:506-510 | the screen stream is stopped only if held |
| App.App.DisconnectRecorder | public/app.js:511-514 | the recorder node is disconnected only if held |
| App.App.DisconnectSource | public/app.js:515-518 | the microphone source is disconnected only if held |
| App.App.CloseAudioContext | public/app.js:519-522 | the capture context is closed only if held |
| App.App.Cleanup | public/app.js:497-524 | total: every held handle is released once, in the source's order; afterwards nothing is held and the pointer is 0 |
| App.App.CleanupTwice | public/app.js:497-524 | idempotent: a second `cleanup` releases nothing more |
| App.App.StopSession | public/app.js:487-495 | inactive, nothing held, everything held released, timer stopped, orb `idle`; the transcript and cues are kept |
| App.App.ShowStopped | public/app.js:490-491 | the timer stops and the orb says `idle` with "Session ended" |
| App.App.StartScreenCapture | public/app.js:212-219 | the screen stream is held only once the picker resolves |
| App.App.StartMicCapture | public/app.js:250-270 | the capture context is held once the microphone is granted; the source and the worklet only once its module has loaded |
| App.App.ConnectToGemini | public/app.js:403-414 | the connection is held only once it resolves |
| App.App.RunStartupSteps | public/app.js:425-462 | each step is announced before it runs; the first failing step (token, screen, connection) is reported; handles are held as far as the steps got |
| App.App.StartSession | public/app.js:418-485 | active iff token, screen and connection all succeed, whatever the microphone does; on success the frame loop's first tick has run; on failure nothing is held, the timer is stopped and the orb says `error` |
| App.App.BeginStartup | public/app.js:425-428 | the transcript is cleared and holds only the token request; the orb says `connecting` with "Getting token..." |
| App.App.ScreenStep | public/app.js:431-441 | the token and the capture request are announced, and "Screen capture active" only once the picker resolves; the screen stream is held exactly then |
| App.App.MicrophoneStep | public/app.js:443-455 | the request and its outcome are announced; the capture context, source and worklet are held as far as the microphone got |
| App.App.ConnectStep | public/app.js:457-461 | the connection request is announced; the connection is held only once it resolves |
| App.App.RunStartup | public/app.js:420-484 | the `try` block, then either the live session or the `catch` unwinding it |
| App.App.GoLive | public/app.js:464-468 | the session becomes active and the first frame tick runs |
| App.App.AbortStartup | public/app.js:469-484 | the `catch`: `error` status, a "Failed: …" entry, the timer stopped and every held handle released |

## Left out

- `server.js` is not part of this model: it serves static files and proxies a token, with no logic to verify.
- Foreign calls become parameters or recorded outputs: `fetch`, `getDisplayMedia`, `getUserMedia`, `audioWorklet.addModule`, `AudioContext` and `createBuffer`, `source.start`, `ai.live.connect` and `sendRealtimeInput`. The model keeps only their success or failure and what they are handed.
- Base64 (`atob`, `btoa`, `arrayBufferToBase64`) is not modelled: payloads are byte sequences throughout.
- DOM details are not modelled:
  - HTML templates, `escapeHtml`, scrolling, the error bar and `showError`;
  - the landing and session views, including the 350 ms `setTimeout` of `showSessionView`;
  - enabling and disabling the buttons;
  - the canvas scaling and the JPEG compression of a frame (the encoded frame is a parameter).
- Timers and threads are not modelled as concurrency. Each `setTimeout` tick, each `setInterval` tick and each worklet `process` call is one sequential method call.
- The interval callback that rewrites the session timer text is not modelled; the clock text it shows is `ElapsedClock`.
- The screen track's `ended` listener (`public/app.js:216-218`) is not a separate member: it calls `stopSession` while active, exactly as `App.App.OnClose` does.
- Floating point is modelled as `real`. NaN samples, `Float32Array` rounding and the rounding of a duration n / 24000 are not modelled.
- Odd-length or empty playback payloads are excluded (`Playable`): there, `Int16Array` and `createBuffer` throw inside the browser.
- Console logging and the system prompt text are not modelled.
- The session archive, session records, summaries and reports are not modelled: none of them is implemented in `public/app.js` or `public/audio-worklet.js`.
- The byte order of playback payloads is fixed to little-endian. `new Int16Array(buffer)` (`public/app.js:51`) reads in the platform's byte order, which is little-endian on every platform a browser commonly runs on.
- The microphone stream that `startMicCapture` obtains (`public/app.js:251-255`) is a local variable whose tracks are never stopped, so `cleanup` leaves the microphone live. The model has no handle for it; `released` records only what the code releases.
- App.App.StartSession: the model reads the clock once when the timer starts, so every startup entry is stamped `00:00`. The source reads `Date.now()` afresh for each entry, after each await.
- App.App.OnMessage: the model reads the clock once per message. The source reads it again for each entry the message appends.
- App.App.OnMessage: the playback context's `currentTime` is read once per message (`now`) and shared by every audio part. The source reads it afresh in each `playPCM16` call (`public/app.js:64`).
- App.App.StartSession: it requires that no session is active, since the start button is disabled while one runs (`public/app.js:421`). A second start while a session runs is not modelled.
- App.App.OnMessage: it requires each audio part's payload to be playable (see above).
- App.App.StopSession: `Valid` is kept only when it held before; the stop itself does not depend on it.
- App.App.StartSession: after a failed startup it states that nothing is held, not which handles were appended to `released`; `App.App.AbortStartup` states that list (every handle held when the `catch` runs, in `cleanup`'s order). After a successful one, that `released`, the playback pointer and the playback context are unchanged is not stated.
- App.App.RunStartup: the same two gaps as `App.App.StartSession`, for the same reason.
- App.App.RunStartupSteps: after a failed step the status text is not stated; `App.App.RunStartup` overwrites it with the failure status at once.
- ElapsedTime.ClockFields: proved for a non-negative elapsed time only. A clock that runs backwards gives JavaScript's negative fields, which `ElapsedClock` models but no lemma describes.
