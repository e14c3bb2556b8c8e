/**
 * The page controller of public/app.js: the module-level state of the page
 * (connection and capture handles, the session flags, the transcript, the orb
 * status and the playback pointer) as the fields of one object, and the
 * callbacks and helpers that update it as its methods.
 *
 * Foreign calls are outcomes passed in: the clock (`Date.now()` as `clockMs`,
 * the playback context's `currentTime` as `now`), the result of each startup
 * step, the screen video's width and the encoded frame. Handles are booleans
 * or options that say whether the source's variable is non-null.
 */
module App {
  import opened Wrappers
  import opened Pcm16
  import opened Playback
  import opened ElapsedTime
  import opened Status
  import opened Transcript

  /** Delay before retrying a frame while the video has no size yet (ms). */
  const FrameRetryMs: nat := 500
  /** Delay between two frames sent to the service (ms). */
  const FrameIntervalMs: nat := 2000

  const ImageMime: string := "image/jpeg"
  const AudioMime: string := "audio/pcm;rate=16000"

  // the texts of the status line (`setStatus`)
  const GettingTokenStatus: string := "Getting token..."
  const RequestingMicStatus: string := "Requesting mic access..."
  const ConnectingStatus: string := "Connecting to Gemini..."
  const AnalyzingStatus: string := "Analyzing screen..."
  const SpeakingStatus: string := "AI is speaking..."
  const ListeningStatus: string := "Listening to you..."
  const EndedStatus: string := "Session ended"
  const FailedStatus: string := "Failed to start"

  // the messages of transcript entries (`addTranscriptEntry`)
  const AuthRequested: string := "Requesting authentication..."
  const TokenReceived: string := "Token received"
  const ScreenRequested: string := "Starting screen capture..."
  const ScreenActive: string := "Screen capture active"
  const MicRequested: string := "Requesting microphone..."
  const MicConnectedNote: string := "Microphone connected"
  const MicDeniedNote: string := "Microphone denied — listen-only mode"
  const ConnectRequested: string := "Connecting to Gemini Live..."
  const FailedPrefix: string := "Failed: "
  const SessionActiveNote: string := "Session active — analyzing your screen"
  const ConnectionErrorPrefix: string := "Connection error: "
  const UnknownErrorText: string := "Unknown WebSocket error"

  /** One `session.sendRealtimeInput({ media })` call; the payload is the
      bytes that the source sends base64-encoded. */
  datatype Media = Media(mimeType: string, data: seq<Byte>)

  /** A handle released by `cleanup` (or by `stopPlayback`), in the order released. */
  datatype Resource =
    | FrameTimer | Connection | ScreenStream | RecorderWorklet | AudioSource
    | AudioContext | PlaybackContext

  /** An inbound service message: the parts of the model turn, then the two flags. */
  datatype InlineData = InlineData(mimeType: string, data: seq<Byte>)
  datatype Part = Part(inlineData: Option<InlineData>, text: Option<string>)
  datatype Message = Message(parts: seq<Part>, turnComplete: bool, interrupted: bool)

  /** The outcome of an awaited startup step; a failure carries the error's message. */
  datatype Step = Done | Failed(message: string)

  /** How `startMicCapture` ends: `getUserMedia` rejected before anything
      was assigned, the worklet module failed to load after `audioContext`
      was assigned, or the whole graph was connected. */
  datatype MicStep = MicDenied | WorkletLoadFailed | MicConnected

  datatype Startup = Startup(token: Step, screen: Step, mic: MicStep, connect: Step)

  /** What one run of `sendVideoFrames` does. */
  datatype Tick = Stop | Retry(delayMs: nat) | SendFrame(delayMs: nat)

  predicate StartsWith(s: string, prefix: string) {
    |prefix| <= |s| && s[..|prefix|] == prefix
  }

  /** `part.inlineData?.mimeType?.startsWith("audio/")`. */
  predicate IsAudioPart(p: Part) {
    p.inlineData.Some? && StartsWith(p.inlineData.value.mimeType, "audio/")
  }

  /** `part.text` is truthy: present and not empty. */
  predicate IsTextPart(p: Part) {
    p.text.Some? && p.text.value != ""
  }

  /** A payload the playback context can turn into a buffer: whole 16-bit
      samples, at least one of them. */
  predicate Playable(bytes: seq<Byte>) {
    |bytes| > 0 && |bytes| % 2 == 0
  }

  predicate AudioPlayable(parts: seq<Part>) {
    forall i :: 0 <= i < |parts| && IsAudioPart(parts[i]) ==> Playable(parts[i].inlineData.value.data)
  }

  ghost predicate AnyText(parts: seq<Part>) {
    exists i :: 0 <= i < |parts| && IsTextPart(parts[i])
  }

  ghost predicate AnyAudio(parts: seq<Part>) {
    exists i :: 0 <= i < |parts| && IsAudioPart(parts[i])
  }

  function CountText(parts: seq<Part>): nat {
    if parts == [] then 0
    else CountText(parts[..|parts| - 1]) + (if IsTextPart(parts[|parts| - 1]) then 1 else 0)
  }

  /** What one part of a model turn does to the transcript: an audio part
      shows the speaking marker, then a text part replaces it with the text. */
  function AfterPart(p: Panel, part: Part, time: string): Panel {
    var q := if IsAudioPart(part) then p.AddSpeaking(time) else p;
    if IsTextPart(part) then q.WithText(part.text.value, time) else q
  }

  /** The transcript after the parts of a model turn, in order. */
  function AfterParts(p: Panel, parts: seq<Part>, time: string): Panel {
    if parts == [] then p
    else AfterPart(AfterParts(p, parts[..|parts| - 1], time), parts[|parts| - 1], time)
  }

  /** The transcript after a whole server message: its parts, then
      `turnComplete` (which sees whether this turn carried text), then
      `interrupted`. */
  ghost function AfterMessage(p: Panel, msg: Message, hadText: bool, time: string): Panel {
    AfterSignals(AfterParts(p, msg.parts, time), msg, hadText || AnyText(msg.parts), time)
  }

  /** `turnComplete`, then `interrupted`, on the transcript left by the parts;
      `hadText` is the turn flag as the parts left it. */
  function AfterSignals(q: Panel, msg: Message, hadText: bool, time: string): Panel {
    var r := if msg.turnComplete then q.TurnClosed(hadText, time) else q;
    if msg.interrupted then r.Interrupted(time) else r
  }

  /** The signals add one "Feedback delivered" for a completed turn without
      text and one listening entry for an interruption, and leave no marker. */
  lemma SignalsKeeps(q: Panel, msg: Message, hadText: bool, time: string)
    requires q.Valid()
    ensures var r := AfterSignals(q, msg, hadText, time);
      && r.Valid()
      && (msg.turnComplete || msg.interrupted ==> r.marker.None? && CountKind(r.entries, Kind.Speaking) == 0)
      && forall k :: k != Kind.Speaking ==>
           CountKind(r.entries, k) == CountKind(q.entries, k)
             + (if k == System && msg.turnComplete && !hadText then 1 else 0)
             + (if k == Kind.Listening && msg.interrupted then 1 else 0)
  {
    TurnClosedKeeps(q, hadText, time);
    var r := if msg.turnComplete then q.TurnClosed(hadText, time) else q;
    InterruptedKeeps(r, time);
  }

  /** The parts of a turn keep the transcript valid, add one feedback entry
      per text part and no entry of any other visible type. */
  lemma {:induction false} PartsKeeps(p: Panel, parts: seq<Part>, time: string)
    requires p.Valid()
    ensures var r := AfterParts(p, parts, time);
      && r.Valid()
      && CountKind(r.entries, Feedback) == CountKind(p.entries, Feedback) + CountText(parts)
      && forall k :: k != Kind.Speaking && k != Feedback ==> CountKind(r.entries, k) == CountKind(p.entries, k)
  {
    if parts != [] {
      var init := parts[..|parts| - 1];
      var part := parts[|parts| - 1];
      PartsKeeps(p, init, time);
      var q := AfterParts(p, init, time);
      AddSpeakingKeeps(q, time);
      var q' := if IsAudioPart(part) then q.AddSpeaking(time) else q;
      if IsTextPart(part) {
        WithTextKeeps(q', part.text.value, time);
      }
    }
  }

  /** A whole message, type by type: one feedback entry per text part, one
      FeedbackDeliveredNote only for a completed turn without any text, one
      listening entry for an interruption, nothing else; after
      `turnComplete` or `interrupted` no speaking marker is left. */
  lemma MessageKeeps(p: Panel, msg: Message, hadText: bool, time: string)
    requires p.Valid()
    ensures var r := AfterMessage(p, msg, hadText, time);
      && r.Valid()
      && (msg.turnComplete || msg.interrupted ==> r.marker.None? && CountKind(r.entries, Kind.Speaking) == 0)
      && forall k :: k != Kind.Speaking ==>
           CountKind(r.entries, k) == CountKind(p.entries, k)
             + (if k == Feedback then CountText(msg.parts) else 0)
             + (if k == System && msg.turnComplete && !hadText && !AnyText(msg.parts) then 1 else 0)
             + (if k == Kind.Listening && msg.interrupted then 1 else 0)
  {
    PartsKeeps(p, msg.parts, time);
    SignalsKeeps(AfterParts(p, msg.parts, time), msg, hadText || AnyText(msg.parts), time);
  }

  /** The audio parts of a message as chunks handed to the scheduler at `now`. */
  function AudioArrivals(parts: seq<Part>, now: real): (arrivals: seq<Arrival>)
    requires AudioPlayable(parts)
    ensures |arrivals| <= |parts|
  {
    if parts == [] then []
    else
      var init := AudioArrivals(parts[..|parts| - 1], now);
      var p := parts[|parts| - 1];
      if IsAudioPart(p) then init + [Arrival(now, |p.inlineData.value.data| / 2)] else init
  }

  function CueStarts(cues: seq<Cue>): (starts: seq<real>)
    ensures |starts| == |cues|
  {
    seq(|cues|, i requires 0 <= i < |cues| => cues[i].start)
  }
  /** One more part extends the flags, the audio chunks and the transcript
      of the parts before it. */
  lemma PartsSnoc(p: Panel, parts: seq<Part>, i: nat, now: real, time: string)
    requires i < |parts| && AudioPlayable(parts)
    ensures AudioPlayable(parts[..i]) && AudioPlayable(parts[..i + 1])
    ensures AnyText(parts[..i + 1]) == (AnyText(parts[..i]) || IsTextPart(parts[i]))
    ensures AnyAudio(parts[..i + 1]) == (AnyAudio(parts[..i]) || IsAudioPart(parts[i]))
    ensures AudioArrivals(parts[..i + 1], now) == AudioArrivals(parts[..i], now)
      + (if IsAudioPart(parts[i]) then [Arrival(now, |parts[i].inlineData.value.data| / 2)] else [])
    ensures AfterParts(p, parts[..i + 1], time) == AfterPart(AfterParts(p, parts[..i], time), parts[i], time)
  {
    assert parts[..i + 1] == parts[..i] + [parts[i]];
    assert parts[..i + 1][..i] == parts[..i];
    if IsTextPart(parts[i]) {
      assert parts[..i + 1][i] == parts[i];
    }
    if IsAudioPart(parts[i]) {
      assert parts[..i + 1][i] == parts[i];
    }
  }

  /** Queuing one more cue adds its start to the starts of the cues queued
      after the first `k`. */
  lemma CueStartsSnoc(before: seq<Cue>, c: Cue, k: nat)
    requires k <= |before|
    ensures (before + [c])[..k] == before[..k]
    ensures CueStarts((before + [c])[k..]) == CueStarts(before[k..]) + [c.start]
  {
    assert (before + [c])[k..] == before[k..] + [c];
  }

  /** The context `initPlaybackContext` leaves: the live one, else the one
      created next. */
  function PlaybackTarget(context: Option<nat>, created: nat): (target: nat)
    ensures context.Some? ==> target == context.value
    ensures context.None? ==> target == created
  {
    if context.Some? then context.value else created
  }

  /** The cues the audio parts of a message queue on context `ctx`, the
      scheduling pointer standing at `pointer`: one per audio part, in
      order, carrying that part's decoded samples. */
  function QueuedCues(ctx: nat, pointer: real, parts: seq<Part>, now: real): (cues: seq<Cue>)
    requires AudioPlayable(parts)
    ensures |cues| == |AudioArrivals(parts, now)|
    ensures forall i :: 0 <= i < |cues| ==> cues[i].context == ctx
  {
    if parts == [] then []
    else
      var init := parts[..|parts| - 1];
      var p := parts[|parts| - 1];
      var queued := QueuedCues(ctx, pointer, init, now);
      if IsAudioPart(p) then
        queued + [Cue(ctx, StartTime(PointerAfter(pointer, AudioArrivals(init, now)), now),
                      DecodeSamples(p.inlineData.value.data))]
      else queued
  }

  /** The queued cues start exactly where the scheduler's run over the
      message's audio chunks says. */
  lemma {:induction false} QueuedCueStarts(ctx: nat, pointer: real, parts: seq<Part>, now: real)
    requires AudioPlayable(parts)
    ensures CueStarts(QueuedCues(ctx, pointer, parts, now)) == Starts(pointer, AudioArrivals(parts, now))
  {
    if parts != [] {
      var init := parts[..|parts| - 1];
      var p := parts[|parts| - 1];
      QueuedCueStarts(ctx, pointer, init, now);
      if IsAudioPart(p) {
        var a := Arrival(now, |p.inlineData.value.data| / 2);
        StartsSnoc(pointer, AudioArrivals(init, now), a);
        var queued := QueuedCues(ctx, pointer, init, now);
        var c := Cue(ctx, StartTime(PointerAfter(pointer, AudioArrivals(init, now)), now),
                     DecodeSamples(p.inlineData.value.data));
        CueStartsSnoc(queued, c, 0);
      }
    }
  }

  /** One more part queues one more cue exactly when it carries audio. */
  lemma QueuedSnoc(ctx: nat, pointer: real, parts: seq<Part>, i: nat, now: real)
    requires i < |parts| && AudioPlayable(parts)
    ensures AudioPlayable(parts[..i]) && AudioPlayable(parts[..i + 1])
    ensures QueuedCues(ctx, pointer, parts[..i + 1], now) == QueuedCues(ctx, pointer, parts[..i], now)
      + if IsAudioPart(parts[i]) then
          [Cue(ctx, StartTime(PointerAfter(pointer, AudioArrivals(parts[..i], now)), now),
               DecodeSamples(parts[i].inlineData.value.data))]
        else []
  {
    assert parts[..i + 1][..i] == parts[..i];
    assert parts[..i + 1][i] == parts[i];
  }


  /** `e?.message || e?.reason || "Unknown WebSocket error"`. */
  function ConnectionErrorText(message: Option<string>, reason: Option<string>): (text: string)
    ensures text != ""
    ensures message.Some? && message.value != "" ==> text == message.value
    ensures (message.None? || message.value == "") && reason.Some? && reason.value != "" ==> text == reason.value
    ensures (message.None? || message.value == "") && (reason.None? || reason.value == "") ==> text == UnknownErrorText
  {
    if message.Some? && message.value != "" then message.value
    else if reason.Some? && reason.value != "" then reason.value
    else UnknownErrorText
  }

  /** The decision taken by one run of `sendVideoFrames`. */
  function FrameTick(active: bool, hasScreen: bool, videoWidth: nat): (t: Tick)
    ensures t.Stop? <==> !active || !hasScreen
    ensures t.Retry? <==> active && hasScreen && videoWidth == 0
    ensures t.Retry? ==> t.delayMs == FrameRetryMs
    ensures t.SendFrame? ==> t.delayMs == FrameIntervalMs
  {
    if !active || !hasScreen then Stop
    else if videoWidth == 0 then Retry(FrameRetryMs)
    else SendFrame(FrameIntervalMs)
  }

  /** Every awaited step that can abort the startup succeeded. */
  predicate StartupSucceeds(o: Startup) {
    o.token.Done? && o.screen.Done? && o.connect.Done?
  }

  /** The message of the step that aborted the startup. */
  function StartupFailure(o: Startup): string
    requires !StartupSucceeds(o)
  {
    if o.token.Failed? then o.token.message
    else if o.screen.Failed? then o.screen.message
    else o.connect.message
  }

  function MicNote(mic: MicStep): (Kind, string) {
    if mic.MicConnected? then (System, MicConnectedNote)
    else (Kind.Error, MicDeniedNote)
  }

  /** The (type, message) pairs `startSession` writes to the cleared transcript. */
  function StartupNotes(o: Startup): (notes: seq<(Kind, string)>)
    ensures |notes| >= 2
    ensures StartupSucceeds(o) ==> |notes| == 7 && notes[5] == MicNote(o.mic)
    ensures !StartupSucceeds(o) ==> notes[|notes| - 1] == (Kind.Error, FailedPrefix + StartupFailure(o))
  {
    var asked := [(System, AuthRequested)];
    if o.token.Failed? then asked + [(Kind.Error, FailedPrefix + o.token.message)]
    else
      var screen := asked + [(System, TokenReceived), (System, ScreenRequested)];
      if o.screen.Failed? then screen + [(Kind.Error, FailedPrefix + o.screen.message)]
      else
        var connect := screen + [(System, ScreenActive), (System, MicRequested),
                                 MicNote(o.mic), (System, ConnectRequested)];
        if o.connect.Failed? then connect + [(Kind.Error, FailedPrefix + o.connect.message)]
        else connect
  }

  /** What the screen step announces: the token, the capture request and,
      once the picker has resolved, the active capture. */
  function ScreenNotes(screen: Step): (notes: seq<(Kind, string)>)
    ensures NoSpeaking(notes)
  {
    [(System, TokenReceived), (System, ScreenRequested)]
      + if screen.Done? then [(System, ScreenActive)] else []
  }

  /** What the microphone step announces: the request, then how it went. */
  function MicNotes(mic: MicStep): (notes: seq<(Kind, string)>)
    ensures NoSpeaking(notes)
  {
    [(System, MicRequested), MicNote(mic)]
  }

  /** Every entry `startSession` writes before the step that threw, if any. */
  function StartupAnnouncements(o: Startup): (notes: seq<(Kind, string)>)
    ensures NoSpeaking(notes)
  {
    var asked := [(System, AuthRequested)];
    if o.token.Failed? then asked
    else if o.screen.Failed? then asked + ScreenNotes(o.screen)
    else asked + ScreenNotes(o.screen) + MicNotes(o.mic) + [(System, ConnectRequested)]
  }

  /** The transcript `startSession` leaves before any "Failed: …" entry. */
  function StartupPanel(p: Panel, o: Startup, time: string): Panel {
    p.Cleared().AddAll(StartupAnnouncements(o), time)
  }

  /** The transcript a whole `startSession` leaves: the startup's entries,
      then "Failed: …" when a step threw. Whatever it held before, the result
      is valid and shows no speaking marker. */
  function SessionPanel(p: Panel, o: Startup, time: string): (r: Panel)
    ensures r.Valid() && r.marker.None?
  {
    if StartupSucceeds(o) then StartupPanel(p, o, time)
    else StartupPanel(p, o, time).Add(Kind.Error, FailedPrefix + StartupFailure(o), time)
  }

  /** The entries of a startup, read as (type, message) pairs, are exactly
      `StartupNotes`: nothing from before the startup survives. */
  lemma SessionPanelNotes(p: Panel, o: Startup, time: string)
    ensures Notes(SessionPanel(p, o, time).entries) == StartupNotes(o)
  {
    AddAllNotes(p.Cleared(), StartupAnnouncements(o), time);
    assert Notes(p.Cleared().entries) == [];
    if !StartupSucceeds(o) {
      var last := StartupPanel(p, o, time);
      NotesSnoc(last.entries, Entry(last.nextId, Kind.Error, FailedPrefix + StartupFailure(o), time));
    }
  }

  /** A microphone failure never aborts the startup: whatever the microphone
      does, the session comes up exactly when the other steps succeed, and
      the transcript differs only in the one microphone entry. */
  lemma MicNonFatal(o: Startup, mic: MicStep)
    ensures StartupSucceeds(o) <==> StartupSucceeds(o.(mic := mic))
    ensures var a, b := StartupNotes(o), StartupNotes(o.(mic := mic));
      |a| == |b| && forall i :: 0 <= i < |a| && i != 5 ==> a[i] == b[i]
  {
  }

  /** `new Float32Array(int16.length)` filled with `int16[i] / 32768`. */
  method ToFloatSamples(int16: seq<int>) returns (float32: array<real>)
    requires AllInt16(int16)
    ensures fresh(float32)
    ensures float32.Length == |int16|
    ensures forall i :: 0 <= i < |int16| ==> float32[i] == ToFloat(int16[i])
  {
    float32 := new real[|int16|];
    for i := 0 to |int16|
      invariant forall j :: 0 <= j < i ==> float32[j] == ToFloat(int16[j])
    {
      float32[i] := ToFloat(int16[i]);
    }
  }

  /** The one-element log of a handle released behind its null check. */
  function IfHeld(held: bool, r: Resource): (log: seq<Resource>)
    ensures log == [] <==> !held
  {
    if held then [r] else []
  }

  lemma AppendAssoc<T>(a: seq<T>, b: seq<T>, c: seq<T>)
    ensures a + (b + c) == a + b + c
  {
  }

  /** What handling the parts of a model turn touches: the transcript, the
      turn flag, the queued cues, the scheduling pointer, the orb's classes,
      the status line and the playback context with its creation count. */
  datatype Turn = Turn(panel: Panel, hadText: bool, cues: seq<Cue>, pointer: real, orb: seq<string>,
                       status: string, context: Option<nat>, created: nat)

  /** What one part does: an audio part shows the marker, opens the playback
      context if none is live, queues its samples on it at the scheduler's
      start time, moves the pointer and sets the status to `speaking`; a text
      part replaces the marker with feedback and sets the flag. */
  ghost predicate PartEffect(part: Part, now: real, time: string, t: Turn, u: Turn)
    requires IsAudioPart(part) ==> Playable(part.inlineData.value.data)
  {
    && u.hadText == (t.hadText || IsTextPart(part))
    && u.panel == AfterPart(t.panel, part, time)
    && (IsAudioPart(part) ==>
         && u.cues == t.cues + [Cue(PlaybackTarget(t.context, t.created), StartTime(t.pointer, now),
                                    DecodeSamples(part.inlineData.value.data))]
         && u.pointer == Advance(t.pointer, now, |part.inlineData.value.data| / 2)
         && u.orb == SetStatusClasses(t.orb, OrbState.Speaking) && u.status == SpeakingStatus
         && u.context == Some(PlaybackTarget(t.context, t.created))
         && u.created == (if t.context.Some? then t.created else t.created + 1))
    && (!IsAudioPart(part) ==>
         && u.cues == t.cues && u.pointer == t.pointer && u.orb == t.orb && u.status == t.status
         && u.context == t.context && u.created == t.created)
  }

  /** After the first `i` parts, starting from `s`: the flag records any
      text, the transcript is `AfterParts`, the cues queued since are
      `QueuedCues` on the one context the first audio part opened, and the
      orb and the status say `speaking` iff any audio came. */
  ghost predicate PartsDone(parts: seq<Part>, i: nat, now: real, time: string, s: Turn, t: Turn)
    requires i <= |parts| && AudioPlayable(parts)
  {
    && t.hadText == (s.hadText || AnyText(parts[..i]))
    && t.panel == AfterParts(s.panel, parts[..i], time)
    && t.cues == s.cues + QueuedCues(PlaybackTarget(s.context, s.created), s.pointer, parts[..i], now)
    && t.pointer == PointerAfter(s.pointer, AudioArrivals(parts[..i], now))
    && t.orb == (if AnyAudio(parts[..i]) then SetStatusClasses(s.orb, OrbState.Speaking) else s.orb)
    && t.status == (if AnyAudio(parts[..i]) then SpeakingStatus else s.status)
    && t.context == (if AnyAudio(parts[..i]) then Some(PlaybackTarget(s.context, s.created)) else s.context)
    && t.created == (if AnyAudio(parts[..i]) && s.context.None? then s.created + 1 else s.created)
  }

  /** One more part keeps `PartsDone`. */
  lemma PartStep(parts: seq<Part>, i: nat, now: real, time: string, s: Turn, t: Turn, u: Turn)
    requires i < |parts| && AudioPlayable(parts)
    requires PartsDone(parts, i, now, time, s, t) && PartEffect(parts[i], now, time, t, u)
    ensures PartsDone(parts, i + 1, now, time, s, u)
  {
    var part := parts[i];
    PartsSnoc(s.panel, parts, i, now, time);
    QueuedSnoc(PlaybackTarget(s.context, s.created), s.pointer, parts, i, now);
    var arrivals := AudioArrivals(parts[..i], now);
    if IsAudioPart(part) {
      StartsSnoc(s.pointer, arrivals, Arrival(now, |part.inlineData.value.data| / 2));
      SetStatusOverwrites(s.orb, OrbState.Speaking, OrbState.Speaking);
    } else {
      assert AudioArrivals(parts[..i + 1], now) == arrivals;
    }
  }

  /** The live playback context is the last one created, and every cue was
      issued on a context created before. */
  ghost predicate PlaybackOk(context: Option<nat>, created: nat, cues: seq<Cue>) {
    && (context.Some? ==> context.value + 1 == created)
    && (forall i :: 0 <= i < |cues| ==> cues[i].context < created)
  }

  class App {
    // module-level handles of app.js:4-10; true or Some when non-null
    var session: bool
    var screenStream: bool
    var audioContext: bool
    var audioRecorderWorklet: bool
    var audioSource: bool
    /** The pending `setTimeout(sendVideoFrames, d)`, by its delay. */
    var frameTimer: Option<nat>

    var isActive: bool
    var sessionStartTime: Option<int>
    var timerInterval: bool
    var lastTurnHadText: bool

    /** The playback `AudioContext`, by the number it was created under. */
    var playbackContext: Option<nat>
    var contextsCreated: nat
    var playbackScheduledTime: real
    /** Every `source.start` issued, in order. */
    var cues: seq<Cue>

    /** The transcript element's children with `currentSpeakingEntry`. */
    var panel: Panel
    /** The orb's class list and the status line. */
    var orbClasses: seq<string>
    var statusText: string

    /** Every `sendRealtimeInput` call, in order. */
    var sent: seq<Media>
    /** Every handle closed, stopped or disconnected, in order. */
    var released: seq<Resource>

    /** The transcript and playback invariants every callback keeps. */
    ghost predicate Valid()
      reads this`panel, this`playbackContext, this`contextsCreated, this`cues
    {
      panel.Valid() && PlaybackOk(playbackContext, contextsCreated, cues)
    }

    /** Outside `startSession`: an active session holds its connection and
        screen stream, and an inactive page holds no capture handle, no
        connection and no frame timer. */
    ghost predicate Settled()
      reads this`isActive, this`session, this`screenStream, this`frameTimer, this`audioRecorderWorklet,
        this`audioSource, this`audioContext
    {
      && (isActive ==> session && screenStream)
      && (!isActive ==> frameTimer.None? && !session && !screenStream
                        && !audioRecorderWorklet && !audioSource && !audioContext)
    }

    /** The handles `cleanup` releases, in the order it releases them. */
    ghost function Held(): seq<Resource>
      reads this`frameTimer, this`session, this`screenStream, this`audioRecorderWorklet, this`audioSource,
        this`audioContext, this`playbackContext
    {
      SessionHandles() + AudioHandles()
    }

    /** The first handles `cleanup` releases: the frame timer, the connection
        and the screen stream. */
    ghost function SessionHandles(): seq<Resource>
      reads this`frameTimer, this`session, this`screenStream
    {
      IfHeld(frameTimer.Some?, FrameTimer) + IfHeld(session, Connection) + IfHeld(screenStream, ScreenStream)
    }

    /** The rest: the microphone graph, its context and the playback context. */
    ghost function AudioHandles(): seq<Resource>
      reads this`audioRecorderWorklet, this`audioSource, this`audioContext, this`playbackContext
    {
      IfHeld(audioRecorderWorklet, RecorderWorklet) + IfHeld(audioSource, AudioSource)
      + IfHeld(audioContext, AudioContext) + IfHeld(playbackContext.Some?, PlaybackContext)
    }

    /** The fields the parts of a model turn touch, as one value. */
    ghost function Snapshot(): Turn
      reads this`panel, this`lastTurnHadText, this`cues, this`playbackScheduledTime, this`orbClasses,
        this`statusText, this`playbackContext, this`contextsCreated
    {
      Turn(panel, lastTurnHadText, cues, playbackScheduledTime, orbClasses, statusText, playbackContext, contextsCreated)
    }

    /** The page as loaded, with the orb's initial classes. */
    constructor (initialClasses: seq<string>)
      ensures Valid() && Settled()
      ensures !isActive && playbackContext.None? && playbackScheduledTime == 0.0 && !lastTurnHadText
      ensures panel.entries == [] && panel.marker.None?
      ensures orbClasses == initialClasses && cues == [] && sent == [] && released == []
    {
      session, screenStream, audioContext, audioRecorderWorklet, audioSource := false, false, false, false, false;
      frameTimer := None;
      isActive, sessionStartTime, timerInterval, lastTurnHadText := false, None, false, false;
      playbackContext, contextsCreated, playbackScheduledTime, cues := None, 0, 0.0, [];
      panel := Panel([], 0, None);
      orbClasses, statusText := initialClasses, "";
      sent, released := [], [];
    }

    // ---------------------------------------------------------------- playback

    method InitPlaybackContext()
      requires Valid()
      modifies this`playbackContext, this`contextsCreated
      ensures Valid()
      ensures contextsCreated > 0 && playbackContext == Some(contextsCreated - 1)
      ensures old(playbackContext).Some? ==> playbackContext == old(playbackContext) && contextsCreated == old(contextsCreated)
      ensures old(playbackContext).None? ==> contextsCreated == old(contextsCreated) + 1
    {
      if playbackContext.None? {
        playbackContext := Some(contextsCreated);
        contextsCreated := contextsCreated + 1;
      }
    }

    /** Decodes a PCM16 payload and queues it on the playback context. */
    method PlayPcm16(bytes: seq<Byte>, now: real)
      requires Valid() && Playable(bytes)
      modifies this`playbackContext, this`contextsCreated, this`playbackScheduledTime, this`cues
      ensures Valid()
      ensures contextsCreated > 0 && playbackContext == Some(contextsCreated - 1)
      ensures old(playbackContext).Some? ==> playbackContext == old(playbackContext) && contextsCreated == old(contextsCreated)
      ensures old(playbackContext).None? ==> contextsCreated == old(contextsCreated) + 1
      ensures cues == old(cues) + [Cue(playbackContext.value, StartTime(old(playbackScheduledTime), now), DecodeSamples(bytes))]
      ensures playbackScheduledTime == Advance(old(playbackScheduledTime), now, |bytes| / 2)
    {
      InitPlaybackContext();
      var int16 := DecodeLE(bytes);
      var float32 := ToFloatSamples(int16);
      assert float32[..] == DecodeSamples(bytes);
      if playbackScheduledTime < now {
        playbackScheduledTime := now + StartLead;
      }
      cues := cues + [Cue(playbackContext.value, playbackScheduledTime, float32[..])];
      playbackScheduledTime := playbackScheduledTime + Duration(float32.Length);
    }

    method StopPlayback()
      modifies this`playbackScheduledTime, this`playbackContext, this`released
      ensures playbackScheduledTime == 0.0 && playbackContext.None?
      ensures released == old(released) + IfHeld(old(playbackContext).Some?, PlaybackContext)
      ensures old(Valid()) ==> Valid()
    {
      playbackScheduledTime := 0.0;
      if playbackContext.Some? {
        released := released + [PlaybackContext];
        playbackContext := None;
      }
    }

    // -------------------------------------------------------------- transcript

    // The transcript methods state the new panel; what it keeps (validity,
    // the marker, the counts) is proved about the `Panel` functions.

    /** Appends an entry of the given type, stamped with `time`, the clock
        text the caller read from `ElapsedClock`. */
    method AddTranscriptEntry(kind: Kind, message: string, time: string)
      requires kind != Kind.Speaking
      modifies this`panel
      ensures panel == old(panel).Add(kind, message, time)
    {
      panel := panel.Add(kind, message, time);
    }

    method AddFeedbackEntry(message: string, time: string)
      modifies this`panel
      ensures panel == old(panel).Add(Feedback, message, time)
    {
      panel := panel.Add(Feedback, message, time);
    }

    /** Appends the speaking marker unless one is already shown. */
    method AddSpeakingEntry(time: string)
      modifies this`panel
      ensures panel == old(panel).AddSpeaking(time)
    {
      if panel.marker.Some? {
        return;
      }
      panel := panel.AddSpeaking(time);
    }

    /** Takes the speaking marker out of the list, wherever it is. */
    method RemoveSpeakingEntry()
      modifies this`panel
      ensures panel == old(panel).RemoveSpeaking()
    {
      if panel.marker.Some? {
        panel := panel.RemoveSpeaking();
      }
    }

    method ClearTranscript()
      modifies this`panel
      ensures panel == old(panel).Cleared()
    {
      panel := panel.Cleared();
    }

    method SetStatus(s: OrbState, text: string)
      modifies this`orbClasses, this`statusText
      ensures orbClasses == SetStatusClasses(old(orbClasses), s) && statusText == text
    {
      orbClasses := SetStatusClasses(orbClasses, s);
      statusText := text;
    }

    /** A further `setStatus` with the state already showing: only the
        status text changes. */
    method RestateStatus(ghost before: seq<string>, s: OrbState, text: string)
      requires orbClasses == SetStatusClasses(before, s)
      modifies this`orbClasses, this`statusText
      ensures orbClasses == old(orbClasses) && statusText == text
    {
      SwitchStatus(before, s, s, text);
    }

    method StartSessionTimer(clockMs: int)
      modifies this`sessionStartTime, this`timerInterval
      ensures sessionStartTime == Some(clockMs) && timerInterval
    {
      sessionStartTime := Some(clockMs);
      timerInterval := true;
    }

    /** `startSessionTimer()`, then the clock text `getElapsedTime()` gives at
        that same instant, which every startup entry carries. */
    method StartClock(clockMs: int) returns (time: string)
      modifies this`sessionStartTime, this`timerInterval
      ensures sessionStartTime == Some(clockMs) && timerInterval
      ensures time == "00:00"
    {
      StartSessionTimer(clockMs);
      time := ElapsedClock(sessionStartTime, clockMs);
      ClockAtStart(clockMs);
    }

    /** `setStatus` over a status set earlier in the same callback: the
        class list is as if only the second call had been made. */
    method SwitchStatus(ghost before: seq<string>, s1: OrbState, s2: OrbState, text: string)
      requires orbClasses == SetStatusClasses(before, s1)
      modifies this`orbClasses, this`statusText
      ensures orbClasses == SetStatusClasses(before, s2) && statusText == text
    {
      SetStatus(s2, text);
      SetStatusOverwrites(before, s1, s2);
    }

    method StopSessionTimer()
      modifies this`sessionStartTime, this`timerInterval
      ensures sessionStartTime.None? && !timerInterval
    {
      timerInterval := false;
      sessionStartTime := None;
    }

    // --------------------------------------------------------------- callbacks

    method OnOpen(clockMs: int)
      requires Valid()
      modifies this`orbClasses, this`statusText, this`panel
      ensures Valid()
      ensures orbClasses == SetStatusClasses(old(orbClasses), OrbState.Analyzing) && statusText == AnalyzingStatus
      ensures panel == old(panel).Add(Kind.Analyzing, SessionActiveNote, ElapsedClock(sessionStartTime, clockMs))
    {
      SetStatus(OrbState.Analyzing, AnalyzingStatus);
      AddTranscriptEntry(Kind.Analyzing, SessionActiveNote, ElapsedClock(sessionStartTime, clockMs));
    }

    /** An audio part: status `speaking`, the marker shown once, the chunk queued. */
    method HandleAudioPart(data: seq<Byte>, now: real, time: string)
      requires Valid() && Playable(data)
      modifies this`orbClasses, this`statusText, this`panel,
        this`playbackContext, this`contextsCreated, this`playbackScheduledTime, this`cues
      ensures Valid()
      ensures orbClasses == SetStatusClasses(old(orbClasses), OrbState.Speaking) && statusText == SpeakingStatus
      ensures panel == old(panel).AddSpeaking(time)
      ensures playbackContext == Some(PlaybackTarget(old(playbackContext), old(contextsCreated)))
      ensures contextsCreated == if old(playbackContext).Some? then old(contextsCreated) else old(contextsCreated) + 1
      ensures cues == old(cues) + [Cue(playbackContext.value, StartTime(old(playbackScheduledTime), now), DecodeSamples(data))]
      ensures playbackScheduledTime == Advance(old(playbackScheduledTime), now, |data| / 2)
    {
      SetStatus(OrbState.Speaking, SpeakingStatus);
      AddSpeakingEntry(time);
      PlayPcm16(data, now);
    }

    /** A text part: the marker goes, the text is appended as feedback, and
        the turn is marked as having carried text. */
    method HandleTextPart(text: string, time: string)
      requires Valid()
      modifies this`panel, this`lastTurnHadText
      ensures Valid() && lastTurnHadText
      ensures panel == old(panel).WithText(text, time)
    {
      RemoveSpeakingEntry();
      AddFeedbackEntry(text, time);
      lastTurnHadText := true;
    }

    /** `turnComplete`: the marker goes, "Feedback delivered" is appended
        only for a turn without text, the flag is cleared, and the status
        returns to `analyzing` only while the session is active. */
    method HandleTurnComplete(time: string)
      requires Valid()
      modifies this`panel, this`lastTurnHadText, this`orbClasses, this`statusText
      ensures Valid() && !lastTurnHadText
      ensures panel == old(panel).TurnClosed(old(lastTurnHadText), time)
      ensures isActive ==> orbClasses == SetStatusClasses(old(orbClasses), OrbState.Analyzing) && statusText == AnalyzingStatus
      ensures !isActive ==> orbClasses == old(orbClasses) && statusText == old(statusText)
    {
      RemoveSpeakingEntry();
      NoteSilentTurn(time);
      lastTurnHadText := false;
      ResumeAnalyzing();
    }

    /** "Feedback delivered" closes a turn that carried no text. */
    method NoteSilentTurn(time: string)
      modifies this`panel
      ensures panel == if lastTurnHadText then old(panel)
                       else old(panel).Add(System, FeedbackDeliveredNote, time)
    {
      if !lastTurnHadText {
        AddTranscriptEntry(System, FeedbackDeliveredNote, time);
      }
    }

    /** The orb returns to `analyzing` only while the session is active. */
    method ResumeAnalyzing()
      modifies this`orbClasses, this`statusText
      ensures isActive ==> orbClasses == SetStatusClasses(old(orbClasses), OrbState.Analyzing) && statusText == AnalyzingStatus
      ensures !isActive ==> orbClasses == old(orbClasses) && statusText == old(statusText)
    {
      if isActive {
        SetStatus(OrbState.Analyzing, AnalyzingStatus);
      }
    }

    /** `interrupted`: playback is cut (pointer to zero, the context closed
        and a new one created), the marker goes, the status becomes
        `listening` and one `listening` entry is appended. */
    method HandleInterrupted(time: string)
      requires Valid()
      modifies this`playbackScheduledTime, this`playbackContext, this`contextsCreated, this`released,
        this`panel, this`orbClasses, this`statusText
      ensures Valid()
      ensures playbackScheduledTime == 0.0
      ensures contextsCreated == old(contextsCreated) + 1 && playbackContext == Some(old(contextsCreated))
      ensures forall i :: 0 <= i < |cues| ==> cues[i].context != playbackContext.value
      ensures released == old(released) + IfHeld(old(playbackContext).Some?, PlaybackContext)
      ensures orbClasses == SetStatusClasses(old(orbClasses), OrbState.Listening) && statusText == ListeningStatus
      ensures panel == old(panel).Interrupted(time)
    {
      StopPlayback();
      InitPlaybackContext();
      RemoveSpeakingEntry();
      SetStatus(OrbState.Listening, ListeningStatus);
      AddTranscriptEntry(Kind.Listening, InterruptedNote, time);
    }

    /** One part of a model turn: its audio first, then its text. */
    method HandlePart(part: Part, now: real, time: string)
      requires Valid() && (IsAudioPart(part) ==> Playable(part.inlineData.value.data))
      modifies this`orbClasses, this`statusText, this`panel, this`lastTurnHadText,
        this`playbackContext, this`contextsCreated, this`playbackScheduledTime, this`cues
      ensures Valid()
      ensures PartEffect(part, now, time, old(Snapshot()), Snapshot())
      ensures lastTurnHadText == (old(lastTurnHadText) || IsTextPart(part))
      ensures panel == AfterPart(old(panel), part, time)
      ensures IsAudioPart(part) ==>
        && playbackContext == Some(PlaybackTarget(old(playbackContext), old(contextsCreated)))
        && contextsCreated == (if old(playbackContext).Some? then old(contextsCreated) else old(contextsCreated) + 1)
        && cues == old(cues) + [Cue(playbackContext.value, StartTime(old(playbackScheduledTime), now),
                                    DecodeSamples(part.inlineData.value.data))]
        && playbackScheduledTime == Advance(old(playbackScheduledTime), now, |part.inlineData.value.data| / 2)
        && orbClasses == SetStatusClasses(old(orbClasses), OrbState.Speaking) && statusText == SpeakingStatus
      ensures !IsAudioPart(part) ==>
        && cues == old(cues) && playbackScheduledTime == old(playbackScheduledTime)
        && orbClasses == old(orbClasses) && statusText == old(statusText)
        && playbackContext == old(playbackContext) && contextsCreated == old(contextsCreated)
    {
      if IsAudioPart(part) {
        HandleAudioPart(part.inlineData.value.data, now, time);
      }
      if IsTextPart(part) {
        HandleTextPart(part.text.value, time);
      }
    }

    /** The `for` loop of `onmessage` over the parts of the model turn: an
        audio part shows the marker and is queued, a text part replaces the
        marker with feedback and sets the turn flag. */
    method HandleParts(parts: seq<Part>, now: real, time: string)
      requires Valid() && AudioPlayable(parts)
      modifies this`orbClasses, this`statusText, this`panel, this`lastTurnHadText,
        this`playbackContext, this`contextsCreated, this`playbackScheduledTime, this`cues
      ensures Valid()
      ensures lastTurnHadText == (old(lastTurnHadText) || AnyText(parts))
      ensures panel == AfterParts(old(panel), parts, time)
      ensures cues == old(cues)
        + QueuedCues(PlaybackTarget(old(playbackContext), old(contextsCreated)), old(playbackScheduledTime), parts, now)
      ensures CueStarts(cues[|old(cues)|..]) == Starts(old(playbackScheduledTime), AudioArrivals(parts, now))
      ensures playbackScheduledTime == PointerAfter(old(playbackScheduledTime), AudioArrivals(parts, now))
      ensures orbClasses == (if AnyAudio(parts) then SetStatusClasses(old(orbClasses), OrbState.Speaking) else old(orbClasses))
      ensures statusText == (if AnyAudio(parts) then SpeakingStatus else old(statusText))
      ensures playbackContext == (if AnyAudio(parts) then Some(PlaybackTarget(old(playbackContext), old(contextsCreated)))
                                  else old(playbackContext))
      ensures contextsCreated == (if AnyAudio(parts) && old(playbackContext).None? then old(contextsCreated) + 1
                                  else old(contextsCreated))
    {
      ghost var start := Snapshot();
      for i := 0 to |parts|
        invariant Valid()
        invariant PartsDone(parts, i, now, time, start, Snapshot())
      {
        ghost var before := Snapshot();
        HandlePart(parts[i], now, time);
        PartStep(parts, i, now, time, start, before, Snapshot());
      }
      assert parts[..|parts|] == parts;
      QueuedCueStarts(PlaybackTarget(start.context, start.created), start.pointer, parts, now);
      assert cues[|start.cues|..] == QueuedCues(PlaybackTarget(start.context, start.created), start.pointer, parts, now);
    }

    /** The `onmessage` callback: each part (audio, then text), then
        `turnComplete`, then `interrupted`. */
    method OnMessage(msg: Message, now: real, clockMs: int)
      requires Valid() && AudioPlayable(msg.parts)
      modifies this`orbClasses, this`statusText, this`panel, this`lastTurnHadText,
        this`playbackContext, this`contextsCreated, this`playbackScheduledTime, this`cues, this`released
      ensures Valid()
      // the turn flag: set by any text part, cleared by turnComplete, kept by interrupted
      ensures lastTurnHadText == (!msg.turnComplete && (old(lastTurnHadText) || AnyText(msg.parts)))
      // the transcript, whose entries type by type MessageKeeps counts
      ensures panel == AfterMessage(old(panel), msg, old(lastTurnHadText), ElapsedClock(sessionStartTime, clockMs))
      // every audio part is queued, in order, with its samples, on one
      // context, on the scheduler's run
      ensures cues == old(cues)
        + QueuedCues(PlaybackTarget(old(playbackContext), old(contextsCreated)), old(playbackScheduledTime), msg.parts, now)
      ensures CueStarts(cues[|old(cues)|..]) == Starts(old(playbackScheduledTime), AudioArrivals(msg.parts, now))
      ensures !msg.interrupted ==>
        && playbackScheduledTime == PointerAfter(old(playbackScheduledTime), AudioArrivals(msg.parts, now))
        && playbackContext == (if AnyAudio(msg.parts) then Some(PlaybackTarget(old(playbackContext), old(contextsCreated)))
                               else old(playbackContext))
        && contextsCreated == (if AnyAudio(msg.parts) && old(playbackContext).None? then old(contextsCreated) + 1
                               else old(contextsCreated))
      // the interruption is handled last: it closes whichever context is live
      ensures released == old(released)
        + IfHeld(msg.interrupted && (old(playbackContext).Some? || AnyAudio(msg.parts)), PlaybackContext)
      ensures msg.interrupted ==>
        && playbackScheduledTime == 0.0
        && contextsCreated == old(contextsCreated) + (if AnyAudio(msg.parts) && old(playbackContext).None? then 1 else 0) + 1
        && playbackContext == Some(contextsCreated - 1)
        && (forall i :: 0 <= i < |cues| ==> cues[i].context != playbackContext.value)
        && orbClasses == SetStatusClasses(old(orbClasses), OrbState.Listening) && statusText == ListeningStatus
      ensures !msg.interrupted && msg.turnComplete && isActive ==>
        orbClasses == SetStatusClasses(old(orbClasses), OrbState.Analyzing) && statusText == AnalyzingStatus
      ensures !msg.interrupted && !(msg.turnComplete && isActive) ==>
        && orbClasses == (if AnyAudio(msg.parts) then SetStatusClasses(old(orbClasses), OrbState.Speaking) else old(orbClasses))
        && statusText == (if AnyAudio(msg.parts) then SpeakingStatus else old(statusText))
    {
      var time := ElapsedClock(sessionStartTime, clockMs);
      HandleParts(msg.parts, now, time);
      HandleSignals(msg, time, old(orbClasses), AnyAudio(msg.parts));
    }

    /** The end of `onmessage`, after the parts: `turnComplete`, then
        `interrupted`. The orb shows `before`, or `speaking` over it when
        `hadAudio`; either way the last `setStatus` decides the classes. */
    method HandleSignals(msg: Message, time: string, ghost before: seq<string>, ghost hadAudio: bool)
      requires Valid()
      requires orbClasses == if hadAudio then SetStatusClasses(before, OrbState.Speaking) else before
      modifies this`orbClasses, this`statusText, this`panel, this`lastTurnHadText,
        this`playbackContext, this`contextsCreated, this`playbackScheduledTime, this`released
      ensures Valid()
      ensures lastTurnHadText == (!msg.turnComplete && old(lastTurnHadText))
      ensures panel == AfterSignals(old(panel), msg, old(lastTurnHadText), time)
      ensures released == old(released) + IfHeld(msg.interrupted && old(playbackContext).Some?, PlaybackContext)
      ensures !msg.interrupted ==>
        && playbackScheduledTime == old(playbackScheduledTime)
        && playbackContext == old(playbackContext) && contextsCreated == old(contextsCreated)
      ensures msg.interrupted ==>
        && playbackScheduledTime == 0.0
        && contextsCreated == old(contextsCreated) + 1 && playbackContext == Some(old(contextsCreated))
        && (forall i :: 0 <= i < |cues| ==> cues[i].context != playbackContext.value)
        && orbClasses == SetStatusClasses(before, OrbState.Listening) && statusText == ListeningStatus
      ensures !msg.interrupted && msg.turnComplete && isActive ==>
        orbClasses == SetStatusClasses(before, OrbState.Analyzing) && statusText == AnalyzingStatus
      ensures !msg.interrupted && !(msg.turnComplete && isActive) ==>
        orbClasses == old(orbClasses) && statusText == old(statusText)
    {
      if msg.turnComplete {
        HandleTurnComplete(time);
        if hadAudio && isActive {
          SetStatusOverwrites(before, OrbState.Speaking, OrbState.Analyzing);
        }
      }
      if msg.interrupted {
        HandleInterrupted(time);
        if msg.turnComplete && isActive {
          SetStatusOverwrites(before, OrbState.Analyzing, OrbState.Listening);
        } else if hadAudio {
          SetStatusOverwrites(before, OrbState.Speaking, OrbState.Listening);
        }
      }
    }

    /** The `onerror` callback: an error entry only; the status and the
        session are left as they are. */
    method OnError(message: Option<string>, reason: Option<string>, clockMs: int)
      requires Valid()
      modifies this`panel
      ensures Valid()
      ensures panel == old(panel).Add(Kind.Error, ConnectionErrorPrefix + ConnectionErrorText(message, reason),
                                      ElapsedClock(sessionStartTime, clockMs))
    {
      AddTranscriptEntry(Kind.Error, ConnectionErrorPrefix + ConnectionErrorText(message, reason),
        ElapsedClock(sessionStartTime, clockMs));
    }

    /** The `onclose` callback: a full stop while active, nothing otherwise. */
    method OnClose()
      requires Valid() && Settled()
      modifies this`isActive, this`frameTimer, this`session, this`screenStream, this`audioRecorderWorklet,
        this`audioSource, this`audioContext, this`playbackScheduledTime, this`playbackContext, this`released,
        this`sessionStartTime, this`timerInterval, this`orbClasses, this`statusText
      ensures Valid() && Settled()
      ensures !isActive
      ensures old(isActive) ==> Held() == [] && released == old(released) + old(Held()) && playbackScheduledTime == 0.0
      ensures old(isActive) ==> sessionStartTime.None? && !timerInterval
      ensures old(isActive) ==> orbClasses == SetStatusClasses(old(orbClasses), OrbState.Idle) && statusText == EndedStatus
      ensures panel == old(panel) && cues == old(cues) && sent == old(sent) && contextsCreated == old(contextsCreated)
      ensures !old(isActive) ==> unchanged(this)
    {
      if isActive {
        StopSession();
      }
    }

    // ------------------------------------------------------- outbound media

    /** One run of `sendVideoFrames`. */
    method SendVideoFrames(videoWidth: nat, frame: seq<Byte>)
      requires Settled()
      modifies this`frameTimer, this`sent
      ensures Settled()
      ensures match FrameTick(isActive, screenStream, videoWidth)
        case Stop => frameTimer == old(frameTimer) && sent == old(sent)
        case Retry(d) => frameTimer == Some(d) && sent == old(sent)
        case SendFrame(d) => frameTimer == Some(d) && sent == old(sent) + [Media(ImageMime, frame)]
    {
      var tick := FrameTick(isActive, screenStream, videoWidth);
      match tick
      case Stop =>
        return;
      case Retry(d) =>
        frameTimer := Some(d);
      case SendFrame(d) =>
        if session {
          sent := sent + [Media(ImageMime, frame)];
        }
        frameTimer := Some(d);
    }

    /** The recorder worklet's `port.onmessage`: a posted chunk goes out as
        little-endian PCM while the session is active and connected. */
    method OnRecorderChunk(int16: seq<int>)
      requires AllInt16(int16)
      modifies this`sent
      ensures isActive && session ==> sent == old(sent) + [Media(AudioMime, EncodeLE(int16))]
      ensures !(isActive && session) ==> sent == old(sent)
    {
      if !isActive || !session {
        return;
      }
      sent := sent + [Media(AudioMime, EncodeLE(int16))];
    }

    // ------------------------------------------------------------- lifecycle

    /** `clearTimeout(frameTimer)` behind its null check. */
    method ClearFrameTimer()
      modifies this`frameTimer, this`released
      ensures !(frameTimer.Some?)
      ensures released == old(released) + IfHeld(old(frameTimer.Some?), FrameTimer)
    {
      if frameTimer.Some? {
        released := released + [FrameTimer];
        frameTimer := None;
      }
    }

    /** `session.close()` behind its null check. */
    method CloseSession()
      modifies this`session, this`released
      ensures !(session)
      ensures released == old(released) + IfHeld(old(session), Connection)
    {
      if session {
        released := released + [Connection];
        session := false;
      }
    }

    /** Stops the screen tracks behind the null check. */
    method StopScreenStream()
      modifies this`screenStream, this`released
      ensures !(screenStream)
      ensures released == old(released) + IfHeld(old(screenStream), ScreenStream)
    {
      if screenStream {
        released := released + [ScreenStream];
        screenStream := false;
      }
    }

    /** Disconnects the recorder worklet node behind its null check. */
    method DisconnectRecorder()
      modifies this`audioRecorderWorklet, this`released
      ensures !(audioRecorderWorklet)
      ensures released == old(released) + IfHeld(old(audioRecorderWorklet), RecorderWorklet)
    {
      if audioRecorderWorklet {
        released := released + [RecorderWorklet];
        audioRecorderWorklet := false;
      }
    }

    /** Disconnects the microphone source behind its null check. */
    method DisconnectSource()
      modifies this`audioSource, this`released
      ensures !(audioSource)
      ensures released == old(released) + IfHeld(old(audioSource), AudioSource)
    {
      if audioSource {
        released := released + [AudioSource];
        audioSource := false;
      }
    }

    /** Closes the capture `AudioContext` behind its null check. */
    method CloseAudioContext()
      modifies this`audioContext, this`released
      ensures !(audioContext)
      ensures released == old(released) + IfHeld(old(audioContext), AudioContext)
    {
      if audioContext {
        released := released + [AudioContext];
        audioContext := false;
      }
    }

    /** Releases every handle that is held, each behind its own null check,
        in the order of the source, and resets playback. */
    method Cleanup()
      modifies this`frameTimer, this`session, this`screenStream, this`audioRecorderWorklet, this`audioSource,
        this`audioContext, this`playbackScheduledTime, this`playbackContext, this`released
      ensures frameTimer.None? && !session && !screenStream && !audioRecorderWorklet && !audioSource && !audioContext
      ensures playbackContext.None? && Held() == [] && playbackScheduledTime == 0.0
      ensures released == old(released) + old(Held())
    {
      AppendAssoc(released, SessionHandles(), AudioHandles());
      ReleaseSessionHandles();
      ReleaseAudioHandles();
    }

    /** `cleanup` twice in a row: the second run finds nothing held and
        releases nothing, so the page ends as after one run. */
    method CleanupTwice()
      modifies this`frameTimer, this`session, this`screenStream, this`audioRecorderWorklet, this`audioSource,
        this`audioContext, this`playbackScheduledTime, this`playbackContext, this`released
      ensures frameTimer.None? && !session && !screenStream && !audioRecorderWorklet && !audioSource && !audioContext
      ensures playbackContext.None? && Held() == [] && playbackScheduledTime == 0.0
      ensures released == old(released) + old(Held())
    {
      Cleanup();
      Cleanup();
    }

    /** The first three steps of `cleanup`. */
    method ReleaseSessionHandles()
      modifies this`frameTimer, this`session, this`screenStream, this`released
      ensures frameTimer.None? && !session && !screenStream
      ensures released == old(released) + old(SessionHandles())
    {
      AppendAssoc(released, IfHeld(frameTimer.Some?, FrameTimer) + IfHeld(session, Connection), IfHeld(screenStream, ScreenStream));
      AppendAssoc(released, IfHeld(frameTimer.Some?, FrameTimer), IfHeld(session, Connection));
      ClearFrameTimer();
      CloseSession();
      StopScreenStream();
    }

    /** The last four steps of `cleanup`. */
    method ReleaseAudioHandles()
      modifies this`audioRecorderWorklet, this`audioSource, this`audioContext, this`playbackScheduledTime,
        this`playbackContext, this`released
      ensures !audioRecorderWorklet && !audioSource && !audioContext
      ensures playbackContext.None? && playbackScheduledTime == 0.0
      ensures released == old(released) + old(AudioHandles())
    {
      var recorder, source := IfHeld(audioRecorderWorklet, RecorderWorklet), IfHeld(audioSource, AudioSource);
      AppendAssoc(released, recorder + source + IfHeld(audioContext, AudioContext), IfHeld(playbackContext.Some?, PlaybackContext));
      AppendAssoc(released, recorder + source, IfHeld(audioContext, AudioContext));
      AppendAssoc(released, recorder, source);
      DisconnectRecorder();
      DisconnectSource();
      CloseAudioContext();
      StopPlayback();
    }

    method StopSession()
      modifies this`isActive, this`frameTimer, this`session, this`screenStream, this`audioRecorderWorklet,
        this`audioSource, this`audioContext, this`playbackScheduledTime, this`playbackContext, this`released,
        this`sessionStartTime, this`timerInterval, this`orbClasses, this`statusText
      ensures !isActive && Held() == [] && playbackScheduledTime == 0.0
      ensures released == old(released) + old(Held())
      ensures sessionStartTime.None? && !timerInterval
      ensures orbClasses == SetStatusClasses(old(orbClasses), OrbState.Idle) && statusText == EndedStatus
      ensures old(Valid()) ==> Valid()
      ensures panel == old(panel) && cues == old(cues) && sent == old(sent) && contextsCreated == old(contextsCreated)
    {
      isActive := false;
      Cleanup();
      ShowStopped();
    }

    /** The end of `stopSession` after `cleanup`: the timer stops and the
        orb goes idle. */
    method ShowStopped()
      modifies this`sessionStartTime, this`timerInterval, this`orbClasses, this`statusText
      ensures sessionStartTime.None? && !timerInterval
      ensures orbClasses == SetStatusClasses(old(orbClasses), OrbState.Idle) && statusText == EndedStatus
    {
      StopSessionTimer();
      SetStatus(OrbState.Idle, EndedStatus);
    }

    /** `startScreenCapture`: the stream is assigned only when the picker
        resolves. */
    method StartScreenCapture(step: Step)
      modifies this`screenStream
      ensures screenStream == (old(screenStream) || step.Done?)
    {
      if step.Done? {
        screenStream := true;
      }
    }

    /** `startMicCapture`: the capture context is assigned once the
        microphone is granted, the source and the worklet node only once
        the worklet module has loaded. */
    method StartMicCapture(mic: MicStep)
      modifies this`audioContext, this`audioSource, this`audioRecorderWorklet
      ensures audioContext == (old(audioContext) || !mic.MicDenied?)
      ensures audioSource == (old(audioSource) || mic.MicConnected?)
      ensures audioRecorderWorklet == (old(audioRecorderWorklet) || mic.MicConnected?)
    {
      if !mic.MicDenied? {
        audioContext := true;
      }
      if mic.MicConnected? {
        audioSource, audioRecorderWorklet := true, true;
      }
    }

    /** `connectToGemini`: the session is assigned only when the connection
        resolves. */
    method ConnectToGemini(step: Step)
      modifies this`session
      ensures session == (old(session) || step.Done?)
    {
      if step.Done? {
        session := true;
      }
    }

    /** `addTranscriptEntry` during the startup, where the entries written
        since `start` are the notes `said`. */
    method Announce(ghost start: Panel, ghost said: seq<(Kind, string)>, kind: Kind, message: string, time: string)
      requires NoSpeaking(said) && kind != Kind.Speaking
      requires panel == start.AddAll(said, time)
      modifies this`panel
      ensures panel == start.AddAll(said + [(kind, message)], time)
    {
      AddTranscriptEntry(kind, message, time);
      AddAllSnoc(start, said, (kind, message), time);
    }

    /** `startSession` up to the token request: the transcript is cleared and
        the request announced. */
    method BeginStartup(time: string)
      modifies this`panel, this`orbClasses, this`statusText
      ensures panel == old(panel).Cleared().AddAll([(System, AuthRequested)], time)
      ensures orbClasses == SetStatusClasses(old(orbClasses), OrbState.Connecting)
      ensures statusText == GettingTokenStatus
    {
      ClearTranscript();
      SetStatus(OrbState.Connecting, GettingTokenStatus);
      Announce(old(panel).Cleared(), [], System, AuthRequested, time);
    }

    /** From the received token through `startScreenCapture`: "Screen
        capture active" only once the picker has resolved. */
    method ScreenStep(ghost before: seq<string>, screen: Step, time: string)
      requires orbClasses == SetStatusClasses(before, OrbState.Connecting)
      modifies this`panel, this`orbClasses, this`statusText, this`screenStream
      ensures panel == old(panel).AddAll(ScreenNotes(screen), time)
      ensures orbClasses == old(orbClasses) && statusText == ScreenRequested
      ensures screenStream == (old(screenStream) || screen.Done?)
    {
      Announce(old(panel), [], System, TokenReceived, time);
      RestateStatus(before, OrbState.Connecting, ScreenRequested);
      Announce(old(panel), [(System, TokenReceived)], System, ScreenRequested, time);
      StartScreenCapture(screen);
      if screen.Done? {
        Announce(old(panel), [(System, TokenReceived), (System, ScreenRequested)],
          System, ScreenActive, time);
      }
    }

    /** The microphone block: whatever `startMicCapture` does, one entry says
        how it went and the startup goes on. */
    method MicrophoneStep(ghost before: seq<string>, mic: MicStep, time: string)
      requires orbClasses == SetStatusClasses(before, OrbState.Connecting)
      modifies this`panel, this`orbClasses, this`statusText, this`audioContext, this`audioSource,
        this`audioRecorderWorklet
      ensures panel == old(panel).AddAll(MicNotes(mic), time)
      ensures orbClasses == old(orbClasses) && statusText == RequestingMicStatus
      ensures audioContext == (old(audioContext) || !mic.MicDenied?)
      ensures audioSource == (old(audioSource) || mic.MicConnected?)
      ensures audioRecorderWorklet == (old(audioRecorderWorklet) || mic.MicConnected?)
    {
      RestateStatus(before, OrbState.Connecting, RequestingMicStatus);
      Announce(old(panel), [], System, MicRequested, time);
      StartMicCapture(mic);
      Announce(old(panel), [(System, MicRequested)], MicNote(mic).0, MicNote(mic).1, time);
    }

    /** The announcement before `connectToGemini`, then the connection. */
    method ConnectStep(ghost before: seq<string>, connect: Step, time: string)
      requires orbClasses == SetStatusClasses(before, OrbState.Connecting)
      modifies this`panel, this`orbClasses, this`statusText, this`session
      ensures panel == old(panel).AddAll([(System, ConnectRequested)], time)
      ensures orbClasses == old(orbClasses) && statusText == ConnectingStatus
      ensures session == (old(session) || connect.Done?)
    {
      RestateStatus(before, OrbState.Connecting, ConnectingStatus);
      Announce(old(panel), [], System, ConnectRequested, time);
      ConnectToGemini(connect);
    }

    /** The body of `startSession`'s `try` up to `connectToGemini`: the
        transcript is cleared and each step is announced before it runs;
        returns the message of the step that threw, if any. Every entry
        carries `time`, the clock text read when the startup began. */
    method RunStartupSteps(o: Startup, time: string) returns (failure: Option<string>)
      requires !session && !screenStream && !audioContext && !audioSource && !audioRecorderWorklet
      modifies this`panel, this`orbClasses, this`statusText, this`screenStream, this`audioContext,
        this`audioSource, this`audioRecorderWorklet, this`session
      ensures panel == StartupPanel(old(panel), o, time)
      ensures failure.None? <==> StartupSucceeds(o)
      ensures failure.Some? ==> failure.value == StartupFailure(o)
      ensures screenStream == (o.token.Done? && o.screen.Done?)
      ensures session == StartupSucceeds(o)
      ensures audioContext == (o.token.Done? && o.screen.Done? && !o.mic.MicDenied?)
      ensures audioSource == (o.token.Done? && o.screen.Done? && o.mic.MicConnected?)
      ensures audioRecorderWorklet == audioSource
      ensures orbClasses == SetStatusClasses(old(orbClasses), OrbState.Connecting)
      ensures failure.None? ==> statusText == ConnectingStatus
    {
      ghost var cleared := panel.Cleared();
      ghost var said := [(System, AuthRequested)];
      BeginStartup(time);
      if o.token.Failed? {
        failure := Some(o.token.message);
      } else {
        ScreenStep(old(orbClasses), o.screen, time);
        AddAllAppend(cleared, said, ScreenNotes(o.screen), time);
        said := said + ScreenNotes(o.screen);
        if o.screen.Failed? {
          failure := Some(o.screen.message);
        } else {
          MicrophoneStep(old(orbClasses), o.mic, time);
          AddAllAppend(cleared, said, MicNotes(o.mic), time);
          said := said + MicNotes(o.mic);
          ConnectStep(old(orbClasses), o.connect, time);
          AddAllAppend(cleared, said, [(System, ConnectRequested)], time);
          said := said + [(System, ConnectRequested)];
          failure := if o.connect.Failed? then Some(o.connect.message) else None;
        }
      }

    }

    /** `startSession`: token, screen, microphone (best effort) and
        connection, in that order; the first failure of a step other than the
        microphone unwinds everything. */
    method StartSession(o: Startup, clockMs: int, videoWidth: nat, frame: seq<Byte>)
      requires Valid() && Settled() && !isActive
      modifies this`isActive, this`session, this`screenStream, this`audioContext, this`audioSource,
        this`audioRecorderWorklet, this`frameTimer, this`sessionStartTime, this`timerInterval, this`orbClasses,
        this`statusText, this`panel, this`sent, this`playbackScheduledTime, this`playbackContext, this`released
      ensures Valid() && Settled()
      ensures isActive <==> StartupSucceeds(o)
      ensures panel == SessionPanel(old(panel), o, "00:00") && cues == old(cues)
      ensures StartupSucceeds(o) ==>
        && session && screenStream
        && audioContext == !o.mic.MicDenied?
        && audioSource == o.mic.MicConnected? && audioRecorderWorklet == o.mic.MicConnected?
        && sessionStartTime == Some(clockMs) && timerInterval
        && orbClasses == SetStatusClasses(old(orbClasses), OrbState.Connecting) && statusText == ConnectingStatus
        && frameTimer == Some(if videoWidth == 0 then FrameRetryMs else FrameIntervalMs)
        && sent == old(sent) + (if videoWidth == 0 then [] else [Media(ImageMime, frame)])
      ensures !StartupSucceeds(o) ==>
        && Held() == [] && playbackScheduledTime == 0.0
        && sessionStartTime.None? && !timerInterval
        && orbClasses == SetStatusClasses(old(orbClasses), OrbState.Error) && statusText == FailedStatus
        && sent == old(sent)
    {
      var stamp := StartClock(clockMs);
      RunStartup(o, stamp, videoWidth, frame);
    }

    /** `startSession` once the timer runs: the `try` block, then either the
        live session or the `catch`. Every entry carries `time`. */
    method RunStartup(o: Startup, time: string, videoWidth: nat, frame: seq<Byte>)
      requires Valid() && Settled() && !isActive && timerInterval
      modifies this`isActive, this`session, this`screenStream, this`audioContext, this`audioSource,
        this`audioRecorderWorklet, this`frameTimer, this`sessionStartTime, this`timerInterval, this`orbClasses,
        this`statusText, this`panel, this`sent, this`playbackScheduledTime, this`playbackContext, this`released
      ensures isActive <==> StartupSucceeds(o)
      ensures panel == SessionPanel(old(panel), o, time) && cues == old(cues)
      ensures StartupSucceeds(o) ==>
        && session && screenStream
        && audioContext == !o.mic.MicDenied?
        && audioSource == o.mic.MicConnected? && audioRecorderWorklet == o.mic.MicConnected?
        && playbackContext == old(playbackContext)
        && sessionStartTime == old(sessionStartTime) && timerInterval
        && orbClasses == SetStatusClasses(old(orbClasses), OrbState.Connecting) && statusText == ConnectingStatus
        && frameTimer == Some(if videoWidth == 0 then FrameRetryMs else FrameIntervalMs)
        && sent == old(sent) + (if videoWidth == 0 then [] else [Media(ImageMime, frame)])
      ensures !StartupSucceeds(o) ==>
        && frameTimer.None? && !session && !screenStream && !audioRecorderWorklet && !audioSource && !audioContext
        && playbackContext.None? && playbackScheduledTime == 0.0
        && sessionStartTime.None? && !timerInterval
        && orbClasses == SetStatusClasses(old(orbClasses), OrbState.Error) && statusText == FailedStatus
        && sent == old(sent)
    {
      var failure := RunStartupSteps(o, time);
      if failure.None? {
        GoLive(videoWidth, frame);
      } else {
        AbortStartup(old(orbClasses), failure.value, time);
      }
      assert cues == old(cues) && contextsCreated == old(contextsCreated);
    }

    /** The end of `startSession`'s `try`: the session is active and the
        frame loop runs its first tick. */
    method GoLive(videoWidth: nat, frame: seq<Byte>)
      requires session && screenStream
      modifies this`isActive, this`frameTimer, this`sent
      ensures isActive
      ensures frameTimer == Some(if videoWidth == 0 then FrameRetryMs else FrameIntervalMs)
      ensures sent == old(sent) + (if videoWidth == 0 then [] else [Media(ImageMime, frame)])
    {
      isActive := true;
      SendVideoFrames(videoWidth, frame);
    }

    /** The `catch` of `startSession`: the error status, the "Failed: …"
        entry, the timer stopped and every handle released. */
    method AbortStartup(ghost before: seq<string>, message: string, time: string)
      requires orbClasses == SetStatusClasses(before, OrbState.Connecting)
      modifies this`orbClasses, this`statusText, this`panel, this`sessionStartTime, this`timerInterval,
        this`frameTimer, this`session, this`screenStream, this`audioRecorderWorklet, this`audioSource,
        this`audioContext, this`playbackScheduledTime, this`playbackContext, this`released
      ensures orbClasses == SetStatusClasses(before, OrbState.Error) && statusText == FailedStatus
      ensures panel == old(panel).Add(Kind.Error, FailedPrefix + message, time)
      ensures sessionStartTime.None? && !timerInterval
      ensures frameTimer.None? && !session && !screenStream && !audioRecorderWorklet && !audioSource && !audioContext
      ensures playbackContext.None? && playbackScheduledTime == 0.0
      ensures released == old(released) + old(Held())
    {
      SwitchStatus(before, OrbState.Connecting, OrbState.Error, FailedStatus);
      AddTranscriptEntry(Kind.Error, FailedPrefix + message, time);
      StopSessionTimer();
      Cleanup();
    }
  }

  /** The interrupted-first scenario: a session comes up, the service
      interrupts before any audio, and the page is listening with one
      `listening` entry and no speaking marker. */
  method InterruptBeforeAudio(clockMs: int, now: real) returns (app: App)
    ensures app.isActive
    ensures CountKind(app.panel.entries, Kind.Listening) == 1
    ensures CountKind(app.panel.entries, Kind.Speaking) == 0 && app.panel.marker.None?
    ensures app.orbClasses == [StateClass(OrbState.Listening)] && app.statusText == ListeningStatus
  {
    app := StartedSession(clockMs);
    ghost var started := app.panel;
    var msg := Message([], false, true);
    app.OnMessage(msg, now, clockMs);
    MessageKeeps(started, msg, false, ElapsedClock(app.sessionStartTime, clockMs));
  }

  /** A fresh page whose startup succeeded: connecting, no listening entry. */
  method StartedSession(clockMs: int) returns (app: App)
    ensures fresh(app) && app.Valid() && app.isActive
    ensures CountKind(app.panel.entries, Kind.Listening) == 0
    ensures app.orbClasses == SetStatusClasses([], OrbState.Connecting)
  {
    app := new App([]);
    var o := Startup(Done, Done, MicConnected, Done);
    ghost var blank := app.panel;
    app.StartSession(o, clockMs, 1280, []);
    SessionPanelNotes(blank, o, "00:00");
    NoListeningAtStartup(app.panel.entries, o);
  }

  lemma NoListeningAtStartup(t: seq<Entry>, o: Startup)
    requires Notes(t) == StartupNotes(o)
    ensures CountKind(t, Kind.Listening) == 0
  {
    forall i | 0 <= i < |t| ensures t[i].kind != Kind.Listening {
      assert Notes(t)[i].0 == t[i].kind;
    }
    NoneOfKind(t, Kind.Listening);
  }
}
