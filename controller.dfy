/** The session controller of App.tsx as values: one record holding every
    ref and state variable the handlers touch, and one function per handler
    giving the record after it runs. Each handler runs to completion on the
    single-threaded event loop, so each is one step. Hardware and network
    handles are kept only as "held" flags; the frames handed to the
    transport are kept as a log. */
module Controller {
  import opened Types
  import opened Transcript
  import opened Metering
  import opened Playback

  /** Outcome of the awaited audio setup in startConversation: resuming the
      two audio contexts and the microphone request. A denial carries the
      thrown error's message (possibly empty). */
  datatype Grant = Granted | Denied(message: string)

  /** The parts of a server message the controller reads: the inline audio
      of the model turn's first part, the input and output transcription
      fragments, and the turn-complete and interrupted flags. `partsMissing`
      marks a model turn without a parts list: indexing it throws a
      TypeError before anything else in the handler runs. */
  datatype ServerMessage = ServerMessage(
    partsMissing: bool,
    audio: Option<string>,
    inputTranscription: Option<string>,
    outputTranscription: Option<string>,
    turnComplete: bool,
    interrupted: bool)
  {
    /** The audio payload is present and non-empty (a truthy string). */
    predicate HasAudio() {
      audio.Some? && audio.value != ""
    }
  }

  /** The text a transcription fragment adds to its buffer. */
  function FragmentText(fragment: Option<string>): string {
    if fragment.Some? then fragment.value else ""
  }

  const MissingKeyMessage: string := "Missing API Key. Check Environment."
  const ConnectionFailedMessage: string := "Connection failed."
  const SessionFailedMessage: string := "Session failed. Retrying..."

  /** Which external resources are held: the live session, the capture
      script processor, the microphone stream, the input and output audio
      contexts and the video frame timer. */
  datatype Handles = Handles(session: bool, processor: bool, mic: bool, inContext: bool, outContext: bool, frameTimer: bool)

  const NoHandles: Handles := Handles(false, false, false, false, false, false)

  /** The in-progress transcription of the current turn, one buffer per
      speaker. */
  datatype Buffers = Buffers(user: string, ayara: string)

  const EmptyBuffers: Buffers := Buffers("", "")

  /** Everything the handlers read or write. `created` counts the playback
      source nodes created so far and gives each node its serial number;
      `stopped` holds every node stop() has been called on. */
  datatype State = State(
    status: ConnectionStatus,
    errorMessage: Option<string>,
    isConnecting: bool,
    muted: bool,
    handles: Handles,
    sources: set<Source>,
    nextStartTime: Seconds,
    speaking: bool,
    created: nat,
    stopped: set<Source>,
    listening: bool,
    outbox: seq<seq<real>>,
    buffers: Buffers,
    history: seq<TranscriptionEntry>)

  /** The component as first mounted. */
  const Initial: State := State(Idle, None, false, false, NoHandles, {}, 0.0, false, 0, {}, false, [], EmptyBuffers, [])

  /** Every history entry is non-empty and trimmed. */
  predicate HistoryWellFormed(history: seq<TranscriptionEntry>) {
    forall e | e in history :: e.text != [] && IsTrimmed(e.text)
  }

  /** Two playing sources do not overlap in time. */
  predicate Disjoint(p: Source, q: Source) {
    p.End() <= q.start || q.End() <= p.start
  }

  /** The invariant every handler keeps:
      - the ERROR status never outlives a handler (teardown follows it);
      - the microphone is muted only while connected;
      - while any source is playing, the agent is shown speaking;
      - every playing source was numbered when created and ends by the
        scheduling watermark, and two distinct playing sources have
        distinct numbers and do not overlap in time;
      - the history holds only non-empty trimmed entries. */
  predicate ValidState(s: State) {
    && s.status != Error
    && (s.muted ==> s.status == Connected)
    && (s.sources != {} ==> s.speaking)
    && (forall p | p in s.sources :: p.id < s.created && p.End() <= s.nextStartTime)
    && (forall p, q | p in s.sources && q in s.sources && p != q :: p.id != q.id && Disjoint(p, q))
    && HistoryWellFormed(s.history)
  }

  /** Everything released and every indicator reset. */
  predicate TornDown(s: State) {
    && s.status == Idle && !s.isConnecting && !s.muted
    && s.handles == NoHandles
    && s.sources == {} && s.nextStartTime == 0.0 && !s.speaking
    && !s.listening
  }

  /** `t` has the same node count, sent frames, transcript buffers and
      history as `s`: the records teardown keeps. */
  predicate SameRecords(s: State, t: State) {
    t.created == s.created && t.outbox == s.outbox && t.buffers == s.buffers && t.history == s.history
  }

  /** `t` has the same playback scheduler state as `s`. */
  predicate SameScheduler(s: State, t: State) {
    && t.sources == s.sources && t.stopped == s.stopped
    && t.nextStartTime == s.nextStartTime && t.speaking == s.speaking && t.created == s.created
  }

  /** The initial state is valid and torn down. */
  lemma InitialIsValid()
    ensures ValidState(Initial) && TornDown(Initial)
  {
  }

  /** toggleMute: flips the mute flag while connected; in any other status
      nothing changes. */
  function MuteToggled(s: State): (t: State)
    ensures ValidState(s) ==> ValidState(t)
    ensures s.status == Connected ==> t.muted == !s.muted
    ensures s.status != Connected ==> t == s
    ensures t.(muted := s.muted) == s
  {
    if s.status == Connected then s.(muted := !s.muted) else s
  }

  /** Toggling twice restores the state. */
  lemma ToggleTwice(s: State)
    ensures MuteToggled(MuteToggled(s)) == s
  {
  }

  /** cleanup: closes the session, stops and forgets every playing source,
      resets the watermark, disconnects the processor, stops the microphone,
      closes both audio contexts, clears the frame timer and resets status
      and indicators. Each step tolerates its handle being absent already.
      The error message, the transcript and the frames already sent are
      kept. On a torn-down state it changes nothing. */
  function Teardown(s: State): (t: State)
    ensures TornDown(t)
    ensures t.stopped == s.stopped + s.sources
    ensures t.errorMessage == s.errorMessage && SameRecords(s, t)
    ensures HistoryWellFormed(s.history) ==> ValidState(t)
    ensures TornDown(s) ==> t == s
  {
    s.(status := Idle, isConnecting := false, muted := false, handles := NoHandles,
       sources := {}, stopped := s.stopped + s.sources, nextStartTime := 0.0,
       speaking := false, listening := false)
  }

  /** Running cleanup twice is the same as running it once. */
  lemma TeardownIdempotent(s: State)
    ensures Teardown(Teardown(s)) == Teardown(s)
  {
  }

  /** The failure path shared by startConversation's catch and onerror: the
      status is set to ERROR and the message shown, then cleanup runs, so
      the state ends IDLE with the message still set. */
  function Failed(s: State, message: string): (t: State)
    ensures TornDown(t) && t.status == Idle
    ensures t.stopped == s.stopped + s.sources
    ensures t.errorMessage == Some(message) && SameRecords(s, t)
    ensures HistoryWellFormed(s.history) ==> ValidState(t)
  {
    Teardown(s.(status := Error, errorMessage := Some(message)))
  }

  /** The message a failed start shows: the missing-credential message, the
      thrown error's message, or the fallback when that is empty. */
  function StartFailureMessage(apiKeyPresent: bool, audio: Grant): (m: string)
    requires !apiKeyPresent || audio.Denied?
    ensures m != ""
    ensures !apiKeyPresent ==> m == MissingKeyMessage
    ensures apiKeyPresent ==> m == audio.message || (audio.message == "" && m == ConnectionFailedMessage)
  {
    if !apiKeyPresent then MissingKeyMessage
    else if audio.message != "" then audio.message
    else ConnectionFailedMessage
  }

  /** startConversation, with whether the credential is configured and the
      outcome of the awaited audio setup as inputs.
      - While connecting or connected it is a no-op.
      - A missing credential fails before any audio context or microphone is
        requested, and a denied setup fails too; either failure ends torn
        down, with the message shown and the records kept.
      - Otherwise the status is CONNECTING, the error message is cleared,
        the session, microphone and both contexts are held, and, because of
        the finally clause, the re-entrancy flag is already clear before the
        session opens. */
  function Started(s: State, apiKeyPresent: bool, audio: Grant): (t: State)
    ensures ValidState(s) ==> ValidState(t)
    ensures s.isConnecting || s.status == Connected ==> t == s
    ensures !(s.isConnecting || s.status == Connected) && (!apiKeyPresent || audio.Denied?) ==>
      && TornDown(t)
      && t.stopped == s.stopped + s.sources
      && t.errorMessage == Some(StartFailureMessage(apiKeyPresent, audio))
      && SameRecords(s, t)
    ensures !(s.isConnecting || s.status == Connected) && apiKeyPresent && audio.Granted? ==>
      && t.status == Connecting && !t.isConnecting && t.errorMessage == None
      && t.handles == s.handles.(session := true, mic := true, inContext := true, outContext := true)
      && t.(status := s.status, errorMessage := s.errorMessage, handles := s.handles) == s
  {
    if s.isConnecting || s.status == Connected then s
    else
      var s1 := s.(isConnecting := true, errorMessage := None, status := Connecting);
      var s2 :=
        if !apiKeyPresent then Failed(s1, MissingKeyMessage)
        else
          var s3 := s1.(handles := s1.handles.(inContext := true, outContext := true));
          match audio
          case Denied(message) => Failed(s3, if message != "" then message else ConnectionFailedMessage)
          case Granted => s3.(handles := s3.handles.(mic := true, session := true));
      s2.(isConnecting := false)
  }

  /** A missing credential fails fast: the outcome does not depend on the
      audio setup, which is never attempted. */
  lemma MissingKeyFailsFast(s: State, a1: Grant, a2: Grant)
    ensures Started(s, false, a1) == Started(s, false, a2)
  {
  }

  /** onopen: the session is connected and the capture processor is
      attached; nothing else changes. */
  function Opened(s: State): (t: State)
    ensures ValidState(s) ==> ValidState(t)
    ensures t.status == Connected && !t.isConnecting
    ensures t.handles == s.handles.(processor := true)
    ensures t.(status := s.status, isConnecting := s.isConnecting, handles := s.handles) == s
  {
    s.(status := Connected, isConnecting := false, handles := s.handles.(processor := true))
  }

  /** onaudioprocess: a muted frame sends nothing and clears the listening
      indicator; any other frame is sent and sets the indicator to the
      threshold test on its mean absolute sample. */
  function FrameCaptured(s: State, frame: seq<real>): (t: State)
    ensures ValidState(s) ==> ValidState(t)
    ensures s.muted ==> !t.listening && t.outbox == s.outbox
    ensures !s.muted ==> t.listening == Listening(frame) && t.outbox == s.outbox + [frame]
    ensures t.(listening := s.listening, outbox := s.outbox) == s
  {
    if s.muted then s.(listening := false)
    else s.(outbox := s.outbox + [frame], listening := Listening(frame))
  }

  /** A run of capture callbacks, one per frame, in order. */
  function FramesCaptured(s: State, frames: seq<seq<real>>): State
    decreases |frames|
  {
    if frames == [] then s else FramesCaptured(FrameCaptured(s, frames[0]), frames[1..])
  }

  /** While muted, a run of frames sends nothing and leaves the indicator
      off once at least one frame has arrived. */
  lemma {:induction false} MutedRunSendsNothing(s: State, frames: seq<seq<real>>)
    requires s.muted
    ensures FramesCaptured(s, frames).outbox == s.outbox
    ensures frames != [] ==> !FramesCaptured(s, frames).listening
    decreases |frames|
  {
    if frames != [] {
      MutedRunSendsNothing(FrameCaptured(s, frames[0]), frames[1..]);
    }
  }

  /** While unmuted, every frame of a run is sent exactly once, in order. */
  lemma {:induction false} UnmutedRunSendsAll(s: State, frames: seq<seq<real>>)
    requires !s.muted
    ensures FramesCaptured(s, frames).outbox == s.outbox + frames
    decreases |frames|
  {
    if frames != [] {
      var s1 := FrameCaptured(s, frames[0]);
      UnmutedRunSendsAll(s1, frames[1..]);
      assert s.outbox + [frames[0]] + frames[1..] == s.outbox + frames;
    }
  }

  /** The source node a decoded chunk gets: the next serial number, started
      at the later of the watermark and the clock. */
  function NewSource(s: State, now: Seconds, duration: Seconds): (p: Source)
    ensures now <= p.start && s.nextStartTime <= p.start
    ensures p.start == now || p.start == s.nextStartTime
    ensures p.id == s.created && p.duration == duration
  {
    Source(s.created, StartTime(s.nextStartTime, now), duration)
  }

  /** The audio part of onmessage, with the output clock reading and the
      decoder's outcome (a duration, or a failure) as inputs. The agent is
      shown speaking and the watermark is clamped to the clock before the
      decode; a decoded chunk is then started at the watermark, tracked as
      playing, and the watermark moves to its end. A failed decode drops
      only that chunk and leaves the indicator on. */
  function ChunkScheduled(s: State, now: Seconds, decoded: Option<Seconds>): (t: State)
    ensures ValidState(s) ==> ValidState(t)
    ensures t.speaking
    ensures t.created == s.created + (if decoded.Some? then 1 else 0)
    ensures decoded.None? ==>
      t.sources == s.sources && t.nextStartTime == StartTime(s.nextStartTime, now)
    ensures decoded.Some? ==>
      var p := NewSource(s, now, decoded.value);
      && t.sources == s.sources + {p}
      && t.nextStartTime == p.End()
      && (ValidState(s) ==> p !in s.sources && forall q | q in s.sources :: q.End() <= p.start)
    ensures t.(sources := s.sources, nextStartTime := s.nextStartTime, speaking := s.speaking, created := s.created) == s
  {
    var start := StartTime(s.nextStartTime, now);
    var s1 := s.(speaking := true, nextStartTime := start);
    match decoded
    case None => s1
    case Some(duration) =>
      var p := Source(s.created, start, duration);
      s1.(nextStartTime := start + duration, sources := s1.sources + {p}, created := s.created + 1)
  }

  /** onended of a source: it is no longer playing, the others are
      untouched, and the speaking indicator goes off only when nothing is
      left playing. */
  function SourceEnded(s: State, src: Source): (t: State)
    ensures ValidState(s) ==> ValidState(t)
    ensures t.sources == s.sources - {src}
    ensures t.speaking <==> s.speaking && t.sources != {}
    ensures t.(sources := s.sources, speaking := s.speaking) == s
  {
    var rest := s.sources - {src};
    s.(sources := rest, speaking := if |rest| == 0 then false else s.speaking)
  }

  /** The interrupted part of onmessage: every playing source is stopped and
      forgotten, the watermark goes back to 0 and the indicator goes off, so
      the next chunk starts at the clock reading it arrives at. */
  function Interrupted(s: State): (t: State)
    ensures ValidState(s) ==> ValidState(t)
    ensures t.sources == {} && !t.speaking && t.stopped == s.stopped + s.sources
    ensures forall now: Seconds :: StartTime(t.nextStartTime, now) == now
    ensures t.(sources := s.sources, stopped := s.stopped, nextStartTime := s.nextStartTime, speaking := s.speaking) == s
  {
    s.(sources := {}, stopped := s.stopped + s.sources, nextStartTime := 0.0, speaking := false)
  }

  /** The turn-complete part of onmessage: the trimmed user text and then
      the trimmed agent text are appended to the history, each only when
      not blank, and both buffers are emptied. */
  function TurnCompleted(s: State, timestamp: int): (t: State)
    ensures ValidState(s) ==> ValidState(t)
    ensures t.history == s.history + TurnEntries(s.buffers.user, s.buffers.ayara, timestamp)
    ensures t.buffers == EmptyBuffers
    ensures t.(history := s.history, buffers := s.buffers) == s
  {
    var u := Trim(s.buffers.user);
    var a := Trim(s.buffers.ayara);
    var history := if u != [] || a != [] then s.history + TurnEntries(s.buffers.user, s.buffers.ayara, timestamp) else s.history;
    s.(history := history, buffers := EmptyBuffers)
  }

  /** The transcription part of onmessage: each fragment present is appended
      to its speaker's buffer. */
  function FragmentsAdded(s: State, msg: ServerMessage): (t: State)
    ensures ValidState(s) ==> ValidState(t)
    ensures t.buffers.user == s.buffers.user + FragmentText(msg.inputTranscription)
    ensures t.buffers.ayara == s.buffers.ayara + FragmentText(msg.outputTranscription)
    ensures t.(buffers := s.buffers) == s
  {
    s.(buffers := Buffers(s.buffers.user + FragmentText(msg.inputTranscription),
                          s.buffers.ayara + FragmentText(msg.outputTranscription)))
  }

  /** onmessage: audio, then the two transcription fragments, then turn
      completion, then interruption, in that order within one message.
      `now` is the output clock, `decoded` the decoder's outcome for the
      audio payload and `timestamp` the wall clock used for new entries.
      - A message whose model turn has no parts list changes nothing.
      - Connection, handles and capture are untouched.
      - A turn-complete message finalises the buffers including its own
        fragments; otherwise the fragments stay buffered.
      - An interrupted message leaves nothing playing, even audio it
        carried itself; otherwise the scheduler is as the audio part left
        it. */
  function MessageHandled(s: State, msg: ServerMessage, now: Seconds, decoded: Option<Seconds>, timestamp: int): (t: State)
    ensures ValidState(s) ==> ValidState(t)
    ensures t.(sources := s.sources, stopped := s.stopped, nextStartTime := s.nextStartTime, speaking := s.speaking,
               created := s.created, buffers := s.buffers, history := s.history) == s
    ensures msg.partsMissing ==> t == s
    ensures !msg.partsMissing ==>
      var user := s.buffers.user + FragmentText(msg.inputTranscription);
      var ayara := s.buffers.ayara + FragmentText(msg.outputTranscription);
      if msg.turnComplete then
        t.buffers == EmptyBuffers && t.history == s.history + TurnEntries(user, ayara, timestamp)
      else
        t.buffers == Buffers(user, ayara) && t.history == s.history
    ensures !msg.partsMissing && msg.interrupted ==>
      && t.sources == {} && !t.speaking && t.nextStartTime == 0.0
      && t.stopped == s.stopped + (if msg.HasAudio() then ChunkScheduled(s, now, decoded) else s).sources
      && t.created == s.created + (if msg.HasAudio() && decoded.Some? then 1 else 0)
    ensures !msg.partsMissing && !msg.interrupted ==>
      SameScheduler(if msg.HasAudio() then ChunkScheduled(s, now, decoded) else s, t)
  {
    if msg.partsMissing then s
    else
    var s1 := if msg.HasAudio() then ChunkScheduled(s, now, decoded) else s;
    var s2 := FragmentsAdded(s1, msg);
    var s3 := if msg.turnComplete then TurnCompleted(s2, timestamp) else s2;
    if msg.interrupted then Interrupted(s3) else s3
  }

  /** Enter in the typed input box: the trimmed text is appended to the
      history as a user entry unless it is blank. Nothing is sent to the
      session and the transcript buffers are untouched. */
  function TypedSubmitted(s: State, value: string, now: int): (t: State)
    ensures ValidState(s) ==> ValidState(t)
    ensures AllSpace(value) ==> t == s
    ensures !AllSpace(value) ==> t.history == s.history + [TranscriptionEntry(Trim(value), User, now)]
    ensures t.(history := s.history) == s
  {
    var v := Trim(value);
    if v != [] then s.(history := s.history + [TranscriptionEntry(v, User, now)]) else s
  }
}
