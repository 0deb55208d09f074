/** The App component's session controller as an object: its fields are
    the component's refs and state variables, and each handler or callback
    is a method that updates them in place. Every method is specified by
    the matching step function of module Controller. */
module App {
  import opened Types
  import opened Transcript
  import opened Playback
  import opened Controller

  class Session {
    // connection state machine
    var status: ConnectionStatus
    var errorMessage: Option<string>
    var isConnecting: bool
    var muted: bool
    // held handles: live session, script processor, microphone stream,
    // input and output audio contexts, video frame timer
    var handles: Handles
    // playback scheduler; `created` numbers the source nodes
    var sources: set<Source>
    var nextStartTime: Seconds
    var speaking: bool
    var created: nat
    var stopped: set<Source>
    // capture pipeline: the indicator and the frames sent to the transport
    var listening: bool
    var outbox: seq<seq<real>>
    // transcript aggregator
    var buffers: Buffers
    var history: seq<TranscriptionEntry>

    /** The fields as one record. */
    ghost function Snapshot(): State
      reads this
    {
      State(status, errorMessage, isConnecting, muted, handles,
            sources, nextStartTime, speaking, created, stopped,
            listening, outbox, buffers, history)
    }

    ghost predicate Valid()
      reads this
    {
      ValidState(Snapshot())
    }

    /** The component's initial state. */
    constructor ()
      ensures Snapshot() == Initial && Valid()
    {
      status, errorMessage, isConnecting, muted := Idle, None, false, false;
      handles := NoHandles;
      sources, nextStartTime, speaking, created, stopped := {}, 0.0, false, 0, {};
      listening, outbox := false, [];
      buffers, history := EmptyBuffers, [];
    }

    method ToggleMute()
      requires Valid()
      modifies this
      ensures Snapshot() == MuteToggled(old(Snapshot())) && Valid()
    {
      if status == Connected {
        muted := !muted;
      }
    }

    /** cleanup. It may run while the status is ERROR, so it does not
        require the invariant. */
    method Cleanup()
      modifies this
      ensures Snapshot() == Teardown(old(Snapshot()))
    {
      // Releasing a handle that is already absent is a no-op, so every
      // handle ends not held whatever it was before.
      StopAll();
      handles, sources, nextStartTime, status, speaking, listening, muted, isConnecting :=
        NoHandles, {}, 0.0, Idle, false, false, false, false;
    }

    /** The forEach over the playing sources that calls stop() on each; any
        error stop() raises is swallowed, so every node is visited. */
    method StopAll()
      modifies this
      ensures Snapshot() == old(Snapshot()).(stopped := old(stopped) + old(sources))
    {
      var rest, done := sources, {};
      while rest != {}
        invariant rest !! done && rest + done == sources
        decreases |rest|
      {
        var p :| p in rest;
        done, rest := done + {p}, rest - {p};
      }
      stopped := stopped + done;
    }

    method StartConversation(apiKeyPresent: bool, audio: Grant)
      requires Valid()
      modifies this
      ensures Snapshot() == Started(old(Snapshot()), apiKeyPresent, audio) && Valid()
    {
      if isConnecting || status == Connected {
        return;
      }
      ghost var s0 := Snapshot();
      isConnecting := true;
      errorMessage := None;
      status := Connecting;
      ghost var s1 := Snapshot();
      assert s1 == s0.(isConnecting := true, errorMessage := None, status := Connecting);
      if !apiKeyPresent {
        Fail(MissingKeyMessage);
      } else {
        handles := handles.(inContext := true, outContext := true);
        match audio
        case Denied(message) =>
          Fail(if message != "" then message else ConnectionFailedMessage);
        case Granted =>
          handles := handles.(mic := true);
          handles := handles.(session := true);
      }
      isConnecting := false;
    }

    method OnOpen()
      requires Valid()
      modifies this
      ensures Snapshot() == Opened(old(Snapshot())) && Valid()
    {
      status := Connected;
      isConnecting := false;
      handles := handles.(processor := true);
    }

    method OnAudioProcess(frame: seq<real>)
      requires Valid()
      modifies this
      ensures Snapshot() == FrameCaptured(old(Snapshot()), frame) && Valid()
    {
      if muted {
        listening := false;
        return;
      }
      outbox := outbox + [frame];
      listening := Metering.Listening(frame);
    }

    /** The audio part of onmessage; returns the node started, if the chunk
        decoded. */
    method ScheduleAudio(now: Seconds, decoded: Option<Seconds>) returns (src: Option<Source>)
      requires Valid()
      modifies this
      ensures Snapshot() == ChunkScheduled(old(Snapshot()), now, decoded) && Valid()
      ensures src == if decoded.Some? then Some(NewSource(old(Snapshot()), now, decoded.value)) else None
    {
      speaking := true;
      nextStartTime := StartTime(nextStartTime, now);
      match decoded
      case None =>
        src := None;
      case Some(duration) =>
        var p := Source(created, nextStartTime, duration);
        created := created + 1;
        nextStartTime := nextStartTime + duration;
        sources := sources + {p};
        src := Some(p);
    }

    method OnEnded(src: Source)
      requires Valid()
      modifies this
      ensures Snapshot() == SourceEnded(old(Snapshot()), src) && Valid()
    {
      sources := sources - {src};
      if |sources| == 0 {
        speaking := false;
      }
    }

    method Interrupt()
      requires Valid()
      modifies this
      ensures Snapshot() == Interrupted(old(Snapshot())) && Valid()
    {
      StopAll();
      sources := {};
      nextStartTime := 0.0;
      speaking := false;
    }

    method CompleteTurn(timestamp: int)
      requires Valid()
      modifies this
      ensures Snapshot() == TurnCompleted(old(Snapshot()), timestamp) && Valid()
    {
      var u := Trim(buffers.user);
      var a := Trim(buffers.ayara);
      if u != [] || a != [] {
        history := history + TurnEntries(buffers.user, buffers.ayara, timestamp);
      }
      buffers := EmptyBuffers;
    }

    /** The transcription part of onmessage. */
    method AddFragments(msg: ServerMessage)
      requires Valid()
      modifies this
      ensures Snapshot() == FragmentsAdded(old(Snapshot()), msg) && Valid()
    {
      if msg.inputTranscription.Some? {
        buffers := buffers.(user := buffers.user + msg.inputTranscription.value);
      }
      if msg.outputTranscription.Some? {
        buffers := buffers.(ayara := buffers.ayara + msg.outputTranscription.value);
      }
    }

    /** onmessage; returns the node started for the message's audio, if
        any. */
    method OnMessage(msg: ServerMessage, now: Seconds, decoded: Option<Seconds>, timestamp: int)
      returns (src: Option<Source>)
      requires Valid()
      modifies this
      ensures Snapshot() == MessageHandled(old(Snapshot()), msg, now, decoded, timestamp) && Valid()
      ensures src == if !msg.partsMissing && msg.HasAudio() && decoded.Some? then Some(NewSource(old(Snapshot()), now, decoded.value)) else None
    {
      src := None;
      if msg.partsMissing {
        return;
      }
      if msg.HasAudio() {
        src := ScheduleAudio(now, decoded);
      }
      AddFragments(msg);
      if msg.turnComplete {
        CompleteTurn(timestamp);
      }
      if msg.interrupted {
        Interrupt();
      }
    }

    /** The failure path shared by startConversation's catch clause and
        onerror: ERROR and the message are set, then cleanup runs. */
    method Fail(message: string)
      modifies this
      ensures Snapshot() == Failed(old(Snapshot()), message)
    {
      status := Error;
      errorMessage := Some(message);
      Cleanup();
    }

    method OnError()
      requires Valid()
      modifies this
      ensures Snapshot() == Failed(old(Snapshot()), SessionFailedMessage) && Valid()
    {
      Fail(SessionFailedMessage);
    }

    method OnClose()
      requires Valid()
      modifies this
      ensures Snapshot() == Teardown(old(Snapshot())) && Valid()
    {
      Cleanup();
    }

    method SubmitTypedInput(value: string, now: int)
      requires Valid()
      modifies this
      ensures Snapshot() == TypedSubmitted(old(Snapshot()), value, now) && Valid()
    {
      var v := Trim(value);
      if v != [] {
        history := history + [TranscriptionEntry(v, User, now)];
      }
    }
  }

  /** A fresh session receives one decoded chunk per message, message i at
      clock reading chunks[i].arrival, with no interruption: the starts the
      nodes get are exactly the scheduler's start times from watermark 0. */
  method Replay(chunks: seq<Chunk>) returns (starts: seq<Seconds>)
    ensures starts == Starts(0.0, chunks)
  {
    var s := new Session();
    starts := [];
    var i := 0;
    while i < |chunks|
      invariant 0 <= i <= |chunks|
      invariant s.Valid()
      invariant starts == Starts(0.0, chunks[..i])
      invariant s.nextStartTime == Watermark(0.0, chunks[..i])
    {
      var c := chunks[i];
      var src := s.ScheduleAudio(c.arrival, Some(c.duration));
      StartsSnoc(0.0, chunks[..i], c);
      assert chunks[..i + 1] == chunks[..i] + [c];
      starts := starts + [src.value.start];
      i := i + 1;
    }
    assert chunks[..i] == chunks;
  }

  /** Barge-in: a chunk is playing, the server interrupts, and the next
      chunk starts at the clock reading it arrives at rather than after the
      interrupted audio; the interrupted node is no longer playing. */
  method BargeIn(now1: Seconds, d1: Seconds, now2: Seconds, d2: Seconds)
    returns (first: Source, second: Source, playing: set<Source>)
    ensures first.start == now1 && second.start == now2
    ensures first != second && playing == {second}
  {
    var s := new Session();
    var a := s.ScheduleAudio(now1, Some(d1));
    s.Interrupt();
    var b := s.ScheduleAudio(now2, Some(d2));
    first, second, playing := a.value, b.value, s.sources;
  }

  /** A chunk whose decode fails still turns the speaking indicator on and
      clamps the watermark to the clock, though nothing is playing. */
  method DecodeFailure(now: Seconds) returns (speaking: bool, playing: set<Source>, watermark: Seconds)
    ensures speaking && playing == {} && watermark == now
  {
    var s := new Session();
    var src := s.ScheduleAudio(now, None);
    speaking, playing, watermark := s.speaking, s.sources, s.nextStartTime;
  }

  /** A live-session error ends IDLE, not ERROR, with the retry message
      shown and every handle released. */
  method SessionError() returns (status: ConnectionStatus, message: Option<string>, handles: Handles)
    ensures status == Idle && message == Some(SessionFailedMessage) && handles == NoHandles
  {
    var s := new Session();
    s.StartConversation(true, Granted);
    s.OnOpen();
    s.OnError();
    status, message, handles := s.status, s.errorMessage, s.handles;
  }

  /** Between a successful start and onopen the status is CONNECTING but the
      re-entrancy flag is already clear, so the guard would admit a second
      start in that window. */
  method StartBeforeOpen() returns (status: ConnectionStatus, admitsAnotherStart: bool)
    ensures status == Connecting && admitsAnotherStart
  {
    var s := new Session();
    s.StartConversation(true, Granted);
    status := s.status;
    admitsAnotherStart := !(s.isConnecting || s.status == Connected);
  }
}
