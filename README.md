# Ayra voice-session controller in Dafny

This project models the session controller of the Ayra assistant's `App`
component (App.tsx). The controller is a single-threaded, callback-driven
state machine over a handful of refs and state variables:
- the connection status;
- the error message;
- the re-entrancy flag;
- the mute flag;
- the held hardware and network handles;
- the playback scheduler (the set of playing source nodes, the
  `nextStartTime` watermark and the speaking indicator);
- the listening indicator;
- the transcript buffers and the history.

Each handler runs to completion on the event loop, so each is modelled as
one atomic step.

Modules:
- `Types`: the `ConnectionStatus` enum and the `TranscriptionEntry` record
  (types.ts).
- `Transcript`: JavaScript's `String.prototype.trim` over the ECMAScript
  white-space set, and the entries a completed turn appends to the history.
- `Metering`: the capture frame's mean absolute sample and the strict
  `> 0.015` listening test.
- `Playback`: the start-time rule `max(nextStartTime, clock)` and the
  schedule a run of chunks gets without an interruption. This includes
  gap-free playback and no overlap.
- `Controller`: the whole controller state as one `State` record, the
  invariant `ValidState` every handler keeps, and one step function per
  handler. Each step function's contract states what that handler promises.
- `App`: class `Session`. Its fields are the component's refs and state,
  and it has one method per handler or callback. Each handler method
  updates the fields in place and ensures
  `Snapshot() == <step>(old(Snapshot()), …)` and `Valid()`.
  - `Cleanup` and `Fail` ensure only the snapshot equation, since they also
    run from a state whose status is ERROR.
  - `StopAll`, the stop loop, ensures that only `stopped` grows, by the
    playing nodes.
  - Scenario methods drive a fresh session through the handlers.

Inputs the source reads from its environment are parameters:
- whether the API key is configured;
- the outcome of the awaited audio setup (`Grant`);
- the output clock reading;
- the decoder's outcome (a duration, or a failure);
- the wall-clock timestamp.

Frames handed to the transport are kept as a log (`outbox`). Source nodes
on which `stop()` was called are kept as a set (`stopped`). Each source
node's identity is a serial number (`created` counts the nodes made so
far).

Behaviour of the code that the model reproduces:
- Every error path sets ERROR and then runs cleanup, which sets IDLE. After
  any handler the status is therefore never ERROR; a failure leaves IDLE
  with the message shown.
- `OnEnded` accepts any node. This includes a node that was stopped and
  already removed, whose late `onended` only turns speaking off when
  nothing is playing.
- The `finally` clause clears the re-entrancy flag as soon as
  startConversation returns. Between a successful start and `onopen`, the
  status is CONNECTING and the guard admits another start.
- The speaking indicator is set before the decode. A chunk whose decode
  fails therefore leaves it on with nothing playing, and the watermark
  already clamped. For this reason the invariant says "playing implies
  speaking" and not the converse.
- cleanup keeps the history, the transcript buffers and the error message.
- Typed input is only appended to the history; nothing is sent to the
  session.

## Model

| member | source | states |
|---|---|---|
| Transcript.Trim | App.tsx:260-261 | trim's result has no white space at either end, is empty exactly when the input is all white space, and is the input's middle slice with only white space cut on each side |
| Transcript.TrimSlice | App.tsx:260-261 | cutting the white-space prefix and then the white-space suffix leaves a trimmed middle that is empty exactly for an all-white-space string |
| Transcript.TrimmedIsFixed | App.tsx:260-261 | trimming an already trimmed string changes nothing |
| Transcript.TrimIdempotent | App.tsx:260-261 | trim is idempotent |
| Transcript.TurnEntries | App.tsx:262-268 | a completed turn adds at most two entries, user first and agent last; an entry is present exactly when its buffer is not blank; each holds its buffer's trimmed, non-empty text and the turn's timestamp |
| Metering.SumAbs | App.tsx:231 | the reduce of absolute samples is non-negative and zero exactly for a silent frame |
| Metering.Listening | App.tsx:231-232 | the listening test holds only for a non-empty frame with at least one non-zero sample |
| Metering.SumAbsAtMost | App.tsx:231-232 | a frame with no sample louder than 0.015 sums to at most length × 0.015 |
| Metering.SumAbsAbove | App.tsx:231-232 | a non-empty frame whose every sample is louder than 0.015 sums to more than length × 0.015 |
| Metering.MeanAboveIff | App.tsx:231-232 | dividing by the frame length preserves the comparison with 0.015 |
| Metering.ListeningIffSumAbove | App.tsx:231-232 | a frame is listening exactly when it is non-empty and its absolute sum exceeds length × 0.015; an empty frame (0/0) is not listening |
| Metering.QuietFrameNotListening | App.tsx:231-232 | a frame with no sample above 0.015 never turns the indicator on; exactly 0.015 is not listening |
| Metering.LoudFrameListening | App.tsx:231-232 | a non-empty frame with every sample above 0.015 turns the indicator on |
| Playback.StartTime | App.tsx:241 | a chunk's start is never before the clock and never before the watermark, and is one of the two |
| Playback.Starts | App.tsx:241-254 | a run of chunks gets one start each, none before its arrival, the first not before the watermark |
| Playback.Watermark | App.tsx:253 | the watermark never moves backwards over a run |
| Playback.StartsSnoc | App.tsx:241-254 | appending a chunk to a run schedules it at max(watermark, arrival) and advances the watermark by its duration |
| Playback.StartsChain | App.tsx:241-254 | each chunk starts at the later of the previous chunk's end and its own arrival |
| Playback.GapFree | App.tsx:241-254 | a chunk arriving before the previous one ends starts exactly where it ends |
| Playback.NoOverlap | App.tsx:241-254 | every chunk starts no earlier than the end of every chunk scheduled before it |
| Playback.BurstBackToBack | App.tsx:241-254 | in a burst, chunk i starts at the first start plus the durations of the chunks before it |
| Controller.InitialIsValid | App.tsx:37-62 | the initial state keeps the invariant and is torn down |
| Controller.MuteToggled | App.tsx:144-148 | while CONNECTED the mute flag flips and nothing else changes; in any other status nothing changes; the invariant is kept |
| Controller.ToggleTwice | App.tsx:144-148 | toggling twice restores the state |
| Controller.Teardown | App.tsx:150-183 | cleanup leaves IDLE, every handle released, no source playing, watermark 0, every indicator off, every playing node stopped; it keeps the error message, the node count, the sent frames, the buffers and the history; it changes nothing on a torn-down state |
| Controller.TeardownIdempotent | App.tsx:150-183 | cleanup twice is cleanup once |
| Controller.Failed | App.tsx:278-283 | an error path ends torn down, in IDLE, with every playing node stopped, its message shown and the records kept |
| Controller.StartFailureMessage | App.tsx:288-291 | a failed start always shows a non-empty message: the missing-key message when the key is absent, otherwise the thrown error's message or, when that is empty, "Connection failed." |
| Controller.Started | App.tsx:185-294 | a start while connecting or connected changes nothing; a missing key or a denied setup ends torn down with every playing node stopped, the right message shown and the records kept; otherwise CONNECTING, the error cleared, the re-entrancy flag already clear, the session, microphone and both contexts held, and nothing else changed |
| Controller.MissingKeyFailsFast | App.tsx:192-195 | with no key the outcome does not depend on the audio setup |
| Controller.Opened | App.tsx:220-236 | onopen sets CONNECTED, clears the re-entrancy flag, attaches the processor and changes nothing else |
| Controller.FrameCaptured | App.tsx:226-233 | a muted frame sends nothing and clears listening; any other frame is sent once and sets listening to the threshold test; nothing else changes |
| Controller.MutedRunSendsNothing | App.tsx:227 | while muted, a run of frames sends nothing and leaves listening off |
| Controller.UnmutedRunSendsAll | App.tsx:226-233 | while unmuted, every frame of a run is sent exactly once, in order |
| Controller.NewSource | App.tsx:241-252 | a new node gets the next serial number and the chunk's duration, and starts at the later of the clock and the watermark |
| Controller.ChunkScheduled | App.tsx:239-255 | the audio part turns speaking on and counts one new node exactly when the chunk decodes; a failed decode only clamps the watermark; a decoded chunk adds one new node that starts after every playing node ends and moves the watermark to its end; the invariant is kept |
| Controller.SourceEnded | App.tsx:248-251 | onended removes that node only, and speaking goes off exactly when nothing is left playing |
| Controller.Interrupted | App.tsx:271-276 | interruption stops every playing node and empties the set, turns speaking off, and makes the next chunk start at its arrival clock |
| Controller.TurnCompleted | App.tsx:259-270 | the history gains the turn's entries with the old history as prefix, and both buffers are emptied |
| Controller.FragmentsAdded | App.tsx:257-258 | each fragment present is appended to its speaker's buffer |
| Controller.MessageHandled | App.tsx:237-277 | a message whose model turn has no parts list throws before any effect and changes nothing; otherwise onmessage leaves connection, handles and capture alone; a turn-complete message finalises the buffers with its own fragments; an interrupted message leaves nothing playing, even its own audio; otherwise the scheduler is as the audio part left it |
| Controller.TypedSubmitted | App.tsx:489-496 | blank input changes nothing; other input appends one trimmed user entry and changes nothing else |
| App.Session.constructor | App.tsx:37-62 | a new session is the initial state |
| App.Session.ToggleMute | App.tsx:144-148 | the new state is MuteToggled of the old, and the invariant holds |
| App.Session.Cleanup | App.tsx:150-183 | the new state is Teardown of the old |
| App.Session.StopAll | App.tsx:155 | every playing node is added to the stopped set and nothing else changes |
| App.Session.StartConversation | App.tsx:185-294 | the new state is Started of the old, and the invariant holds |
| App.Session.OnOpen | App.tsx:220-236 | the new state is Opened of the old, and the invariant holds |
| App.Session.OnAudioProcess | App.tsx:226-233 | the new state is FrameCaptured of the old, and the invariant holds |
| App.Session.ScheduleAudio | App.tsx:239-255 | the new state is ChunkScheduled of the old; the node returned is the new node, or none on a failed decode |
| App.Session.OnEnded | App.tsx:248-251 | the new state is SourceEnded of the old, and the invariant holds |
| App.Session.Interrupt | App.tsx:271-276 | the new state is Interrupted of the old, and the invariant holds |
| App.Session.CompleteTurn | App.tsx:259-270 | the new state is TurnCompleted of the old, and the invariant holds |
| App.Session.AddFragments | App.tsx:257-258 | the new state is FragmentsAdded of the old, and the invariant holds |
| App.Session.OnMessage | App.tsx:237-277 | the new state is MessageHandled of the old; the node returned is the one started for the message's audio, and none for a message whose model turn has no parts list |
| App.Session.Fail | App.tsx:288-291 | the new state is Failed of the old with the given message |
| App.Session.OnError | App.tsx:278-283 | the new state is Failed of the old with the retry message, and the invariant holds |
| App.Session.OnClose | App.tsx:284 | the new state is Teardown of the old, and the invariant holds |
| App.Session.SubmitTypedInput | App.tsx:489-496 | the new state is TypedSubmitted of the old, and the invariant holds |
| App.Replay | App.tsx:239-254 | a fresh session fed one decoded chunk per message starts the nodes exactly at the scheduler's start times |
| App.BargeIn | App.tsx:271-276 | after an interruption the next chunk starts at its arrival clock, and only it is playing |
| App.DecodeFailure | App.tsx:239-255 | a failed decode leaves speaking on with nothing playing and the watermark at the clock |
| App.SessionError | App.tsx:278-283 | a live-session error ends IDLE with the retry message and every handle released |
| App.StartBeforeOpen | App.tsx:185-293 | after a successful start the status is CONNECTING and the re-entrancy guard admits another start |

## Left out

- The visualizer component (components/Visualizer.tsx) is left out. It is canvas rendering with floating-point drawing.
- The video frame sampler (App.tsx:80-120) and toggleVideo (App.tsx:122-142) are left out. They are timer, canvas, JPEG and FileReader plumbing. Only the frame-timer handle, which cleanup releases, is kept.
- PCM encoding and audio decoding (createPcmBlob, decode, decodeAudioData) are left out. AudioUtils is not part of this model. A frame is sent as its samples, and the decoder is an input that yields a duration or fails.
- The GoogleGenAI session, sendRealtimeInput, getUserMedia and AudioContext creation, resume and close are foreign calls. They appear only as held flags and as the inputs `apiKeyPresent` and `Grant`. A failed `resume` happens before the contexts are stored in their refs, so those contexts are never closed. The model cannot express this, because it keeps only flags, which cleanup clears either way.
- Session identity is not modelled. A second start admitted before `onopen` would open a new session and leave the first one unreferenced, but `handles.session` is a flag, so the model does not show that leak.
- Interleavings across `await` points are left out; each handler is one atomic step. Examples are two onmessage calls overlapping around the decode, and when startConversation's awaits resolve.
- React batching and effects are left out: deferred state updates, stale closures over `status`, the lag of `isMutedRef` behind `isMuted`, the clock timer, auto-scroll, the first-click activation listener, the persona text and all JSX. The capture callback reads the mute flag directly.
- Samples are reals; float32 rounding is not modelled. Times are non-negative reals.
- A transcription object without text is left out. The source would append "undefined"; here a fragment is a string.
- Controller.TurnCompleted: the two `Date.now()` reads of one turn are modelled as one timestamp.
- Clearing the typed input box after Enter is a DOM effect and is not modelled.
