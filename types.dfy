/** Shared records of the session controller: the connection status enum and
    the transcript history entry (types.ts), plus an Option wrapper. */
module Types {

  /** The four connection states; the UI shows exactly one at a time. */
  datatype ConnectionStatus = Idle | Connecting | Connected | Error

  /** Who produced a history entry: the local user, or the remote agent
      (the source tags it 'ayara'). */
  datatype Sender = User | Ayara

  /** One finalized line of the conversation history. `timestamp` is the
      millisecond wall-clock value read when the entry was created. */
  datatype TranscriptionEntry = TranscriptionEntry(text: string, sender: Sender, timestamp: int)

  datatype Option<+T> = None | Some(value: T)
}
