/** The stored states of a session (harness/api/vocab.go). */
module Sessions {

  datatype Status = Pending | Launching | AwaitingApproval | Running | Suspended | Ended | Interrupted

  predicate Terminal(s: Status) {
    s.Ended? || s.Interrupted?
  }

  /** The session waits for its approval. */
  predicate Awaits(s: Status) {
    s.Pending? || s.Launching? || s.AwaitingApproval?
  }
}
