/** The statuses of an email blast. */
module BlastStatus {
  datatype Status = Draft | Scheduled | Processing | Sending | Paused | Completed | Cancelled | Failed

  predicate Terminal(s: Status) { s.Completed? || s.Cancelled? || s.Failed? }

  predicate Active(s: Status) { s.Processing? || s.Sending? || s.Paused? }
}
