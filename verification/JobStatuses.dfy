/** The job state machine: which status may follow which. */
module JobStatuses {
  import opened Types

  predicate Terminal(s: JobStatus) { s == Completed || s == Failed || s == Cancelled }

  const ALLOWED_TRANSITIONS: set<(JobStatus, JobStatus)> := {
    (Queued, Running),
    (Queued, Cancelled),
    (Running, Completed),
    (Running, Failed),
    (Running, Cancelled)
  }

  predicate Allowed(from: JobStatus, to: JobStatus) { (from, to) in ALLOWED_TRANSITIONS }

  /** Steps a job can still take; it falls along every allowed transition. */
  function Rank(s: JobStatus): nat {
    match s
    case Queued => 2
    case Running => 1
    case _ => 0
  }
}
