/** Job and attempt states, and which job transitions are legal. */
module JobLifecycle {

  datatype JobState =
    | Created
    | Queued
    | Leased
    | Running
    | Succeeded
    | FailedRetryable
    | FailedPermanent
    | CancelRequested
    | Cancelled
    | DeadLettered

  datatype AttemptState =
    | AttemptCreated
    | AttemptLeased
    | AttemptRunning
    | AttemptSucceeded
    | AttemptFailed
    | AttemptTimedOut
    | AttemptCancelled

  /** The table of allowed job transitions. */
  predicate ValidTransition(from: JobState, to: JobState) {
    match from
    case Created => to == Queued
    case Queued => to in {Leased, CancelRequested, Cancelled, FailedPermanent}
    case Leased => to in {Queued, Running, CancelRequested, FailedRetryable, FailedPermanent, DeadLettered}
    case Running => to in {Queued, Succeeded, FailedRetryable, FailedPermanent, CancelRequested, DeadLettered}
    case FailedRetryable => to in {Queued, DeadLettered}
    case FailedPermanent => to == Queued
    case CancelRequested => to == Cancelled
    case DeadLettered => to == Queued
    case Succeeded => false
    case Cancelled => false
  }

  predicate IsTerminal(s: JobState) {
    s == Succeeded || s == Cancelled
  }

  /** The job states counted by `active_count`. */
  predicate IsActive(s: JobState) {
    s == Leased || s == Running || s == CancelRequested
  }

  /** An attempt that a worker currently holds under a lease. */
  predicate IsHeld(s: AttemptState) {
    s == AttemptLeased || s == AttemptRunning
  }

  /** An attempt that is over and was superseded by a retry. */
  predicate IsSettled(s: AttemptState) {
    s == AttemptFailed || s == AttemptTimedOut
  }

  /** Which state a job's newest attempt may have, given the job's own state. */
  predicate Matches(job: JobState, newest: AttemptState) {
    match job
    case Created => false
    case Queued => newest == AttemptCreated
    case Leased => newest == AttemptLeased
    case Running => newest == AttemptRunning
    case Succeeded => newest == AttemptSucceeded
    case FailedRetryable => false
    case FailedPermanent => newest == AttemptFailed
    case CancelRequested => IsHeld(newest)
    case Cancelled => newest == AttemptCancelled
    case DeadLettered => IsSettled(newest)
  }

  /** Attempts only move up this ladder; the top rung is final. */
  function AttemptRank(s: AttemptState): nat {
    match s
    case AttemptCreated => 0
    case AttemptLeased => 1
    case AttemptRunning => 2
    case AttemptSucceeded => 3
    case AttemptFailed => 3
    case AttemptTimedOut => 3
    case AttemptCancelled => 3
  }
}
