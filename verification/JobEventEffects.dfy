/** What each worker event does in every reachable state, written out on the rows. */
module JobEventEffects {
  import opened Tables
  import opened JobLifecycle
  import opened JobTables
  import opened Datasets
  import opened JobSteps
  import opened JobInvariants
  import opened JobPreservation
  import opened JobTheorems
  import opened JobGuarantees
  import opened JobAcceptance
  import opened JobEffects
  import RetryPolicy

  /** The attempt the event names gets state `s` and the job goes to `to`; the attempts of no other job change. */
  ghost predicate Ends(db: Db, after: Db, e: Event, to: JobState, s: AttemptState, nextAttemptAt: Option<Time>,
                       queued: int, active: int)
  {
    && e.attempt in db.attempts
    && Moved(db, after, e.job, to, nextAttemptAt, queued, active)
    && after.attempts == db.attempts[e.attempt := db.attempts[e.attempt].(state := s)]
  }

  /** The attempt the event names has this result, and no other result changed. */
  predicate HasResult(db: Db, after: Db, e: Event, outcome: ResultOutcome, keys: seq<string>) {
    after.projections == db.projections[(e.job, e.attempt) := Projection(outcome, keys)]
  }

  /** The artifacts the event lists become canonical, and nothing else about artifacts changes. */
  ghost predicate Promotes(db: Db, after: Db, e: Event, keys: seq<string>) {
    && after.artifacts.Keys == db.artifacts.Keys
    && forall r | r in db.artifacts ::
         after.artifacts[r] == db.artifacts[r].(canonical := db.artifacts[r].canonical || (r.0 == e.job && r.1 == e.attempt && r.2 in keys))
  }

  ghost predicate StartedEffect(db: Db, after: Db, e: Event) {
    if e.job in db.jobs && db.jobs[e.job].state == Leased then
      Ends(db, after, e, Running, AttemptRunning, None, 0, 0) && after.quotas == db.quotas && OnlyJobTables(db, after)
    else after == db
  }

  ghost predicate SucceededEffect(db: Db, after: Db, e: Event)
    requires e.SucceededEvent?
  {
    && Ends(db, after, e, Succeeded, AttemptSucceeded, None, 0, -1)
    && HasResult(db, after, e, ResultSucceeded, e.keys) && Promotes(db, after, e, e.keys)
    && OnlyJobTables(db.(projections := after.projections, artifacts := after.artifacts), after)
  }

  ghost predicate CancelledEffect(db: Db, after: Db, e: Event) {
    && Ends(db, after, e, Cancelled, AttemptCancelled, None, 0, -1)
    && HasResult(db, after, e, ResultCancelled, [])
    && OnlyJobTables(db.(projections := after.projections), after)
  }

  /** A failure that is retried: the job waits in the queue, with a new attempt. */
  ghost predicate RetriedEffect(db: Db, after: Db, e: Event, now: Time, next: Uuid) {
    && e.attempt in db.attempts
    && var number := db.attempts[e.attempt].number + 1;
       && Moved(db, after, e.job, Queued, Some(now + DefaultWait(number)), 1, -1)
       && after.attempts == db.attempts[e.attempt := db.attempts[e.attempt].(state := AttemptFailed)][next := Fresh(e.job, number)]
       && HasResult(db, after, e, ResultFailed, [])
       && OnlyJobTables(db.(projections := after.projections), after)
  }

  ghost predicate FailedEffect(db: Db, after: Db, e: Event) {
    && Ends(db, after, e, FailedPermanent, AttemptFailed, None, 0, -1)
    && HasResult(db, after, e, ResultFailed, [])
    && OnlyJobTables(db.(projections := after.projections), after)
  }

  /** A failure that would be retried if attempts were left: the job goes to the dead letters. */
  ghost predicate BuriedEffect(db: Db, after: Db, e: Event, letter: Uuid)
    requires e.FailedEvent?
  {
    && Ends(db, after, e, DeadLettered, AttemptFailed, None, 0, -1)
    && HasResult(db, after, e, ResultFailed, [])
    && after.deadLetters == db.deadLetters[letter := DeadLetter(e.job, e.attempt, e.lease, e.worker, db.attempts[e.attempt].number, false)]
    && OnlyJobTables(db.(projections := after.projections, deadLetters := after.deadLetters), after)
  }

  /** The attempt has succeeded and its result lists the key. */
  predicate IsWanted(db: Db, e: Event, key: string) {
    && (e.job, e.attempt) in db.projections
    && db.projections[(e.job, e.attempt)].outcome == ResultSucceeded
    && key in db.projections[(e.job, e.attempt)].keys
  }

  /** The artifact is stored unless it was already, and is canonical if its attempt's result lists it. */
  ghost predicate ArtifactEffect(db: Db, after: Db, e: Event)
    requires e.ArtifactCreated?
  {
    var row, wanted := (e.job, e.attempt, e.key), IsWanted(db, e, e.key);
    var stored := if row in db.artifacts then db.artifacts[row].(canonical := db.artifacts[row].canonical || wanted)
                  else Artifact(e.id, e.lease, wanted);
    after == db.(artifacts := db.artifacts[row := stored])
  }

  /** What an accepted event does. */
  ghost predicate EventEffect(db: Db, x: Effect, e: Event, now: Time, ids: NewIds)
    requires e.attempt in db.attempts && e.job in db.jobs
  {
    match e
    case Started(_, _, _, _, _) => x.Effect? && StartedEffect(db, x.db, e)
    case Progressed(_, _, _, rows, percent, updatedAt) =>
      x.Effect? && x.db == db.(progress := db.progress[e.job := Progress(e.attempt, e.lease, rows, percent, updatedAt)])
    case SucceededEvent(_, _, _, _, _) => x.Effect? && SucceededEffect(db, x.db, e)
    case FailedEvent(_, _, _, _, retryable) =>
      if retryable && db.attempts[e.attempt].number < db.jobs[e.job].maxAttempts then
        if ids.attempt == NIL || ids.attempt in db.attempts then x == Abort(UniqueViolation)
        else x.Effect? && RetriedEffect(db, x.db, e, now, ids.attempt)
      else if !retryable then x.Effect? && FailedEffect(db, x.db, e)
      else if ids.deadLetter in db.deadLetters then x == Abort(UniqueViolation)
      else x.Effect? && BuriedEffect(db, x.db, e, ids.deadLetter)
    case CancelledEvent(_, _, _, _) => x.Effect? && CancelledEffect(db, x.db, e)
    case ArtifactCreated(_, _, _, id, key) =>
      if (e.job, e.attempt, key) !in db.artifacts && exists r :: r in db.artifacts && db.artifacts[r].id == id
      then x == Abort(UniqueViolation)
      else x.Effect? && ArtifactEffect(db, x.db, e)
  }

  /** What becomes of a delivered message: a message id takes effect at most once, and only if its event is accepted. */
  ghost predicate DeliveryAnswer(db: Db, message: Uuid, e: Event, now: Time, ids: NewIds, tx: Tx) {
    if !ValidEvent(e) then tx == Rollback(InvalidInput)
    else if message in db.inbox then tx == Commit(db)
    else if !IsAccepted(db, e) then tx == Commit(db.(inbox := db.inbox[message := Ignored]))
    else
      match tx
      case Rollback(error) => EventEffect(db, Abort(error), e, now, ids)
      case Commit(after) =>
        && after.inbox == db.inbox[message := Applied]
        && EventEffect(db, Effect(after.(inbox := db.inbox), Applied), e, now, ids)
  }

  lemma DeliveryOutcome(c: Config, ops: seq<Op>, message: Uuid, e: Event, now: Time, ids: NewIds)
    ensures DeliveryAnswer(Reached(c, ops), message, e, now, ids, Process(Reached(c, ops), message, e, now, ids))
  {
    hide Inv, Run, DeliveryAnswer, Process;
    ReachedInv(c, ops);
    DeliveryIsAnswered(Reached(c, ops), message, e, now, ids);
  }

  lemma DeliveryIsAnswered(db: Db, message: Uuid, e: Event, now: Time, ids: NewIds)
    requires Inv(db)
    ensures DeliveryAnswer(db, message, e, now, ids, Process(db, message, e, now, ids))
  {
    hide Inv, Apply, ValidEvent, EventEffect;
    AcceptedExactly(db, e, now, ids);
    if IsAccepted(db, e) {
      ApplyHasEffect(db, e, now, ids);
      var x := Apply(db, e, now, ids);
      if x.Effect? {
        EffectKeepsInbox(db, x, e, now, ids);
        assert x.db.(inbox := x.db.inbox[message := Applied]).(inbox := db.inbox) == x.db;
      }
    }
  }

  lemma EffectKeepsInbox(db: Db, x: Effect, e: Event, now: Time, ids: NewIds)
    requires e.attempt in db.attempts && e.job in db.jobs && x.Effect? && EventEffect(db, x, e, now, ids)
    ensures x.db.inbox == db.inbox
  {
    hide Ends, Moved, HasResult, Promotes, IsWanted, DefaultWait, OnlyJobTables, StartedEffect, SucceededEffect, CancelledEffect,
         RetriedEffect, FailedEffect, BuriedEffect;
    match e
    case Started(_, _, _, _, _) => StartedKeepsInbox(db, x.db, e);
    case SucceededEvent(_, _, _, _, _) => SucceededKeepsInbox(db, x.db, e);
    case FailedEvent(_, _, _, _, _) => FailedKeepsInbox(db, x.db, e, now, ids);
    case CancelledEvent(_, _, _, _) => CancelledKeepsInbox(db, x.db, e);
    case _ =>
  }

  lemma StartedKeepsInbox(db: Db, after: Db, e: Event)
    requires StartedEffect(db, after, e)
    ensures after.inbox == db.inbox
  {
    hide Ends;
  }

  lemma SucceededKeepsInbox(db: Db, after: Db, e: Event)
    requires e.SucceededEvent? && SucceededEffect(db, after, e)
    ensures after.inbox == db.inbox
  {
    hide Ends, HasResult, Promotes;
  }

  lemma CancelledKeepsInbox(db: Db, after: Db, e: Event)
    requires CancelledEffect(db, after, e)
    ensures after.inbox == db.inbox
  {
    hide Ends, HasResult;
  }

  lemma FailedKeepsInbox(db: Db, after: Db, e: Event, now: Time, ids: NewIds)
    requires e.FailedEvent?
    requires RetriedEffect(db, after, e, now, ids.attempt) || FailedEffect(db, after, e) || BuriedEffect(db, after, e, ids.deadLetter)
    ensures after.inbox == db.inbox
  {
    hide Ends, HasResult, Moved, DefaultWait;
  }

  lemma ApplyHasEffect(db: Db, e: Event, now: Time, ids: NewIds)
    requires IsAccepted(db, e)
    requires Inv(db)
    ensures EventEffect(db, Apply(db, e, now, ids), e, now, ids)
  {
    hide Inv, Move, Requeue, ApplyFailed, Promote, ArtifactIdTaken, IsListed, Upserted,
         StartedEffect, SucceededEffect, CancelledEffect, RetriedEffect, FailedEffect, BuriedEffect, ArtifactEffect;
    match e
    case Started(_, _, _, _, _) => StartedDoes(db, e);
    case SucceededEvent(_, _, _, _, _) => SucceededDoes(db, e);
    case FailedEvent(_, _, _, _, _) => FailedDoes(db, e, now, ids);
    case CancelledEvent(_, _, _, _) => CancelledDoes(db, e);
    case ArtifactCreated(_, _, _, _, _) => ArtifactDoes(db, e);
    case _ =>
  }

  lemma NotWaiting(db: Db, j: Uuid)
    requires j in db.jobs && db.jobs[j].state != Queued
    requires Inv(db)
    ensures db.jobs[j].nextAttemptAt.None?
  {
    hide Inv, Newest;
    var a := NewestRow(db, j);
  }

  lemma StartedDoes(db: Db, e: Event)
    requires e.Started? && IsAccepted(db, e)
    requires Inv(db)
    ensures ApplyStarted(db, e).Effect? && StartedEffect(db, ApplyStarted(db, e).db, e)
  {
    hide Inv, Move, Moved;
    var attempt := db.attempts[e.attempt];
    NotWaiting(db, e.job);
    if db.jobs[e.job].state == Leased {
      MoveMoves(db, e.job, e.attempt, Running, attempt.(state := AttemptRunning), None, 0, 0);
    }
  }

  lemma SucceededDoes(db: Db, e: Event)
    requires e.SucceededEvent? && IsAccepted(db, e)
    requires Inv(db)
    ensures ApplySucceeded(db, e).Effect? && SucceededEffect(db, ApplySucceeded(db, e).db, e)
  {
    hide Inv, Move, Moved;
    var done := db.attempts[e.attempt].(state := AttemptSucceeded);
    NotWaiting(db, e.job);
    MoveMoves(db, e.job, e.attempt, Succeeded, done, None, 0, -1);
    MovedIgnores(db, Move(db, e.job, e.attempt, Succeeded, done, None), ApplySucceeded(db, e).db, e.job, Succeeded, None, 0, -1);
  }

  lemma CancelledDoes(db: Db, e: Event)
    requires e.CancelledEvent? && IsAccepted(db, e)
    requires Inv(db)
    ensures ApplyCancelled(db, e).Effect? && CancelledEffect(db, ApplyCancelled(db, e).db, e)
  {
    hide Inv, Move, Moved;
    var done := db.attempts[e.attempt].(state := AttemptCancelled);
    NotWaiting(db, e.job);
    MoveMoves(db, e.job, e.attempt, Cancelled, done, None, 0, -1);
    MovedIgnores(db, Move(db, e.job, e.attempt, Cancelled, done, None), ApplyCancelled(db, e).db, e.job, Cancelled, None, 0, -1);
  }

  lemma ArtifactDoes(db: Db, e: Event)
    requires e.ArtifactCreated? && IsAccepted(db, e)
    ensures
      var x := ApplyArtifact(db, e);
      if (e.job, e.attempt, e.key) !in db.artifacts && exists r :: r in db.artifacts && db.artifacts[r].id == e.id
      then x == Abort(UniqueViolation)
      else x.Effect? && ArtifactEffect(db, x.db, e)
  {
  }

  /** The default policy's delay, for any limit of attempts. */
  lemma DefaultDelay(number: int, limit: int)
    requires 1 <= number < limit <= MAX_ATTEMPTS
    ensures RetryPolicy.Delay(RetryPolicy.Widened(RetryPolicy.DEFAULT_POLICY, limit), number + 1, None) == Some(DefaultWait(number + 1))
  {
    RetryPolicy.DelayNeverErrs(RetryPolicy.DEFAULT_POLICY, limit, number + 1, None);
    RetryPolicy.DelayBounds(RetryPolicy.Widened(RetryPolicy.DEFAULT_POLICY, limit), number + 1, None);
  }

  lemma FailedDoes(db: Db, e: Event, now: Time, ids: NewIds)
    requires e.FailedEvent? && IsAccepted(db, e)
    requires Inv(db)
    ensures EventEffect(db, ApplyFailed(db, e, now, ids), e, now, ids)
  {
    hide Inv, Move, Requeue, RetryPolicy.Delay, RetryPolicy.Widened, DefaultWait, RetriedEffect, FailedEffect, BuriedEffect;
    HeldRow(db, e.attempt);
    if e.retryable && db.attempts[e.attempt].number < db.jobs[e.job].maxAttempts {
      DefaultDelay(db.attempts[e.attempt].number, db.jobs[e.job].maxAttempts);
      FailureRetries(db, e, now, ids.attempt);
    } else if !e.retryable {
      FailureEnds(db, e);
    } else {
      FailureBuries(db, e, ids.deadLetter);
    }
  }

  lemma FailureRetries(db: Db, e: Event, now: Time, next: Uuid)
    requires e.FailedEvent? && IsAccepted(db, e)
    requires Inv(db)
    ensures
      var over, wait := db.attempts[e.attempt].(state := AttemptFailed), DefaultWait(db.attempts[e.attempt].number + 1);
      RetriedEffect(db, Requeue(Project(db, e.job, e.attempt, ResultFailed, []), e.job, e.attempt, over, next, Some(now + wait)),
                    e, now, next)
  {
    hide Inv, Move, Moved, DefaultWait;
    var over, at := db.attempts[e.attempt].(state := AttemptFailed), Some(now + DefaultWait(db.attempts[e.attempt].number + 1));
    var failed := Project(db, e.job, e.attempt, ResultFailed, []);
    ProjectedMove(db, e, Queued, over, at, 1, -1);
    MovedIgnores(db, Move(failed, e.job, e.attempt, Queued, over, at), Requeue(failed, e.job, e.attempt, over, next, at),
                 e.job, Queued, at, 1, -1);
  }

  lemma FailureEnds(db: Db, e: Event)
    requires e.FailedEvent? && IsAccepted(db, e)
    requires Inv(db)
    ensures
      var over := db.attempts[e.attempt].(state := AttemptFailed);
      FailedEffect(db, Move(Project(db, e.job, e.attempt, ResultFailed, []), e.job, e.attempt, FailedPermanent, over, None), e)
  {
    hide Inv, Move, Moved;
    ProjectedMove(db, e, FailedPermanent, db.attempts[e.attempt].(state := AttemptFailed), None, 0, -1);
  }

  lemma FailureBuries(db: Db, e: Event, letter: Uuid)
    requires e.FailedEvent? && IsAccepted(db, e)
    requires Inv(db)
    ensures
      var over := db.attempts[e.attempt].(state := AttemptFailed);
      var after := Move(Project(db, e.job, e.attempt, ResultFailed, []), e.job, e.attempt, DeadLettered, over, None);
      BuriedEffect(db, after.(deadLetters := db.deadLetters[letter :=
                     DeadLetter(e.job, e.attempt, e.lease, e.worker, db.attempts[e.attempt].number, false)]), e, letter)
  {
    hide Inv, Move, Moved;
    var over := db.attempts[e.attempt].(state := AttemptFailed);
    var after := Move(Project(db, e.job, e.attempt, ResultFailed, []), e.job, e.attempt, DeadLettered, over, None);
    ProjectedMove(db, e, DeadLettered, over, None, 0, -1);
    MovedIgnores(db, after, after.(deadLetters := db.deadLetters[letter :=
                   DeadLetter(e.job, e.attempt, e.lease, e.worker, db.attempts[e.attempt].number, false)]),
                 e.job, DeadLettered, None, 0, -1);
  }

  lemma HeldRow(db: Db, a: Uuid)
    requires a in db.attempts && IsHeld(db.attempts[a].state)
    requires Inv(db)
    ensures db.attempts[a].number >= 1 && db.attempts[a].job in db.jobs && 1 <= db.jobs[db.attempts[a].job].maxAttempts <= MAX_ATTEMPTS
  {
    hide Core, Rest, Newest;
    CoreUnsettled(db, a);
  }

  /** As `MoveMoves`, for the failure's tables, which hold its result already. */
  lemma ProjectedMove(db: Db, e: Event, to: JobState, attempt: Attempt, at: Option<Time>, queued: int, active: int)
    requires e.job in db.jobs
    requires queued == Bit(to == Queued) - Bit(db.jobs[e.job].state == Queued)
    requires active == Bit(IsActive(to)) - Bit(IsActive(db.jobs[e.job].state))
    requires Inv(db)
    ensures
      var failed := Project(db, e.job, e.attempt, ResultFailed, []);
      var after := Move(failed, e.job, e.attempt, to, attempt, at);
      && Moved(db, after, e.job, to, at, queued, active) && HasResult(db, after, e, ResultFailed, [])
      && OnlyJobTables(db.(projections := after.projections), after)
      && after.attempts == db.attempts[e.attempt := attempt]
  {
    hide Inv;
    RowsExist(db, e.job);
  }
}
