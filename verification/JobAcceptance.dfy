/** Which worker events are accepted: a matter of lease identity and states, never of the lease's deadline. */
module JobAcceptance {
  import opened Tables
  import opened JobLifecycle
  import opened JobTables
  import opened Datasets
  import opened JobSteps
  import opened JobInvariants
  import opened JobPreservation
  import opened JobTime
  import opened JobTheorems
  import opened JobScenario
  import ControlPlane
  import RetryPolicy
  import WorkerRegistry

  // ---------------------------------------------------------------- the exact condition

  /** The event names an attempt of its job, and that attempt's lease, and its worker if it names one. */
  predicate NamesLease(db: Db, e: Event) {
    && e.attempt in db.attempts && db.attempts[e.attempt].job == e.job && e.job in db.jobs
    && db.attempts[e.attempt].lease == Some(e.lease)
    && (e.Progressed? || e.ArtifactCreated? || e.worker == NIL || db.attempts[e.attempt].worker == Some(e.worker))
  }

  /** What the states of job and attempt must be for the event to have a say. */
  predicate IsTimely(db: Db, e: Event)
    requires e.attempt in db.attempts && e.job in db.jobs
  {
    var job, attempt := db.jobs[e.job].state, db.attempts[e.attempt].state;
    match e
    case Started(_, _, _, _, number) =>
      && number == db.attempts[e.attempt].number && (job == Leased || job == Running)
      && (attempt == AttemptLeased || attempt == AttemptRunning)
    case Progressed(_, _, _, rows, percent, updatedAt) =>
      && job == Running && attempt == AttemptRunning
      && (e.job in db.progress && db.progress[e.job].attempt == e.attempt ==>
            && updatedAt > db.progress[e.job].updatedAt
            && rows >= db.progress[e.job].rows && percent >= db.progress[e.job].percent)
    case SucceededEvent(_, _, _, _, _) => job == Running && attempt == AttemptRunning
    case FailedEvent(_, _, _, _, _) => job == Running && attempt == AttemptRunning
    case CancelledEvent(_, _, _, _) =>
      job == CancelRequested && (attempt == AttemptLeased || attempt == AttemptRunning)
    case ArtifactCreated(_, _, _, _, key) =>
      || job == Leased || job == Running
      || (job == Succeeded && (e.job, e.attempt) in db.projections
          && db.projections[(e.job, e.attempt)].outcome == ResultSucceeded && key in db.projections[(e.job, e.attempt)].keys)
  }

  /** Accepted, as far as the tables decide: no clock and no deadline is consulted. */
  predicate IsAccepted(db: Db, e: Event) {
    NamesLease(db, e) && IsTimely(db, e)
  }

  /** Every kind of event is ignored, and then changes nothing, if and only if it is not accepted. */
  lemma AcceptedExactly(db: Db, e: Event, now: Time, ids: NewIds)
    ensures Apply(db, e, now, ids) == Effect(db, Ignored) <==> !IsAccepted(db, e)
    ensures Apply(db, e, now, ids).Effect? ==> (Apply(db, e, now, ids).status == Applied <==> IsAccepted(db, e))
  {
    hide Move, Requeue, Promote, RetryPolicy.Delay, ArtifactIdTaken, Upserted;
  }

  // ---------------------------------------------------------------- independence from deadlines

  /** The same attempts with other deadlines. */
  ghost predicate SameButDeadlines(x: map<Uuid, Attempt>, y: map<Uuid, Attempt>) {
    x.Keys == y.Keys && forall a | a in x :: y[a] == x[a].(expiresAt := y[a].expiresAt)
  }

  /** Two states whose tables agree, up to lease deadlines. */
  ghost predicate SameTables(x: Db, y: Db) {
    y == x.(attempts := y.attempts) && SameButDeadlines(x.attempts, y.attempts)
  }

  /** Two effects that agree up to lease deadlines. */
  ghost predicate SameEffect(x: Effect, y: Effect) {
    match (x, y)
    case (Effect(a, s), Effect(b, t)) => s == t && SameTables(a, b)
    case (Abort(d), Abort(e)) => d == e
    case _ => false
  }

  lemma MoveAgrees(x: Db, y: Db, j: Uuid, a: Uuid, to: JobState, s: AttemptState, at: Option<Time>)
    requires SameTables(x, y) && j in x.jobs && a in x.attempts
    ensures SameTables(Move(x, j, a, to, x.attempts[a].(state := s), at), Move(y, j, a, to, y.attempts[a].(state := s), at))
  {
    hide Transfer;
  }

  lemma RequeueAgrees(x: Db, y: Db, j: Uuid, a: Uuid, s: AttemptState, next: Uuid, at: Option<Time>)
    requires SameTables(x, y) && j in x.jobs && a in x.attempts
    ensures SameTables(Requeue(x, j, a, x.attempts[a].(state := s), next, at), Requeue(y, j, a, y.attempts[a].(state := s), next, at))
  {
    hide Move;
    MoveAgrees(x, y, j, a, Queued, s, at);
  }

  lemma LetterAgrees(x: Db, y: Db, letters: map<Uuid, DeadLetter>)
    requires SameTables(x, y)
    ensures SameTables(x.(deadLetters := letters), y.(deadLetters := letters))
  {
  }

  lemma ResultAgrees(x: Db, y: Db, j: Uuid, a: Uuid)
    requires SameTables(x, y)
    ensures SameTables(Project(x, j, a, ResultFailed, []), Project(y, j, a, ResultFailed, []))
  {
  }

  /** What both effects read. */
  lemma SameReadings(x: Db, y: Db, a: Uuid)
    requires SameTables(x, y) && a in x.attempts
    ensures y.jobs == x.jobs && y.deadLetters == x.deadLetters && y.attempts.Keys == x.attempts.Keys
    ensures y.attempts[a] == x.attempts[a].(expiresAt := y.attempts[a].expiresAt)
  {
  }

  lemma FailedAgrees(x: Db, y: Db, e: Event, now: Time, ids: NewIds)
    requires SameTables(x, y) && e.FailedEvent? && e.attempt in x.attempts && e.job in x.jobs
    ensures e.attempt in y.attempts && e.job in y.jobs
    ensures SameEffect(ApplyFailed(x, e, now, ids), ApplyFailed(y, e, now, ids))
  {
    hide Move, Requeue, RetryPolicy.Delay, SameTables;
    SameReadings(x, y, e.attempt);
    ResultAgrees(x, y, e.job, e.attempt);
    var px, py := Project(x, e.job, e.attempt, ResultFailed, []), Project(y, e.job, e.attempt, ResultFailed, []);
    var attempt, job := x.attempts[e.attempt], x.jobs[e.job];
    if e.retryable && attempt.number < job.maxAttempts {
      var delay := RetryPolicy.Delay(RetryPolicy.Widened(RetryPolicy.DEFAULT_POLICY, job.maxAttempts), attempt.number + 1, None);
      if delay.Some? {
        RequeueAgrees(px, py, e.job, e.attempt, AttemptFailed, ids.attempt, Some(now + delay.value));
      }
    } else if !e.retryable {
      MoveAgrees(px, py, e.job, e.attempt, FailedPermanent, AttemptFailed, None);
    } else {
      MoveAgrees(px, py, e.job, e.attempt, DeadLettered, AttemptFailed, None);
      LetterAgrees(Move(px, e.job, e.attempt, DeadLettered, attempt.(state := AttemptFailed), None),
                   Move(py, e.job, e.attempt, DeadLettered, y.attempts[e.attempt].(state := AttemptFailed), None),
                   x.deadLetters[ids.deadLetter := DeadLetter(e.job, e.attempt, e.lease, e.worker, attempt.number, false)]);
    }
    SameIgnored(x, y);
  }

  lemma SameIgnored(x: Db, y: Db)
    requires SameTables(x, y)
    ensures SameEffect(Effect(x, Ignored), Effect(y, Ignored))
  {
  }

  /**
   * Changing nothing but lease deadlines changes nothing about an event but the deadlines: it is accepted
   * or not, applied, ignored or aborted, and writes the same rows.
   */
  lemma DeadlinesDoNotMatter(x: Db, y: Db, e: Event, now: Time, ids: NewIds)
    requires SameTables(x, y)
    ensures IsAccepted(x, e) <==> IsAccepted(y, e)
    ensures SameEffect(Apply(x, e, now, ids), Apply(y, e, now, ids))
  {
    hide IsAccepted, Apply;
    AcceptanceAgrees(x, y, e);
    EffectAgrees(x, y, e, now, ids);
  }

  lemma AcceptanceAgrees(x: Db, y: Db, e: Event)
    requires SameTables(x, y)
    ensures IsAccepted(x, e) <==> IsAccepted(y, e)
  {
  }

  lemma EffectAgrees(x: Db, y: Db, e: Event, now: Time, ids: NewIds)
    requires SameTables(x, y)
    ensures SameEffect(Apply(x, e, now, ids), Apply(y, e, now, ids))
  {
    hide Move, Promote, IsListed, ArtifactIdTaken, Upserted, Supersedes, ApplyFailed, Requeue;
    if e.attempt in x.attempts && x.attempts[e.attempt].job == e.job && e.job in x.jobs {
      var at := x.jobs[e.job].nextAttemptAt;
      match e
      case Started(_, _, _, _, _) => MoveAgrees(x, y, e.job, e.attempt, Running, AttemptRunning, at);
      case SucceededEvent(_, _, _, _, _) => MoveAgrees(x, y, e.job, e.attempt, Succeeded, AttemptSucceeded, at);
      case FailedEvent(_, _, _, _, _) => FailedAgrees(x, y, e, now, ids);
      case CancelledEvent(_, _, _, _) => MoveAgrees(x, y, e.job, e.attempt, Cancelled, AttemptCancelled, at);
      case _ =>
    }
  }

  // ---------------------------------------------------------------- results after the deadline

  /** A success that names the running attempt of its running job. */
  predicate IsGoodReport(db: Db, message: Uuid, e: Event) {
    && e.SucceededEvent? && ValidEvent(e) && message !in db.inbox && NamesLease(db, e)
    && db.jobs[e.job].state == Running && db.attempts[e.attempt].state == AttemptRunning
  }

  /** Such a report completes its job, whether or not its lease has expired. */
  lemma ReportCompletesJob(db: Db, message: Uuid, e: Event, now: Time, ids: NewIds)
    requires IsGoodReport(db, message, e)
    ensures
      var tx := Process(db, message, e, now, ids);
      && tx.Commit? && e.job in tx.db.jobs && tx.db.jobs[e.job].state == Succeeded
      && e.attempt in tx.db.attempts && tx.db.attempts[e.attempt].state == AttemptSucceeded
      && message in tx.db.inbox && tx.db.inbox[message] == Applied
  {
    hide Transfer, Promote, ValidEvent;
  }

  /** An instance: after its deadline, the lease of job 4 still completes it. */
  lemma ExpiredLeaseCompletesJob(c: Config, now: Time)
    requires ValidConfig(c) && c.heartbeatTtl >= 0 && now >= c.leaseDuration
    ensures
      var db := Reached(c, START_JOB);
      var tx := Process(db, 8, SucceededEvent(4, 5, 6, 3, []), now, NO_IDS);
      && IsExpired(db, 5, now)
      && tx.Commit? && 4 in tx.db.jobs && tx.db.jobs[4].state == Succeeded
  {
    hide Run, Process;
    JobRuns(c);
    ReportCompletesJob(Reached(c, START_JOB), 8, SucceededEvent(4, 5, 6, 3, []), now, NO_IDS);
  }

  // ---------------------------------------------------------------- until somebody finishes the attempt

  /** The operation may finish attempt `a` of job `j`: a sweep that claims it, its own result, or a cancellation. */
  predicate MayFinish(op: Op, j: Uuid, a: Uuid) {
    || (op.OpSweep? && a in op.batch)
    || (op.OpCancel? && op.target == j)
    || (op.OpDeliver? && (op.event.SucceededEvent? || op.event.FailedEvent?) && op.event.attempt == a)
  }

  /** The job still runs on the attempt, which is the same but for its deadline. */
  ghost predicate StillRuns(before: Db, after: Db, j: Uuid, a: Uuid)
    requires a in before.attempts
  {
    && j in after.jobs && after.jobs[j].state == Running
    && a in after.attempts && after.attempts[a] == before.attempts[a].(expiresAt := after.attempts[a].expiresAt)
  }

  predicate IsRunningOn(db: Db, j: Uuid, a: Uuid) {
    && j in db.jobs && db.jobs[j].state == Running
    && a in db.attempts && db.attempts[a].job == j && db.attempts[a].state == AttemptRunning
  }

  lemma SameRowsRun(before: Db, after: Db, j: Uuid, a: Uuid)
    requires IsRunningOn(before, j, a) && ControlPlane.SameRows(before, after, a)
    ensures StillRuns(before, after, j, a)
  {
  }

  lemma KeptRows(before: Db, after: Db, j: Uuid, a: Uuid)
    requires IsRunningOn(before, j, a) && after.jobs == before.jobs && after.attempts == before.attempts
    ensures StillRuns(before, after, j, a)
  {
  }

  lemma CreateRuns(db: Db, c: CreateCommand, job: Uuid, attempt: Uuid, j: Uuid, a: Uuid)
    requires IsRunningOn(db, j, a) && Create(db, c, job, attempt).Commit?
    ensures StillRuns(db, Create(db, c, job, attempt).db, j, a)
  {
    hide ValidCreate, Transfer;
  }

  lemma CancelRuns(db: Db, target: Uuid, actor: Uuid, crossOwner: bool, reasonLength: nat, j: Uuid, a: Uuid)
    requires IsRunningOn(db, j, a) && target != j && RequestCancel(db, target, actor, crossOwner, reasonLength).Commit?
    requires Inv(db)
    ensures StillRuns(db, RequestCancel(db, target, actor, crossOwner, reasonLength).db, j, a)
  {
    hide Core, Rest, Newest, Move, LeaseOk;
    if db.jobs[target].state !in {CancelRequested, Cancelled} {
      var b := CoreNewest(db, target);
      if db.jobs[target].state == Queued {
        ControlPlane.MoveKeepsRows(db, target, b, Cancelled, db.attempts[b].(state := AttemptCancelled), None, a);
      } else {
        ControlPlane.MoveKeepsRows(db, target, b, CancelRequested, db.attempts[b], db.jobs[target].nextAttemptAt, a);
      }
    }
  }

  lemma RetryRuns(db: Db, target: Uuid, actor: Uuid, crossOwner: bool, next: Uuid, j: Uuid, a: Uuid)
    requires IsRunningOn(db, j, a) && RequestRetry(db, target, actor, crossOwner, next).Commit?
    requires Inv(db)
    ensures StillRuns(db, RequestRetry(db, target, actor, crossOwner, next).db, j, a)
  {
    hide Core, Rest, Newest, Move, LeaseOk;
    if db.jobs[target].state != Queued {
      var b := CoreNewest(db, target);
      ControlPlane.MoveKeepsRows(db, target, b, Queued, db.attempts[b], None, a);
    }
  }

  lemma AcquireRuns(db: Db, c: Config, target: Uuid, requested: Time, now: Time, locked: set<Uuid>, lease: Uuid, j: Uuid, a: Uuid)
    requires IsRunningOn(db, j, a) && Acquire(db, c, target, requested, now, locked, lease).Commit?
    requires Inv(db)
    ensures StillRuns(db, Acquire(db, c, target, requested, now, locked, lease).db, j, a)
  {
    hide Core, Rest, Newest, WorkerRegistry.Choose, LeaseIds, Transfer, LeaseOk;
    var b := CoreNewest(db, target);
    var after := Acquire(db, c, target, requested, now, locked, lease).db;
    ControlPlane.MoveKeepsRows(db, target, b, Leased, after.attempts[b], None, a);
  }

  lemma RenewRuns(db: Db, c: Config, lease: Uuid, worker: Uuid, requested: Time, now: Time, j: Uuid, a: Uuid)
    requires IsRunningOn(db, j, a) && Renew(db, c, lease, worker, requested, now).Commit?
    ensures StillRuns(db, Renew(db, c, lease, worker, requested, now).db, j, a)
  {
  }

  /** Another attempt of the job is over. */
  lemma OthersAreSettled(db: Db, j: Uuid, a: Uuid, b: Uuid)
    requires IsRunningOn(db, j, a) && b in db.attempts && b != a && db.attempts[b].job == j
    requires Inv(db)
    ensures IsSettled(db.attempts[b].state)
  {
    hide Core, Rest, Newest, LeaseOk;
    CoreUnsettled(db, a);
  }

  lemma {:induction false} ExpireAllRuns(db: Db, c: Config, batch: seq<Uuid>, now: Time, ids: seq<NewIds>, j: Uuid, a: Uuid)
    requires |ids| == |batch| && ExpireAll(db, c, batch, now, ids).Commit? && IsRunningOn(db, j, a) && a !in batch
    requires Inv(db)
    ensures StillRuns(db, ExpireAll(db, c, batch, now, ids).db, j, a)
    decreases |batch|
  {
    hide Inv, Expire;
    if batch != [] {
      var next := Expire(db, c, batch[0], now, ids[0]).db;
      if db.attempts[batch[0]].job == j {
        OthersAreSettled(db, j, a, batch[0]);
      }
      ControlPlane.ExpireElsewhere(db, c, batch[0], now, ids[0], a);
      ExpireKeepsInv(db, c, batch[0], now, ids[0]);
      ExpireAllRuns(next, c, batch[1..], now, ids[1..], j, a);
    }
  }

  lemma FailedRuns(db: Db, e: Event, now: Time, ids: NewIds, j: Uuid, a: Uuid)
    requires IsRunningOn(db, j, a) && e.FailedEvent? && e.attempt != a && e.attempt in db.attempts && e.job in db.jobs
    requires db.attempts[e.attempt].job == e.job && ApplyFailed(db, e, now, ids).Effect?
    requires Inv(db)
    ensures StillRuns(db, ApplyFailed(db, e, now, ids).db, j, a)
  {
    hide Inv, Move, RetryPolicy.Delay, MatchesLease;
    if e.job == j {
      OthersAreSettled(db, j, a, e.attempt);
    } else {
      var attempt := db.attempts[e.attempt];
      var over := attempt.(state := AttemptFailed);
      var failed := Project(db, e.job, e.attempt, ResultFailed, []);
      var delay := RetryPolicy.Delay(RetryPolicy.Widened(RetryPolicy.DEFAULT_POLICY, db.jobs[e.job].maxAttempts),
                                     attempt.number + 1, None);
      if delay.Some? {
        ControlPlane.MoveKeepsRows(failed, e.job, e.attempt, Queued, over, Some(now + delay.value), a);
      }
      ControlPlane.MoveKeepsRows(failed, e.job, e.attempt, FailedPermanent, over, None, a);
      ControlPlane.MoveKeepsRows(failed, e.job, e.attempt, DeadLettered, over, None, a);
    }
  }

  /** An event of the job that does not finish its attempt changes neither jobs nor attempts. */
  lemma OwnEventRuns(db: Db, e: Event, now: Time, ids: NewIds, j: Uuid, a: Uuid)
    requires IsRunningOn(db, j, a) && !e.FailedEvent? && Apply(db, e, now, ids).Effect? && e.job == j
    requires e.SucceededEvent? ==> e.attempt != a
    requires e.attempt in db.attempts && e.attempt != a && db.attempts[e.attempt].job == j ==> IsSettled(db.attempts[e.attempt].state)
    ensures StillRuns(db, Apply(db, e, now, ids).db, j, a)
  {
    hide Move, Upserted, Promote, ArtifactIdTaken, IsListed, ApplyFailed, MatchesLease, Supersedes, StillRuns;
    KeptRows(db, Apply(db, e, now, ids).db, j, a);
  }

  lemma OtherEventRuns(db: Db, e: Event, now: Time, ids: NewIds, j: Uuid, a: Uuid)
    requires IsRunningOn(db, j, a) && !e.FailedEvent? && Apply(db, e, now, ids).Effect? && e.job != j
    requires e.attempt in db.attempts && db.attempts[e.attempt].job == e.job && e.job in db.jobs
    ensures ControlPlane.SameRows(db, Apply(db, e, now, ids).db, a)
  {
    hide Move, Upserted, Promote, ArtifactIdTaken, IsListed, ApplyFailed, MatchesLease, Supersedes;
    var attempt, at := db.attempts[e.attempt], db.jobs[e.job].nextAttemptAt;
    match e
    case Started(_, _, _, _, _) =>
      ControlPlane.MoveKeepsRows(db, e.job, e.attempt, Running, attempt.(state := AttemptRunning), at, a);
    case SucceededEvent(_, _, _, _, _) =>
      ControlPlane.MoveKeepsRows(db, e.job, e.attempt, Succeeded, attempt.(state := AttemptSucceeded), at, a);
    case CancelledEvent(_, _, _, _) =>
      ControlPlane.MoveKeepsRows(db, e.job, e.attempt, Cancelled, attempt.(state := AttemptCancelled), at, a);
    case _ =>
  }

  lemma ApplyRuns(db: Db, e: Event, now: Time, ids: NewIds, j: Uuid, a: Uuid)
    requires IsRunningOn(db, j, a) && Apply(db, e, now, ids).Effect?
    requires (e.SucceededEvent? || e.FailedEvent?) ==> e.attempt != a
    requires Inv(db)
    ensures StillRuns(db, Apply(db, e, now, ids).db, j, a)
  {
    hide Inv, StillRuns, ApplyStarted, ApplyProgressed, ApplySucceeded, ApplyFailed, ApplyCancelled, ApplyArtifact;
    KeptRows(db, db, j, a);
    if e.attempt in db.attempts && db.attempts[e.attempt].job == e.job && e.job in db.jobs {
      if e.FailedEvent? {
        FailedRuns(db, e, now, ids, j, a);
      } else if e.job == j {
        if e.attempt != a {
          OthersAreSettled(db, j, a, e.attempt);
        }
        OwnEventRuns(db, e, now, ids, j, a);
      } else {
        OtherEventRuns(db, e, now, ids, j, a);
        SameRowsRun(db, Apply(db, e, now, ids).db, j, a);
      }
    }
  }

  lemma ProcessRuns(db: Db, message: Uuid, e: Event, now: Time, ids: NewIds, j: Uuid, a: Uuid)
    requires IsRunningOn(db, j, a) && Process(db, message, e, now, ids).Commit?
    requires (e.SucceededEvent? || e.FailedEvent?) ==> e.attempt != a
    requires Inv(db)
    ensures StillRuns(db, Process(db, message, e, now, ids).db, j, a)
  {
    hide Inv, Apply, ValidEvent;
    if message !in db.inbox {
      ApplyRuns(db, e, now, ids, j, a);
    }
  }

  lemma ElsewhereRuns(db: Db, c: Config, op: Op, j: Uuid, a: Uuid)
    requires IsRunningOn(db, j, a) && (op.OpCatalog? || op.OpWorker?)
    ensures StillRuns(db, Step(db, c, op), j, a)
  {
    hide Create, RequestCancel, RequestRetry, Acquire, Renew, Process, Replay, Datasets.Transact, Sweep, WorkerRegistry.Receive, StillRuns,
         IsRunningOn;
    var after := Step(db, c, op);
    assert after.jobs == db.jobs && after.attempts == db.attempts;
    KeptRows(db, after, j, a);
  }

  lemma StepRuns(db: Db, c: Config, op: Op, j: Uuid, a: Uuid)
    requires IsRunningOn(db, j, a) && !MayFinish(op, j, a)
    requires Inv(db)
    ensures StillRuns(db, Step(db, c, op), j, a)
  {
    hide Inv, StillRuns, Create, RequestCancel, RequestRetry, Acquire, Renew, Process, ReplayBody, Datasets.Transact, ExpireAll,
         WorkerRegistry.Receive;
    KeptRows(db, db, j, a);
    if op.OpReplay? {
      ReplayNeverCommits(db, op.record, op.actor, op.crossOwner, op.next);
    } else if Perform(db, c, op).Commit? {
      match op
      case OpCreate(command, job, attempt) => CreateRuns(db, command, job, attempt, j, a);
      case OpCancel(target, actor, crossOwner, reasonLength) => CancelRuns(db, target, actor, crossOwner, reasonLength, j, a);
      case OpRetry(target, actor, crossOwner, next) => RetryRuns(db, target, actor, crossOwner, next, j, a);
      case OpAcquire(target, requested, now, locked, lease) => AcquireRuns(db, c, target, requested, now, locked, lease, j, a);
      case OpRenew(lease, worker, requested, now) => RenewRuns(db, c, lease, worker, requested, now, j, a);
      case OpSweep(limit, batch, now, ids) =>
        if |ids| == |batch| && IsBatch(db, batch, now, SweepLimit(c, limit)) {
          ExpireAllRuns(db, c, batch, now, ids, j, a);
        }
      case OpDeliver(message, event, now, id) => ProcessRuns(db, message, event, now, id, j, a);
      case OpCatalog(_) => ElsewhereRuns(db, c, op, j, a);
      case OpWorker(_, _) => ElsewhereRuns(db, c, op, j, a);
    }
  }

  lemma {:induction false} RunRuns(db: Db, c: Config, ops: seq<Op>, j: Uuid, a: Uuid)
    requires IsRunningOn(db, j, a) && forall i | 0 <= i < |ops| :: !MayFinish(ops[i], j, a)
    requires Inv(db)
    ensures StillRuns(db, Run(db, c, ops), j, a)
    decreases |ops|
  {
    hide Inv, Step, MayFinish;
    if ops != [] {
      StepRuns(db, c, ops[0], j, a);
      StepKeepsInv(db, c, ops[0]);
      RunRuns(Step(db, c, ops[0]), c, ops[1..], j, a);
    }
  }

  /**
   * A running attempt's result is accepted however late it comes: over every run in which no sweep claims
   * the attempt, no result of its own arrives and its job is not cancelled, a success that names its lease
   * completes the job, at any time and whatever has become of the deadline.
   */
  lemma AcceptedUntilFinished(c: Config, before: seq<Op>, ops: seq<Op>, message: Uuid, e: Event, now: Time, ids: NewIds)
    requires IsGoodReport(Reached(c, before), message, e)
    requires forall i | 0 <= i < |ops| :: !MayFinish(ops[i], e.job, e.attempt)
    requires message !in Run(Reached(c, before), c, ops).inbox
    ensures
      var tx := Process(Run(Reached(c, before), c, ops), message, e, now, ids);
      tx.Commit? && e.job in tx.db.jobs && tx.db.jobs[e.job].state == Succeeded
  {
    hide Inv, Run, Process, ValidEvent;
    ReachedInv(c, before);
    RunRuns(Reached(c, before), c, ops, e.job, e.attempt);
    ReportCompletesJob(Run(Reached(c, before), c, ops), message, e, now, ids);
  }
}
