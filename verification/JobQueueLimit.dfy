/** The limit on queued jobs: when exactly the counter passes it, and by how much. */
module JobQueueLimit {
  import opened Tables
  import opened JobLifecycle
  import opened JobTables
  import opened Datasets
  import opened JobSteps
  import opened JobInvariants
  import opened JobPreservation
  import opened JobTheorems
  import opened JobScenario
  import ControlPlane
  import RetryPolicy
  import WorkerRegistry

  ghost function QueuedOf(db: Db, owner: Uuid): int {
    QuotaOf(db.quotas, owner).queued
  }

  // ---------------------------------------------------------------- automatic retries

  /** The delivery is a retryable failure that is accepted, with attempts left and a fresh id for the next one. */
  predicate RetriesFailure(db: Db, message: Uuid, e: Event, ids: NewIds) {
    && e.FailedEvent? && ValidEvent(e) && message !in db.inbox
    && e.attempt in db.attempts && db.attempts[e.attempt].job == e.job && e.job in db.jobs
    && MatchesLease(db.attempts[e.attempt], e.lease, e.worker)
    && db.jobs[e.job].state == Running && db.attempts[e.attempt].state == AttemptRunning
    && e.retryable && db.attempts[e.attempt].number < db.jobs[e.job].maxAttempts
    && ids.attempt != NIL && ids.attempt !in db.attempts
  }

  /** The expired lease leads to a retry of a job of this owner. */
  predicate RetriesFor(db: Db, a: Uuid, owner: Uuid) {
    && a in db.attempts && db.attempts[a].job in db.jobs
    && var attempt, job := db.attempts[a], db.jobs[db.attempts[a].job];
       && job.owner == owner
       && ControlPlane.FateOf(job.state, attempt.number, job.maxAttempts) == ControlPlane.ToRetry
  }

  function RetriedIn(db: Db, batch: seq<Uuid>, owner: Uuid): nat {
    if batch == [] then 0 else Bit(RetriesFor(db, batch[0], owner)) + RetriedIn(db, batch[1..], owner)
  }

  /** How many retries of the owner's jobs the operation queues by itself, read off the tables before it. */
  ghost function Automatic(db: Db, c: Config, op: Op, owner: Uuid): nat {
    match op
    case OpDeliver(message, e, now, ids) => Bit(RetriesFailure(db, message, e, ids) && db.jobs[e.job].owner == owner)
    case OpSweep(limit, batch, now, ids) =>
      if |ids| == |batch| && IsBatch(db, batch, now, SweepLimit(c, limit)) && Sweep(db, c, limit, batch, now, ids).Commit?
      then RetriedIn(db, batch, owner) else 0
    case _ => 0
  }

  // ---------------------------------------------------------------- what each step does to the counter

  lemma MoveQueues(db: Db, j: Uuid, a: Uuid, to: JobState, attempt: Attempt, at: Option<Time>, owner: Uuid)
    requires j in db.jobs
    ensures QueuedOf(Move(db, j, a, to, attempt, at), owner)
         == QueuedOf(db, owner) + (if db.jobs[j].owner == owner then Bit(to == Queued) - Bit(db.jobs[j].state == Queued) else 0)
  {
  }

  lemma CreateQueues(db: Db, c: CreateCommand, job: Uuid, attempt: Uuid, owner: Uuid)
    requires Create(db, c, job, attempt).Commit?
    ensures
      var after := QueuedOf(Create(db, c, job, attempt).db, owner);
      after <= QueuedOf(db, owner) || after <= MAX_QUEUED_JOBS_PER_OWNER
  {
    hide ValidCreate;
  }

  lemma CommandsQueue(db: Db, j: Uuid, actor: Uuid, crossOwner: bool, reasonLength: nat, next: Uuid, owner: Uuid)
    requires Inv(db)
    ensures
      var cancel, retry := RequestCancel(db, j, actor, crossOwner, reasonLength), RequestRetry(db, j, actor, crossOwner, next);
      && (cancel.Commit? ==> QueuedOf(cancel.db, owner) <= QueuedOf(db, owner))
      && (retry.Commit? ==> QueuedOf(retry.db, owner) <= QueuedOf(db, owner) || QueuedOf(retry.db, owner) <= MAX_QUEUED_JOBS_PER_OWNER)
  {
    hide Core, Rest, Newest, Move;
    if j in db.jobs {
      var a := CoreNewest(db, j);
      MoveQueues(db, j, a, Cancelled, db.attempts[a].(state := AttemptCancelled), None, owner);
      MoveQueues(db, j, a, CancelRequested, db.attempts[a], db.jobs[j].nextAttemptAt, owner);
      MoveQueues(db, j, a, Queued, db.attempts[a], None, owner);
    }
  }

  lemma AcquireQueues(db: Db, c: Config, j: Uuid, requested: Time, now: Time, locked: set<Uuid>, lease: Uuid, owner: Uuid)
    requires Acquire(db, c, j, requested, now, locked, lease).Commit?
    requires Inv(db)
    ensures QueuedOf(Acquire(db, c, j, requested, now, locked, lease).db, owner) <= QueuedOf(db, owner)
  {
    hide Core, Rest, Newest, WorkerRegistry.Choose, LeaseIds, Transfer;
    var after := Acquire(db, c, j, requested, now, locked, lease).db;
    var a := CoreNewest(db, j);
    MoveQueues(db, j, a, Leased, after.attempts[a], None, owner);
  }

  lemma FailedQueues(db: Db, e: Event, now: Time, ids: NewIds, owner: Uuid)
    requires e.FailedEvent? && e.attempt in db.attempts && db.attempts[e.attempt].job == e.job && e.job in db.jobs
    requires Inv(db)
    ensures
      var effect, retried := ApplyFailed(db, e, now, ids), AcceptsRetry(db, e, ids);
      && (retried ==> effect.Effect? && effect.status == Applied)
      && (effect.Effect? ==>
            QueuedOf(effect.db, owner) == QueuedOf(db, owner) + Bit(retried && db.jobs[e.job].owner == owner))
  {
    hide Core, Rest, Newest, Move, MatchesLease, RetryPolicy.Delay, RetryPolicy.Widened;
    var attempt, job := db.attempts[e.attempt], db.jobs[e.job];
    var over := attempt.(state := AttemptFailed);
    var failed := Project(db, e.job, e.attempt, ResultFailed, []);
    if attempt.state == AttemptRunning {
      CoreUnsettled(db, e.attempt);
      var delay := RetryPolicy.Delay(RetryPolicy.Widened(RetryPolicy.DEFAULT_POLICY, job.maxAttempts), attempt.number + 1, None);
      if attempt.number < job.maxAttempts {
        RetryPolicy.DelayNeverErrs(RetryPolicy.DEFAULT_POLICY, job.maxAttempts, attempt.number + 1, None);
        MoveQueues(failed, e.job, e.attempt, Queued, over, Some(now + delay.value), owner);
      }
      MoveQueues(failed, e.job, e.attempt, FailedPermanent, over, None, owner);
      MoveQueues(failed, e.job, e.attempt, DeadLettered, over, None, owner);
    }
  }

  /** The part of `RetriesFailure` that concerns the attempt. */
  predicate AcceptsRetry(db: Db, e: Event, ids: NewIds)
    requires e.FailedEvent? && e.attempt in db.attempts && e.job in db.jobs
  {
    && MatchesLease(db.attempts[e.attempt], e.lease, e.worker)
    && db.jobs[e.job].state == Running && db.attempts[e.attempt].state == AttemptRunning
    && e.retryable && db.attempts[e.attempt].number < db.jobs[e.job].maxAttempts
    && ids.attempt != NIL && ids.attempt !in db.attempts
  }

  lemma OtherEventsQueueNothing(db: Db, e: Event, now: Time, ids: NewIds, owner: Uuid)
    requires !e.FailedEvent? && Apply(db, e, now, ids).Effect?
    ensures QueuedOf(Apply(db, e, now, ids).db, owner) == QueuedOf(db, owner)
  {
    hide Upserted, Promote, ArtifactIdTaken, IsListed, Move, MatchesLease, ApplyFailed;
    if e.attempt in db.attempts && db.attempts[e.attempt].job == e.job && e.job in db.jobs {
      var attempt, at := db.attempts[e.attempt], db.jobs[e.job].nextAttemptAt;
      match e
      case Started(_, _, _, _, _) => MoveQueues(db, e.job, e.attempt, Running, attempt.(state := AttemptRunning), at, owner);
      case SucceededEvent(_, _, _, _, _) =>
        MoveQueues(db, e.job, e.attempt, Succeeded, attempt.(state := AttemptSucceeded), at, owner);
      case CancelledEvent(_, _, _, _) =>
        MoveQueues(db, e.job, e.attempt, Cancelled, attempt.(state := AttemptCancelled), at, owner);
      case _ =>
    }
  }

  lemma ProcessQueues(db: Db, message: Uuid, e: Event, now: Time, ids: NewIds, owner: Uuid)
    requires Inv(db)
    ensures
      var after := Process(db, message, e, now, ids).Settle(db);
      QueuedOf(after, owner) == QueuedOf(db, owner) + Bit(RetriesFailure(db, message, e, ids) && db.jobs[e.job].owner == owner)
    ensures RetriesFailure(db, message, e, ids) ==> Process(db, message, e, now, ids).Commit?
  {
    hide Inv, ApplyFailed, ApplyStarted, ApplyProgressed, ApplySucceeded, ApplyCancelled, ApplyArtifact, MatchesLease, ValidEvent,
         QuotaOf;
    if ValidEvent(e) && message !in db.inbox {
      if !e.FailedEvent? {
        if Apply(db, e, now, ids).Effect? {
          OtherEventsQueueNothing(db, e, now, ids, owner);
        }
      } else if e.attempt in db.attempts && db.attempts[e.attempt].job == e.job && e.job in db.jobs {
        FailedQueues(db, e, now, ids, owner);
      }
    }
  }

  lemma ExpireQueues(db: Db, c: Config, a: Uuid, now: Time, ids: NewIds, owner: Uuid)
    requires IsExpired(db, a, now) && Expire(db, c, a, now, ids).Commit?
    ensures QueuedOf(Expire(db, c, a, now, ids).db, owner) == QueuedOf(db, owner) + Bit(RetriesFor(db, a, owner))
  {
    hide Move, RetryPolicy.Delay;
    var attempt := db.attempts[a];
    var j := attempt.job;
    var over := attempt.(state := AttemptTimedOut, expiresAt := Some(now));
    if db.jobs[j].state == CancelRequested {
      MoveQueues(db, j, a, Cancelled, over.(state := AttemptCancelled), None, owner);
    } else if 1 <= attempt.number && attempt.number + 1 <= db.jobs[j].maxAttempts {
      var delay := RetryPolicy.Delay(RetryPolicy.Widened(c.policy, db.jobs[j].maxAttempts), attempt.number + 1, Some(ids.draw));
      MoveQueues(db, j, a, Queued, over, Some(now + delay.value), owner);
    } else {
      MoveQueues(db, j, a, DeadLettered, over, None, owner);
    }
  }

  /** Rows that stay decide the same about a retry. */
  lemma {:induction false} RetriedStays(before: Db, after: Db, batch: seq<Uuid>, owner: Uuid)
    requires forall i | 0 <= i < |batch| :: ControlPlane.SameRows(before, after, batch[i])
    ensures RetriedIn(after, batch, owner) == RetriedIn(before, batch, owner)
  {
    if batch != [] {
      assert ControlPlane.SameRows(before, after, batch[0]);
      forall i | 0 <= i < |batch[1..]| ensures ControlPlane.SameRows(before, after, batch[1..][i]) {
        assert batch[1..][i] == batch[i + 1];
      }
      hide ControlPlane.FateOf;
      RetriedStays(before, after, batch[1..], owner);
    }
  }

  /** The attempts exist and belong to different jobs. */
  ghost predicate AreApart(db: Db, batch: seq<Uuid>) {
    && (forall i | 0 <= i < |batch| :: batch[i] in db.attempts && db.attempts[batch[i]].job in db.jobs)
    && (forall i, k | 0 <= i < k < |batch| :: db.attempts[batch[i]].job != db.attempts[batch[k]].job)
  }

  lemma {:induction false} ExpireAllQueues(db: Db, c: Config, batch: seq<Uuid>, now: Time, ids: seq<NewIds>, owner: Uuid)
    requires |ids| == |batch| && ExpireAll(db, c, batch, now, ids).Commit? && AreApart(db, batch)
    ensures QueuedOf(ExpireAll(db, c, batch, now, ids).db, owner) == QueuedOf(db, owner) + RetriedIn(db, batch, owner)
    decreases |batch|
  {
    hide Expire, QuotaOf, RetriesFor;
    if batch != [] {
      var next, rest := Expire(db, c, batch[0], now, ids[0]).db, batch[1..];
      ExpireQueues(db, c, batch[0], now, ids[0], owner);
      forall i | 0 <= i < |rest| ensures ControlPlane.SameRows(db, next, rest[i]) {
        assert rest[i] == batch[i + 1];
        ControlPlane.ExpireElsewhere(db, c, batch[0], now, ids[0], rest[i]);
      }
      RetriedStays(db, next, rest, owner);
      StillApart(db, next, rest);
      ExpireAllQueues(next, c, rest, now, ids[1..], owner);
    }
  }

  lemma StillApart(before: Db, after: Db, batch: seq<Uuid>)
    requires AreApart(before, batch) && forall i | 0 <= i < |batch| :: ControlPlane.SameRows(before, after, batch[i])
    ensures AreApart(after, batch)
  {
    forall i | 0 <= i < |batch| ensures ControlPlane.SameRows(before, after, batch[i]) {
    }
  }

  lemma SweepQueues(db: Db, c: Config, limit: int, batch: seq<Uuid>, now: Time, ids: seq<NewIds>, owner: Uuid)
    requires |ids| == |batch|
    requires Inv(db)
    ensures
      var tx := Sweep(db, c, limit, batch, now, ids);
      QueuedOf(tx.Settle(db), owner) == QueuedOf(db, owner)
        + (if tx.Commit? && IsBatch(db, batch, now, SweepLimit(c, limit)) then RetriedIn(db, batch, owner) else 0)
  {
    hide Inv, ExpireAll, QuotaOf, RetriedIn;
    if IsBatch(db, batch, now, SweepLimit(c, limit)) && Sweep(db, c, limit, batch, now, ids).Commit? {
      SweptJobsDiffer(db, batch, now, SweepLimit(c, limit));
      ExpireAllQueues(db, c, batch, now, ids, owner);
    }
  }

  /**
   * Deliveries and sweeps raise the counter by exactly their automatic retries; any other operation leaves
   * it within the limit or does not raise it.
   */
  lemma StepQueues(db: Db, c: Config, op: Op, owner: Uuid)
    requires Inv(db)
    ensures
      var before, after := QueuedOf(db, owner), QueuedOf(Step(db, c, op), owner);
      if op.OpDeliver? || op.OpSweep? then after == before + Automatic(db, c, op, owner)
      else Automatic(db, c, op, owner) == 0 && (after <= before || after <= MAX_QUEUED_JOBS_PER_OWNER)
  {
    hide Inv, Create, RequestCancel, RequestRetry, Acquire, Renew, Process, ReplayBody, Datasets.Transact, Sweep, QuotaOf,
         RetriesFailure, RetriedIn, WorkerRegistry.Receive;
    if op.OpReplay? {
      ReplayNeverCommits(db, op.record, op.actor, op.crossOwner, op.next);
    } else {
      match op
      case OpCreate(command, job, attempt) =>
        if Create(db, command, job, attempt).Commit? { CreateQueues(db, command, job, attempt, owner); }
      case OpCancel(j, actor, crossOwner, reasonLength) => CommandsQueue(db, j, actor, crossOwner, reasonLength, NIL, owner);
      case OpRetry(j, actor, crossOwner, next) => CommandsQueue(db, j, actor, crossOwner, 0, next, owner);
      case OpAcquire(j, requested, now, locked, lease) =>
        if Acquire(db, c, j, requested, now, locked, lease).Commit? {
          AcquireQueues(db, c, j, requested, now, locked, lease, owner);
        }
      case OpRenew(lease, worker, requested, now) => RenewQueues(db, c, lease, worker, requested, now);
      case OpSweep(limit, batch, now, ids) =>
        if |ids| == |batch| { SweepQueues(db, c, limit, batch, now, ids, owner); }
      case OpDeliver(message, event, now, id) => ProcessQueues(db, message, event, now, id, owner);
      case _ =>
    }
  }

  lemma RenewQueues(db: Db, c: Config, lease: Uuid, worker: Uuid, requested: Time, now: Time)
    ensures Renew(db, c, lease, worker, requested, now).Settle(db).quotas == db.quotas
  {
  }

  // ---------------------------------------------------------------- the theorems

  /**
   * In every reachable state in which the owner is within the limit, an operation takes the counter past
   * it if and only if it commits more automatic retries of the owner's jobs than there is room for.
   */
  lemma LimitIsPassedExactly(c: Config, ops: seq<Op>, op: Op, owner: Uuid)
    requires QueuedOf(Reached(c, ops), owner) <= MAX_QUEUED_JOBS_PER_OWNER
    ensures
      var db := Reached(c, ops);
      && (QueuedOf(Step(db, c, op), owner) > MAX_QUEUED_JOBS_PER_OWNER <==>
            Automatic(db, c, op, owner) > MAX_QUEUED_JOBS_PER_OWNER - QueuedOf(db, owner))
  {
    hide Inv, Run, Step, Automatic, QuotaOf;
    ReachedInv(c, ops);
    StepQueues(Reached(c, ops), c, op, owner);
  }

  /** All automatic retries of the owner's jobs over a run. */
  ghost function AutomaticIn(db: Db, c: Config, ops: seq<Op>, owner: Uuid): nat
    decreases |ops|
  {
    if ops == [] then 0 else Automatic(db, c, ops[0], owner) + AutomaticIn(Step(db, c, ops[0]), c, ops[1..], owner)
  }

  lemma {:induction false} RunQueues(db: Db, c: Config, ops: seq<Op>, owner: Uuid)
    requires Inv(db)
    ensures QueuedOf(Run(db, c, ops), owner)
         <= Max(QueuedOf(db, owner), MAX_QUEUED_JOBS_PER_OWNER) + AutomaticIn(db, c, ops, owner)
    decreases |ops|
  {
    hide Inv, Step, Automatic, QuotaOf;
    if ops != [] {
      StepKeepsInv(db, c, ops[0]);
      StepQueues(db, c, ops[0], owner);
      RunQueues(Step(db, c, ops[0]), c, ops[1..], owner);
    }
  }

  /** Over every run the counter exceeds the limit by at most the automatic retries; without any it never does. */
  lemma QueueIsBounded(c: Config, ops: seq<Op>, owner: Uuid)
    ensures QueuedOf(Reached(c, ops), owner) <= MAX_QUEUED_JOBS_PER_OWNER + AutomaticIn(EMPTY, c, ops, owner)
  {
    hide Inv, Run, AutomaticIn;
    EmptyIsInv();
    RunQueues(EMPTY, c, ops, owner);
  }

  /** At the limit, an accepted retryable failure with attempts left commits and counts one job too many. */
  lemma RetryPassesTheLimit(c: Config, ops: seq<Op>, message: Uuid, e: Event, now: Time, ids: NewIds)
    requires
      var db := Reached(c, ops);
      RetriesFailure(db, message, e, ids) && QueuedOf(db, db.jobs[e.job].owner) == MAX_QUEUED_JOBS_PER_OWNER
    ensures
      var db := Reached(c, ops);
      var tx := Process(db, message, e, now, ids);
      tx.Commit? && QueuedOf(tx.db, db.jobs[e.job].owner) == MAX_QUEUED_JOBS_PER_OWNER + 1
  {
    hide Inv, Run, Process, QuotaOf;
    ReachedInv(c, ops);
    ProcessQueues(Reached(c, ops), message, e, now, ids, Reached(c, ops).jobs[e.job].owner);
  }

  // ---------------------------------------------------------------- an instance

  /** `n` more jobs of owner 1. */
  function Creations(n: nat): seq<Op> {
    if n == 0 then [] else Creations(n - 1) + [OpCreate(COMMAND, 100 + 2 * n, 101 + 2 * n)]
  }

  /** Job 4 runs, and `n` jobs of its owner are queued. */
  ghost predicate IsFilled(db: Db, c: Config, n: nat) {
    && IsRunning(db, c) && QuotaOf(db.quotas, 1) == Quota(n, 1)
    && (forall j | j in db.jobs :: j <= 101 + 2 * n)
    && (forall a | a in db.attempts :: a <= 101 + 2 * n)
  }

  lemma FillOne(db: Db, c: Config, n: nat)
    requires IsFilled(db, c, n) && n < MAX_QUEUED_JOBS_PER_OWNER
    ensures IsFilled(Step(db, c, OpCreate(COMMAND, 102 + 2 * n, 103 + 2 * n)), c, n + 1)
  {
    CommandIsValid();
    hide ValidCreate, RequestCancel, RequestRetry, Acquire, Renew, Process, Replay, Sweep, Datasets.Transact, WorkerRegistry.Receive;
    var after := Step(db, c, OpCreate(COMMAND, 102 + 2 * n, 103 + 2 * n));
    assert after.jobs.Keys == db.jobs.Keys + {102 + 2 * n} && after.attempts.Keys == db.attempts.Keys + {103 + 2 * n};
  }

  lemma {:induction false} Fill(c: Config, n: nat)
    requires ValidConfig(c) && c.heartbeatTtl >= 0 && n <= MAX_QUEUED_JOBS_PER_OWNER
    ensures IsFilled(Reached(c, START_JOB + Creations(n)), c, n)
  {
    hide Run, Step;
    if n == 0 {
      assert START_JOB + Creations(0) == START_JOB;
      JobRuns(c);
    } else {
      Fill(c, n - 1);
      var last := OpCreate(COMMAND, 100 + 2 * n, 101 + 2 * n);
      assert START_JOB + Creations(n) == (START_JOB + Creations(n - 1)) + [last];
      OneMore(c, START_JOB + Creations(n - 1), last);
      FillOne(Reached(c, START_JOB + Creations(n - 1)), c, n - 1);
    }
  }

  /** With any valid configuration there is a run after which an owner has 101 queued jobs. */
  lemma LimitIsPassed(c: Config) returns (ops: seq<Op>)
    requires ValidConfig(c) && c.heartbeatTtl >= 0
    ensures QueuedOf(Reached(c, ops), 1) == MAX_QUEUED_JOBS_PER_OWNER + 1
  {
    hide Run, IsFilled, QuotaOf;
    Fill(c, MAX_QUEUED_JOBS_PER_OWNER);
    ops := OneTooMany(c, START_JOB + Creations(MAX_QUEUED_JOBS_PER_OWNER));
  }

  lemma OneTooMany(c: Config, before: seq<Op>) returns (ops: seq<Op>)
    requires IsFilled(Reached(c, before), c, MAX_QUEUED_JOBS_PER_OWNER)
    ensures QueuedOf(Reached(c, ops), 1) == MAX_QUEUED_JOBS_PER_OWNER + 1
  {
    hide Run, Process;
    var e, ids := FailedEvent(4, 5, 6, 3, true), NewIds(9, 9, 0);
    var last := OpDeliver(8, e, 0, ids);
    assert RetriesFailure(Reached(c, before), 8, e, ids);
    RetryPassesTheLimit(c, before, 8, e, 0, ids);
    ops := before + [last];
    OneMore(c, before, last);
    hide QuotaOf;
  }
}
