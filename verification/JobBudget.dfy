/** How much work a job can cause: every change of its state is paid for. */
module JobBudget {
  import opened Tables
  import opened JobLifecycle
  import opened JobTables
  import opened Datasets
  import opened JobSteps
  import opened JobInvariants
  import opened JobPreservation
  import RetryPolicy
  import WorkerRegistry

  /** How many changes of state one attempt may still cause. */
  function StateRank(s: JobState): nat {
    match s
    case Queued => 4
    case Leased => 3
    case Running => 2
    case CancelRequested => 1
    case _ => 0
  }

  ghost function NewestNumber(attempts: map<Uuid, Attempt>, j: Uuid): int {
    match Newest(attempts, j)
    case None => 0
    case Some(a) => attempts[a].number
  }

  /** The measure (attempts left, state rank), read as one number. */
  ghost function Measure(db: Db, j: Uuid): int
    requires j in db.jobs
  {
    5 * Max(0, db.jobs[j].maxAttempts - NewestNumber(db.attempts, j)) + StateRank(db.jobs[j].state)
  }

  /** The measure, plus what was spent so far. */
  ghost function Account(db: Db, j: Uuid): int
    requires j in db.jobs
  {
    Measure(db, j) + |HistoryOf(db.history, j)|
  }

  /** Job `j` was paid for: whatever its history gained, its measure lost. */
  ghost predicate PaysFor(before: Db, after: Db, j: Uuid)
    requires j in before.jobs && j in after.jobs
  {
    && after.jobs[j].maxAttempts == before.jobs[j].maxAttempts
    && HistoryOf(before.history, j) <= HistoryOf(after.history, j)
    && Account(after, j) <= Account(before, j)
  }

  /** Every job was paid for, and none was added. */
  ghost predicate Pays(before: Db, after: Db) {
    && after.jobs.Keys == before.jobs.Keys
    && forall j | j in before.jobs :: PaysFor(before, after, j)
  }

  lemma PaysTrans(a: Db, b: Db, c: Db)
    requires Pays(a, b) && Pays(b, c)
    ensures Pays(a, c)
  {
    hide Account;
    forall j | j in a.jobs ensures PaysFor(a, c, j) {
      assert PaysFor(a, b, j) && PaysFor(b, c, j);
    }
  }

  /** The account depends on three tables only. */
  lemma PaysIgnores(db: Db, x: Db, y: Db)
    requires Pays(db, x) && y.jobs == x.jobs && y.attempts == x.attempts && y.history == x.history
    ensures Pays(db, y)
  {
    forall j | j in db.jobs ensures PaysFor(db, y, j) {
      assert PaysFor(db, x, j);
    }
  }

  // ---------------------------------------------------------------- the newest number

  lemma NumberOf(attempts: map<Uuid, Attempt>, j: Uuid, a: Uuid)
    requires IsNewest(attempts, j, a)
    ensures NewestNumber(attempts, j) == attempts[a].number
  {
  }

  /** The attempts of job `j` keep their numbers. */
  ghost predicate SameNumbering(before: map<Uuid, Attempt>, after: map<Uuid, Attempt>, j: Uuid) {
    && (forall a | a in before && before[a].job == j :: a in after && after[a].job == j && after[a].number == before[a].number)
    && (forall a | a in after && after[a].job == j :: a in before && before[a].job == j)
  }

  lemma NumberStays(before: map<Uuid, Attempt>, after: map<Uuid, Attempt>, j: Uuid)
    requires SameNumbering(before, after, j)
    ensures NewestNumber(after, j) == NewestNumber(before, j)
  {
    assert forall a :: IsNewest(before, j, a) <==> IsNewest(after, j, a);
    if a :| IsNewest(before, j, a) {
      NumberOf(before, j, a);
      NumberOf(after, j, a);
    }
  }

  /** A job whose row, history and numbering stay keeps its account. */
  lemma AccountStays(db: Db, after: Db, j: Uuid)
    requires j in db.jobs && j in after.jobs && after.jobs[j].state == db.jobs[j].state
    requires after.jobs[j].maxAttempts == db.jobs[j].maxAttempts
    requires HistoryOf(after.history, j) == HistoryOf(db.history, j)
    requires SameNumbering(db.attempts, after.attempts, j)
    ensures PaysFor(db, after, j)
  {
    hide NewestNumber;
    NumberStays(db.attempts, after.attempts, j);
  }

  // ---------------------------------------------------------------- the two ways a job moves

  lemma MovePays(db: Db, j: Uuid, a: Uuid, to: JobState, attempt: Attempt, at: Option<Time>)
    requires j in db.jobs && a in db.attempts && db.attempts[a].job == j
    requires attempt.job == j && attempt.number == db.attempts[a].number
    requires StateRank(to) < StateRank(db.jobs[j].state) && to != Queued
    ensures Pays(db, Move(db, j, a, to, attempt, at))
  {
    hide NewestNumber, Transfer;
    var after := Move(db, j, a, to, attempt, at);
    NumberStays(db.attempts, after.attempts, j);
    forall k | k in db.jobs ensures PaysFor(db, after, k) {
      if k != j {
        hide PaysFor;
        AccountStays(db, after, k);
      }
    }
  }

  /** A retry pays for itself with the attempt it uses, if the job still had one. */
  lemma RequeueCosts(db: Db, j: Uuid, a: Uuid, attempt: Attempt, next: Uuid, at: Option<Time>)
    requires j in db.jobs && IsNewest(db.attempts, j, a) && next !in db.attempts
    requires attempt.job == j && attempt.number == db.attempts[a].number
    ensures
      var after := Requeue(db, j, a, attempt, next, at);
      && after.jobs.Keys == db.jobs.Keys
      && (forall k | k in db.jobs && k != j :: PaysFor(db, after, k))
      && after.jobs[j].maxAttempts == db.jobs[j].maxAttempts
      && HistoryOf(after.history, j) == HistoryOf(db.history, j) + [Transition(Some(db.jobs[j].state), Queued)]
      && Account(after, j) <= Account(db, j) + (if attempt.number + 1 <= db.jobs[j].maxAttempts then 0 else 5)
  {
    hide NewestNumber, Transfer, PaysFor;
    var after := Requeue(db, j, a, attempt, next, at);
    NumberOf(db.attempts, j, a);
    assert IsNewest(after.attempts, j, next);
    NumberOf(after.attempts, j, next);
    forall k | k in db.jobs && k != j ensures PaysFor(db, after, k) {
      AccountStays(db, after, k);
    }
  }

  lemma RequeuePays(db: Db, j: Uuid, a: Uuid, attempt: Attempt, next: Uuid, at: Option<Time>)
    requires j in db.jobs && IsNewest(db.attempts, j, a) && next !in db.attempts
    requires attempt.job == j && attempt.number == db.attempts[a].number
    requires attempt.number + 1 <= db.jobs[j].maxAttempts
    ensures Pays(db, Requeue(db, j, a, attempt, next, at))
  {
    hide Account, Requeue;
    RequeueCosts(db, j, a, attempt, next, at);
  }

  lemma StillPays(db: Db)
    ensures Pays(db, db)
  {
    hide Account;
  }

  // ---------------------------------------------------------------- each operation

  lemma CancelPays(db: Db, j: Uuid, actor: Uuid, crossOwner: bool, reasonLength: nat)
    requires RequestCancel(db, j, actor, crossOwner, reasonLength).Commit?
    requires Inv(db)
    ensures Pays(db, RequestCancel(db, j, actor, crossOwner, reasonLength).db)
  {
    hide Core, Rest, Newest, Pays, Move;
    StillPays(db);
    var after := RequestCancel(db, j, actor, crossOwner, reasonLength).db;
    if db.jobs[j].state != CancelRequested && db.jobs[j].state != Cancelled {
      var a := CoreNewest(db, j);
      var attempt := db.attempts[a];
      if db.jobs[j].state == Queued {
        var gone := attempt.(state := AttemptCancelled);
        MovePays(db, j, a, Cancelled, gone, None);
        PaysIgnores(db, Move(db, j, a, Cancelled, gone, None), after);
      } else {
        MovePays(db, j, a, CancelRequested, attempt, db.jobs[j].nextAttemptAt);
      }
    }
  }

  /** The one operation that buys a job more work. */
  predicate Revives(db: Db, op: Op) {
    op.OpRetry? && op.target in db.jobs && db.jobs[op.target].state == DeadLettered
  }

  lemma RetryPays(db: Db, j: Uuid, actor: Uuid, crossOwner: bool, next: Uuid)
    requires RequestRetry(db, j, actor, crossOwner, next).Commit? && db.jobs[j].state != DeadLettered
    requires Inv(db)
    ensures Pays(db, RequestRetry(db, j, actor, crossOwner, next).db)
  {
    hide Core, Rest, Newest, Pays, Requeue;
    StillPays(db);
    if db.jobs[j].state != Queued {
      var a := CoreNewest(db, j);
      RequeuePays(db, j, a, db.attempts[a], next, None);
    }
  }

  lemma AcquirePays(db: Db, c: Config, j: Uuid, requested: Time, now: Time, locked: set<Uuid>, lease: Uuid)
    requires Acquire(db, c, j, requested, now, locked, lease).Commit?
    requires Inv(db)
    ensures Pays(db, Acquire(db, c, j, requested, now, locked, lease).db)
  {
    hide Core, Rest, Newest, WorkerRegistry.Choose, LeaseIds, Transfer, Pays;
    var after := Acquire(db, c, j, requested, now, locked, lease).db;
    var a := CoreNewest(db, j);
    MovePays(db, j, a, Leased, after.attempts[a], None);
    PaysIgnores(db, Move(db, j, a, Leased, after.attempts[a], None), after);
  }

  lemma RenewPays(db: Db, c: Config, lease: Uuid, worker: Uuid, requested: Time, now: Time)
    requires Renew(db, c, lease, worker, requested, now).Commit?
    ensures Pays(db, Renew(db, c, lease, worker, requested, now).db)
  {
    hide PaysFor;
    var after := Renew(db, c, lease, worker, requested, now).db;
    forall k | k in db.jobs ensures PaysFor(db, after, k) {
      AccountStays(db, after, k);
    }
  }

  lemma ExpirePays(db: Db, c: Config, a: Uuid, now: Time, ids: NewIds)
    requires IsExpired(db, a, now) && Expire(db, c, a, now, ids).Commit?
    requires Inv(db)
    ensures Pays(db, Expire(db, c, a, now, ids).db)
  {
    hide Core, Rest, Newest, Pays, RetryPolicy.Delay, Move;
    var attempt := db.attempts[a];
    var j := attempt.job;
    var after := Expire(db, c, a, now, ids).db;
    CoreUnsettled(db, a);
    var over := attempt.(state := AttemptTimedOut, expiresAt := Some(now));
    if db.jobs[j].state == CancelRequested {
      var gone := over.(state := AttemptCancelled);
      MovePays(db, j, a, Cancelled, gone, None);
      PaysIgnores(db, Move(db, j, a, Cancelled, gone, None), after);
    } else if attempt.number + 1 <= db.jobs[j].maxAttempts {
      var delay := RetryPolicy.Delay(RetryPolicy.Widened(c.policy, db.jobs[j].maxAttempts), attempt.number + 1, Some(ids.draw));
      RequeuePays(db, j, a, over, ids.attempt, Some(now + delay.value));
    } else {
      MovePays(db, j, a, DeadLettered, over, None);
      PaysIgnores(db, Move(db, j, a, DeadLettered, over, None), after);
    }
  }

  lemma {:induction false} ExpireAllPays(db: Db, c: Config, batch: seq<Uuid>, now: Time, ids: seq<NewIds>)
    requires |ids| == |batch| && ExpireAll(db, c, batch, now, ids).Commit?
    requires Inv(db)
    ensures Pays(db, ExpireAll(db, c, batch, now, ids).db)
    decreases |batch|
  {
    hide Inv, Pays;
    if batch == [] {
      StillPays(db);
    } else {
      var next := Expire(db, c, batch[0], now, ids[0]).db;
      ExpirePays(db, c, batch[0], now, ids[0]);
      ExpireKeepsInv(db, c, batch[0], now, ids[0]);
      ExpireAllPays(next, c, batch[1..], now, ids[1..]);
      PaysTrans(db, next, ExpireAll(db, c, batch, now, ids).db);
    }
  }

  lemma FailedPays(db: Db, e: Event, now: Time, ids: NewIds)
    requires e.FailedEvent? && e.attempt in db.attempts && e.job in db.jobs
    requires db.attempts[e.attempt].job == e.job && ApplyFailed(db, e, now, ids).Effect?
    requires ApplyFailed(db, e, now, ids).status == Applied
    requires Inv(db)
    ensures Pays(db, ApplyFailed(db, e, now, ids).db)
  {
    hide Core, Rest, Newest, RetryPolicy.Delay, Move, Pays;
    var j, a := e.job, e.attempt;
    CoreUnsettled(db, a);
    var attempt := db.attempts[a];
    var over := attempt.(state := AttemptFailed);
    var failed := Project(db, j, a, ResultFailed, []);
    StillPays(db);
    PaysIgnores(db, db, failed);
    if e.retryable && attempt.number < db.jobs[j].maxAttempts {
      var delay := RetryPolicy.Delay(RetryPolicy.Widened(RetryPolicy.DEFAULT_POLICY, db.jobs[j].maxAttempts),
                                     attempt.number + 1, None).value;
      RequeuePays(failed, j, a, over, ids.attempt, Some(now + delay));
      PaysTrans(db, failed, Requeue(failed, j, a, over, ids.attempt, Some(now + delay)));
    } else {
      var to := if e.retryable then DeadLettered else FailedPermanent;
      var moved := Move(failed, j, a, to, over, None);
      MovePays(failed, j, a, to, over, None);
      PaysTrans(db, failed, moved);
      PaysIgnores(db, moved, ApplyFailed(db, e, now, ids).db);
    }
  }

  /** An event that is ignored changes nothing. */
  lemma IgnoredIsInert(db: Db, e: Event, now: Time, ids: NewIds)
    ensures
      var effect := Apply(db, e, now, ids);
      effect.Effect? && effect.status == Ignored ==> effect.db == db
  {
    hide RetryPolicy.Delay, Upserted, Promote, ArtifactIdTaken, IsListed, Requeue, Move;
  }

  lemma ApplyPays(db: Db, e: Event, now: Time, ids: NewIds)
    requires Apply(db, e, now, ids).Effect?
    requires Inv(db)
    ensures Pays(db, Apply(db, e, now, ids).db)
  {
    hide Core, Rest, Newest, RetryPolicy.Delay, Upserted, Promote, ArtifactIdTaken, IsListed, Requeue, Move, Pays, ApplyFailed;
    var after := Apply(db, e, now, ids).db;
    StillPays(db);
    IgnoredIsInert(db, e, now, ids);
    if e.attempt in db.attempts && db.attempts[e.attempt].job == e.job && e.job in db.jobs
       && Apply(db, e, now, ids).status == Applied
    {
      var j, a := e.job, e.attempt;
      var attempt, at := db.attempts[a], db.jobs[j].nextAttemptAt;
      match e
      case Started(_, _, _, _, _) =>
        if db.jobs[j].state == Leased {
          MovePays(db, j, a, Running, attempt.(state := AttemptRunning), at);
        }
      case Progressed(_, _, _, _, _, _) => PaysIgnores(db, db, after);
      case SucceededEvent(_, _, _, _, _) =>
        MovePays(db, j, a, Succeeded, attempt.(state := AttemptSucceeded), at);
        PaysIgnores(db, Move(db, j, a, Succeeded, attempt.(state := AttemptSucceeded), at), after);
      case FailedEvent(_, _, _, _, _) => FailedPays(db, e, now, ids);
      case CancelledEvent(_, _, _, _) =>
        MovePays(db, j, a, Cancelled, attempt.(state := AttemptCancelled), at);
        PaysIgnores(db, Move(db, j, a, Cancelled, attempt.(state := AttemptCancelled), at), after);
      case ArtifactCreated(_, _, _, _, _) => PaysIgnores(db, db, after);
    }
  }

  lemma ProcessPays(db: Db, message: Uuid, e: Event, now: Time, ids: NewIds)
    requires Process(db, message, e, now, ids).Commit?
    requires Inv(db)
    ensures Pays(db, Process(db, message, e, now, ids).db)
  {
    hide Inv, Pays, Apply;
    StillPays(db);
    if message !in db.inbox {
      ApplyPays(db, e, now, ids);
      PaysIgnores(db, Apply(db, e, now, ids).db, Process(db, message, e, now, ids).db);
    }
  }

  /** A step of any other kind pays for what it does. */
  lemma StepPays(db: Db, c: Config, op: Op)
    requires !op.OpCreate? && !Revives(db, op)
    requires Inv(db)
    ensures Pays(db, Step(db, c, op))
  {
    hide Inv, Pays, RequestCancel, RequestRetry, Acquire, Renew, Process, ReplayBody, Datasets.Transact, ExpireAll;
    StillPays(db);
    if op.OpReplay? {
      ReplayNeverCommits(db, op.record, op.actor, op.crossOwner, op.next);
    } else if Perform(db, c, op).Commit? {
      match op
      case OpCancel(j, actor, crossOwner, reasonLength) => CancelPays(db, j, actor, crossOwner, reasonLength);
      case OpRetry(j, actor, crossOwner, next) =>
        RetryNeedsJob(db, j, actor, crossOwner, next);
        RetryPays(db, j, actor, crossOwner, next);
      case OpAcquire(j, requested, now, locked, lease) => AcquirePays(db, c, j, requested, now, locked, lease);
      case OpRenew(lease, worker, requested, now) => RenewPays(db, c, lease, worker, requested, now);
      case OpSweep(limit, batch, now, ids) =>
        if |ids| == |batch| && IsBatch(db, batch, now, SweepLimit(c, limit)) {
          ExpireAllPays(db, c, batch, now, ids);
        }
      case OpDeliver(message, event, now, id) => ProcessPays(db, message, event, now, id);
      case OpCatalog(_) => ElsewherePays(db, c, op);
      case OpWorker(_, _) => ElsewherePays(db, c, op);
    }
  }

  lemma ElsewherePays(db: Db, c: Config, op: Op)
    requires op.OpCatalog? || op.OpWorker?
    ensures Pays(db, Step(db, c, op))
  {
    hide Pays, Datasets.Transact, WorkerRegistry.Receive;
    StillPays(db);
    PaysIgnores(db, db, Step(db, c, op));
  }

  lemma RetryNeedsJob(db: Db, j: Uuid, actor: Uuid, crossOwner: bool, next: Uuid)
    requires RequestRetry(db, j, actor, crossOwner, next).Commit?
    ensures j in db.jobs
  {
  }

  // ---------------------------------------------------------------- the theorems

  /** Every job can pay for what its history records. */
  ghost predicate Funded(db: Db) {
    forall j | j in db.jobs ::
      Account(db, j) <= 5 * (db.jobs[j].maxAttempts + Revivals(HistoryOf(db.history, j)))
  }

  lemma {:induction false} RevivalsGrow(h: seq<Transition>, g: seq<Transition>)
    requires h <= g
    ensures Revivals(h) <= Revivals(g)
    decreases |g|
  {
    if h != g {
      RevivalsGrow(h, g[..|g| - 1]);
    } else {
      assert h == g;
    }
  }

  lemma PaymentKeepsFunded(db: Db, after: Db)
    requires Pays(db, after) && Funded(db)
    ensures Funded(after)
  {
    hide Account, Revivals;
    forall j | j in after.jobs
      ensures Account(after, j) <= 5 * (after.jobs[j].maxAttempts + Revivals(HistoryOf(after.history, j)))
    {
      assert PaysFor(db, after, j);
      RevivalsGrow(HistoryOf(db.history, j), HistoryOf(after.history, j));
    }
  }

  lemma RevivalKeepsFunded(db: Db, j: Uuid, actor: Uuid, crossOwner: bool, next: Uuid)
    requires RequestRetry(db, j, actor, crossOwner, next).Commit? && db.jobs[j].state == DeadLettered && Funded(db)
    requires Inv(db)
    ensures Funded(RequestRetry(db, j, actor, crossOwner, next).db)
  {
    hide Core, Rest, Newest, Requeue, Account, Revivals;
    var a := CoreNewest(db, j);
    var after := RequestRetry(db, j, actor, crossOwner, next).db;
    RequeueCosts(db, j, a, db.attempts[a], next, None);
    forall k | k in after.jobs
      ensures Account(after, k) <= 5 * (after.jobs[k].maxAttempts + Revivals(HistoryOf(after.history, k)))
    {
      if k == j {
        RevivalCounts(HistoryOf(db.history, j));
      } else {
        assert PaysFor(db, after, k);
        RevivalsGrow(HistoryOf(db.history, k), HistoryOf(after.history, k));
      }
    }
  }

  lemma RevivalCounts(h: seq<Transition>)
    ensures Revivals(h + [Transition(Some(DeadLettered), Queued)]) == Revivals(h) + 1
  {
    assert (h + [Transition(Some(DeadLettered), Queued)])[..|h|] == h;
  }

  lemma CreateKeepsFunded(db: Db, c: CreateCommand, job: Uuid, attempt: Uuid)
    requires Create(db, c, job, attempt).Commit? && Funded(db)
    requires Inv(db)
    ensures Funded(Create(db, c, job, attempt).db)
  {
    hide Inv, Account, Revivals, Transfer, KnownOperation;
    if !(c.key != "" && (c.owner, c.key) in db.idempotency) {
      var after := Create(db, c, job, attempt).db;
      JobOfAttempt(db);
      NewJobIsFunded(db, after, job, attempt);
      forall k | k in db.jobs ensures PaysFor(db, after, k) {
        hide PaysFor;
        AccountStays(db, after, k);
      }
    }
  }

  lemma NewJobIsFunded(db: Db, after: Db, job: Uuid, attempt: Uuid)
    requires forall a | a in db.attempts :: db.attempts[a].job != job
    requires job in after.jobs && after.jobs[job].state == Queued && after.jobs[job].maxAttempts >= 1
    requires attempt in after.attempts && after.attempts[attempt].job == job && after.attempts[attempt].number == 1
    requires forall a | a in after.attempts && a != attempt :: a in db.attempts && after.attempts[a] == db.attempts[a]
    requires HistoryOf(after.history, job) == [Transition(None, Queued)]
    ensures Account(after, job) <= 5 * (after.jobs[job].maxAttempts + Revivals(HistoryOf(after.history, job)))
  {
    hide NewestNumber, Revivals;
    assert IsNewest(after.attempts, job, attempt);
    NumberOf(after.attempts, job, attempt);
  }

  lemma JobOfAttempt(db: Db)
    requires Inv(db)
    ensures forall a | a in db.attempts :: db.attempts[a].job in db.jobs
  {
    hide Rest, Unique, Gapless, Leases, Counted, Recorded, Settings;
  }

  lemma StepKeepsFunded(db: Db, c: Config, op: Op)
    requires Funded(db)
    requires Inv(db)
    ensures Funded(Step(db, c, op))
  {
    hide Inv, Funded, Create, RequestRetry;
    if op.OpCreate? {
      if Create(db, op.command, op.job, op.attempt).Commit? {
        CreateKeepsFunded(db, op.command, op.job, op.attempt);
      }
    } else if Revives(db, op) {
      if RequestRetry(db, op.target, op.actor, op.crossOwner, op.next).Commit? {
        RevivalKeepsFunded(db, op.target, op.actor, op.crossOwner, op.next);
      }
    } else {
      hide Step;
      StepPays(db, c, op);
      PaymentKeepsFunded(db, Step(db, c, op));
    }
  }

  lemma {:induction false} RunKeepsFunded(db: Db, c: Config, ops: seq<Op>)
    requires Funded(db)
    requires Inv(db)
    ensures Funded(Run(db, c, ops))
    decreases |ops|
  {
    hide Inv, Funded, Step;
    if ops != [] {
      StepKeepsInv(db, c, ops[0]);
      StepKeepsFunded(db, c, ops[0]);
      RunKeepsFunded(Step(db, c, ops[0]), c, ops[1..]);
    }
  }

  /**
   * Over every run a job changes state at most five times per attempt it was allowed, where each
   * revival from the dead-letter state allows one attempt more.
   */
  lemma WorkIsBounded(c: Config, ops: seq<Op>, j: Uuid)
    requires j in Run(EMPTY, c, ops).jobs
    ensures
      var db := Run(EMPTY, c, ops);
      j in db.history && |db.history[j]| <= 5 * (db.jobs[j].maxAttempts + Revivals(db.history[j]))
  {
    hide Inv, Run, Revivals, NewestNumber;
    EmptyIsInv();
    RunKeepsInv(EMPTY, c, ops);
    RunKeepsFunded(EMPTY, c, ops);
    HistoryExists(Run(EMPTY, c, ops), j);
  }

  lemma HistoryExists(db: Db, j: Uuid)
    requires j in db.jobs
    requires Inv(db)
    ensures j in db.history && IsPath(db.history[j], db.jobs[j].state)
  {
    hide Rest, Chained, Leases, Counted, InBudget, Settings, IsPath;
  }

  /**
   * In every reachable state, except for an operator's revival of a dead-lettered job, every step that
   * changes a job's state makes its measure smaller.
   */
  lemma MeasureDecreases(c: Config, ops: seq<Op>, op: Op, j: Uuid)
    requires j in Run(EMPTY, c, ops).jobs && !Revives(Run(EMPTY, c, ops), op)
    ensures
      var db := Run(EMPTY, c, ops);
      var after := Step(db, c, op);
      j in after.jobs && (after.jobs[j].state != db.jobs[j].state ==> Measure(after, j) < Measure(db, j))
  {
    hide Inv, Run, Step, Measure, Revives;
    var db := Run(EMPTY, c, ops);
    EmptyIsInv();
    RunKeepsInv(EMPTY, c, ops);
    if op.OpCreate? {
      CreateKeepsRows(db, c, op, j);
    } else {
      StepPays(db, c, op);
      StepKeepsInv(db, c, op);
      HistoryExists(db, j);
      HistoryExists(Step(db, c, op), j);
      assert PaysFor(db, Step(db, c, op), j);
    }
  }

  lemma CreateKeepsRows(db: Db, c: Config, op: Op, j: Uuid)
    requires j in db.jobs && op.OpCreate?
    ensures j in Step(db, c, op).jobs && Step(db, c, op).jobs[j] == db.jobs[j]
  {
    hide Transfer, ValidCreate;
  }
}
