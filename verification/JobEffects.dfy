/**
 * What each operation does in every reachable state, written out on the rows and not through the steps: when it
 * commits, with which error it is refused, which rows it changes, and that it changes no others.
 */
module JobEffects {
  import opened Tables
  import opened JobLifecycle
  import opened JobTables
  import opened Datasets
  import opened JobSteps
  import opened JobInvariants
  import opened JobPreservation
  import opened JobTheorems
  import opened JobGuarantees
  import RetryPolicy
  import WorkerRegistry

  // ---------------------------------------------------------------- vocabulary

  /**
   * Job `j` goes to state `to`: one entry is added to its history and its owner's counters change by the
   * amounts given. No other job, history or counter changes.
   */
  ghost predicate Moved(db: Db, after: Db, j: Uuid, to: JobState, nextAttemptAt: Option<Time>, queued: int, active: int) {
    && j in db.jobs && j in db.history && db.jobs[j].owner in db.quotas
    && var job := db.jobs[j];
       var quota := db.quotas[job.owner];
       && after.jobs == db.jobs[j := job.(state := to, nextAttemptAt := nextAttemptAt)]
       && after.history == db.history[j := db.history[j] + [Transition(Some(job.state), to)]]
       && after.quotas == db.quotas[job.owner := Quota(quota.queued + queued, quota.active + active)]
  }

  /** Nothing changed but jobs, attempts, counters and history. */
  ghost predicate OnlyJobTables(db: Db, after: Db) {
    after == db.(jobs := after.jobs, attempts := after.attempts, quotas := after.quotas, history := after.history)
  }

  /** A new attempt of job `j`, which nobody has leased. */
  function Fresh(j: Uuid, number: int): Attempt {
    Attempt(j, number, AttemptCreated, None, None, None)
  }

  lemma RowsExist(db: Db, j: Uuid)
    requires j in db.jobs
    requires Inv(db)
    ensures j in db.history && db.jobs[j].owner in db.quotas
  {
    hide Rest, Chained, Leases, InBudget, Settings, IsPath;
  }

  lemma MoveMoves(db: Db, j: Uuid, a: Uuid, to: JobState, attempt: Attempt, at: Option<Time>, queued: int, active: int)
    requires j in db.jobs
    requires queued == Bit(to == Queued) - Bit(db.jobs[j].state == Queued)
    requires active == Bit(IsActive(to)) - Bit(IsActive(db.jobs[j].state))
    requires Inv(db)
    ensures
      var after := Move(db, j, a, to, attempt, at);
      && Moved(db, after, j, to, at, queued, active) && OnlyJobTables(db, after)
      && after.attempts == db.attempts[a := attempt]
      && (queued == 0 && active == 0 ==> after.quotas == db.quotas)
  {
    hide Inv;
    RowsExist(db, j);
  }

  /** The newest attempt, in the invariant's terms and in those of the statements below. */
  lemma NewestRow(db: Db, j: Uuid) returns (a: Uuid)
    requires j in db.jobs
    requires Inv(db)
    ensures Newest(db.attempts, j) == Some(a) && IsNewest(db.attempts, j, a)
    ensures Matches(db.jobs[j].state, db.attempts[a].state) && db.attempts[a].number >= 1
    ensures IsHeld(db.attempts[a].state) ==> db.attempts[a].lease.Some? && db.attempts[a].worker.Some?
    ensures db.jobs[j].nextAttemptAt.Some? ==> db.jobs[j].state == Queued
    ensures db.jobs[j].state != Created && db.jobs[j].state != FailedRetryable
    ensures 1 <= db.jobs[j].maxAttempts <= MAX_ATTEMPTS
  {
    hide Core, Rest, Newest;
    a := CoreNewest(db, j);
  }

  // ---------------------------------------------------------------- cancellation

  /** A queued job is cancelled at once, with its newest attempt `a` and a result that says so. */
  ghost predicate CancelledInQueue(db: Db, after: Db, j: Uuid, a: Uuid) {
    && IsNewest(db.attempts, j, a)
    && Moved(db, after, j, Cancelled, None, -1, 0)
    && after.attempts == db.attempts[a := db.attempts[a].(state := AttemptCancelled)]
    && after.projections == db.projections[(j, a) := Projection(ResultCancelled, [])]
    && OnlyJobTables(db.(projections := after.projections), after)
  }

  /** A job that a worker holds is only marked: its attempts and all counters stay as they are. */
  ghost predicate CancelNoted(db: Db, after: Db, j: Uuid) {
    && Moved(db, after, j, CancelRequested, None, 0, 0)
    && after.attempts == db.attempts && after.quotas == db.quotas
    && OnlyJobTables(db, after)
  }

  /** What becomes of a request to cancel. */
  ghost predicate CancelAnswer(db: Db, j: Uuid, actor: Uuid, crossOwner: bool, reasonLength: nat, tx: Tx) {
    if j == NIL || actor == NIL then tx == Rollback(InvalidInput)
    else if j !in db.jobs then tx == Rollback(JobNotFound)
    else if !crossOwner && db.jobs[j].owner != actor then tx == Rollback(Forbidden)
    else if db.jobs[j].state == CancelRequested || db.jobs[j].state == Cancelled then tx == Commit(db)
    else if db.jobs[j].state !in {Queued, Leased, Running} then tx == Rollback(JobInWrongState)
    else if reasonLength > 500 then tx == Rollback(InvalidInput)
    else if db.jobs[j].state == Queued then tx.Commit? && exists a :: CancelledInQueue(db, tx.db, j, a)
    else tx.Commit? && CancelNoted(db, tx.db, j)
  }

  lemma CancelOutcome(c: Config, ops: seq<Op>, j: Uuid, actor: Uuid, crossOwner: bool, reasonLength: nat)
    ensures CancelAnswer(Reached(c, ops), j, actor, crossOwner, reasonLength,
                         RequestCancel(Reached(c, ops), j, actor, crossOwner, reasonLength))
  {
    hide Inv, Run, CancelAnswer, RequestCancel;
    ReachedInv(c, ops);
    CancelIsAnswered(Reached(c, ops), j, actor, crossOwner, reasonLength);
  }

  lemma CancelIsAnswered(db: Db, j: Uuid, actor: Uuid, crossOwner: bool, reasonLength: nat)
    requires Inv(db)
    ensures CancelAnswer(db, j, actor, crossOwner, reasonLength, RequestCancel(db, j, actor, crossOwner, reasonLength))
  {
    hide Inv, Newest, Move, CancelledInQueue, CancelNoted;
    if j in db.jobs {
      var a := NewestRow(db, j);
      if db.jobs[j].state == Queued {
        CancelsQueued(db, j, a);
      } else if db.jobs[j].state in {Leased, Running} {
        CancelsHeld(db, j, a);
      }
    }
  }

  lemma CancelsQueued(db: Db, j: Uuid, a: Uuid)
    requires j in db.jobs && db.jobs[j].state == Queued && IsNewest(db.attempts, j, a)
    requires Inv(db)
    ensures
      var gone := db.attempts[a].(state := AttemptCancelled);
      CancelledInQueue(db, Project(Move(db, j, a, Cancelled, gone, None), j, a, ResultCancelled, []), j, a)
  {
    hide Inv, Move, Moved;
    var moved := Move(db, j, a, Cancelled, db.attempts[a].(state := AttemptCancelled), None);
    MoveMoves(db, j, a, Cancelled, db.attempts[a].(state := AttemptCancelled), None, -1, 0);
    MovedIgnores(db, moved, Project(moved, j, a, ResultCancelled, []), j, Cancelled, None, -1, 0);
  }

  lemma CancelsHeld(db: Db, j: Uuid, a: Uuid)
    requires j in db.jobs && db.jobs[j].state in {Leased, Running} && IsNewest(db.attempts, j, a)
    requires Inv(db)
    ensures CancelNoted(db, Move(db, j, a, CancelRequested, db.attempts[a], None), j)
  {
    hide Inv, Move, Moved;
    MoveMoves(db, j, a, CancelRequested, db.attempts[a], None, 0, 0);
    assert db.attempts[a := db.attempts[a]] == db.attempts;
  }

  /** Only the job tables matter. */
  lemma MovedIgnores(db: Db, moved: Db, after: Db, j: Uuid, to: JobState, at: Option<Time>, queued: int, active: int)
    requires Moved(db, moved, j, to, at, queued, active)
    requires after.jobs == moved.jobs && after.history == moved.history && after.quotas == moved.quotas
    ensures Moved(db, after, j, to, at, queued, active)
  {
  }

  // ---------------------------------------------------------------- creation and retry

  lemma CountersCount(db: Db, owner: Uuid)
    requires Inv(db)
    ensures QuotaOf(db.quotas, owner) == Quota(|QueuedJobs(db.jobs, owner)|, |ActiveJobs(db.jobs, owner)|)
  {
    hide Rest, Chained, Leases, Recorded, InBudget, Settings, QueuedJobs, ActiveJobs, QuotaOf;
  }

  /** Job `j` is queued with a first attempt `a`, is counted, and is remembered under its key if it has one. */
  ghost predicate Begins(db: Db, after: Db, x: CreateCommand, j: Uuid, a: Uuid) {
    && after.jobs == db.jobs[j := Job(x.owner, x.version, Queued, x.operations, x.maxAttempts, None)]
    && after.attempts == db.attempts[a := Fresh(j, 1)]
    && after.history == db.history[j := [Transition(None, Queued)]]
    && after.quotas == db.quotas[x.owner := Quota(|QueuedJobs(db.jobs, x.owner)| + 1, |ActiveJobs(db.jobs, x.owner)|)]
    && after.idempotency == (if x.key == "" then db.idempotency
                             else db.idempotency[(x.owner, x.key) := IdempotencyRecord(x.fingerprint, j)])
    && OnlyJobTables(db.(idempotency := after.idempotency), after)
  }

  /** What becomes of a request to create a job. */
  ghost predicate CreateAnswer(db: Db, x: CreateCommand, j: Uuid, a: Uuid, tx: Tx) {
    var slot := (x.owner, x.key);
    if !ValidCreate(x) then tx == Rollback(InvalidInput)
    else if x.key != "" && slot in db.idempotency then
      tx == (if db.idempotency[slot].fingerprint == x.fingerprint then Commit(db) else Rollback(IdempotencyConflict))
    else if x.version !in db.catalog.versions || db.catalog.versions[x.version].dataset !in db.catalog.datasets then
      tx == Rollback(VersionMissing)
    else if db.catalog.datasets[db.catalog.versions[x.version].dataset].owner != x.owner then tx == Rollback(Forbidden)
    else if IsDeleted(db.catalog.datasets[db.catalog.versions[x.version].dataset])
            || db.catalog.versions[x.version].state != VersionAvailable then tx == Rollback(VersionUnavailable)
    else if |QueuedJobs(db.jobs, x.owner)| >= 100 then tx == Rollback(QuotaExceeded)
    else if j == NIL || j in db.jobs || a == NIL || a in db.attempts then tx == Rollback(UniqueViolation)
    else tx.Commit? && Begins(db, tx.db, x, j, a)
  }

  lemma CreateOutcome(c: Config, ops: seq<Op>, x: CreateCommand, j: Uuid, a: Uuid)
    ensures CreateAnswer(Reached(c, ops), x, j, a, Create(Reached(c, ops), x, j, a))
  {
    hide Inv, Run, CreateAnswer, Create;
    ReachedInv(c, ops);
    CreateIsAnswered(Reached(c, ops), x, j, a);
  }

  lemma CreateIsAnswered(db: Db, x: CreateCommand, j: Uuid, a: Uuid)
    requires Inv(db)
    ensures CreateAnswer(db, x, j, a, Create(db, x, j, a))
  {
    hide Inv, ValidCreate, IsDeleted, QueuedJobs, ActiveJobs;
    CountersCount(db, x.owner);
  }

  /** The job is queued again, with an attempt numbered one higher than `a`, and counted as queued. */
  ghost predicate QueuedAgain(db: Db, after: Db, j: Uuid, a: Uuid, next: Uuid) {
    && IsNewest(db.attempts, j, a)
    && Moved(db, after, j, Queued, None, 1, 0)
    && after.attempts == db.attempts[next := Fresh(j, db.attempts[a].number + 1)]
    && OnlyJobTables(db, after)
  }

  /** The newest attempt of `j` is its last one allowed. */
  ghost predicate HasNoAttemptLeft(db: Db, j: Uuid) {
    j in db.jobs && exists a :: IsNewest(db.attempts, j, a) && db.attempts[a].number >= db.jobs[j].maxAttempts
  }

  /** What becomes of an operator's request to retry. */
  ghost predicate RetryAnswer(db: Db, j: Uuid, actor: Uuid, crossOwner: bool, next: Uuid, tx: Tx) {
    if j == NIL || actor == NIL then tx == Rollback(InvalidInput)
    else if j !in db.jobs then tx == Rollback(JobNotFound)
    else if !crossOwner && db.jobs[j].owner != actor then tx == Rollback(Forbidden)
    else if db.jobs[j].state == Queued then tx == Commit(db)
    else if db.jobs[j].state != FailedPermanent && db.jobs[j].state != DeadLettered then tx == Rollback(JobInWrongState)
    else if |QueuedJobs(db.jobs, db.jobs[j].owner)| >= 100 then tx == Rollback(QuotaExceeded)
    else if db.jobs[j].state == FailedPermanent && HasNoAttemptLeft(db, j) then tx == Rollback(JobInWrongState)
    else if next == NIL || next in db.attempts then tx == Rollback(UniqueViolation)
    else tx.Commit? && exists a :: QueuedAgain(db, tx.db, j, a, next)
  }

  lemma RetryOutcome(c: Config, ops: seq<Op>, j: Uuid, actor: Uuid, crossOwner: bool, next: Uuid)
    ensures RetryAnswer(Reached(c, ops), j, actor, crossOwner, next, RequestRetry(Reached(c, ops), j, actor, crossOwner, next))
  {
    hide Inv, Run, RetryAnswer, RequestRetry;
    ReachedInv(c, ops);
    RetryIsAnswered(Reached(c, ops), j, actor, crossOwner, next);
  }

  lemma RetryIsAnswered(db: Db, j: Uuid, actor: Uuid, crossOwner: bool, next: Uuid)
    requires Inv(db)
    ensures RetryAnswer(db, j, actor, crossOwner, next, RequestRetry(db, j, actor, crossOwner, next))
  {
    hide Inv, Newest, Requeue, QueuedJobs, ActiveJobs, QuotaOf, QueuedAgain;
    if j in db.jobs {
      var a := NewestRow(db, j);
      CountersCount(db, db.jobs[j].owner);
      if db.jobs[j].state in {FailedPermanent, DeadLettered} {
        RetryQueues(db, j, a, next);
      }
    }
  }

  lemma RetryQueues(db: Db, j: Uuid, a: Uuid, next: Uuid)
    requires j in db.jobs && db.jobs[j].state in {FailedPermanent, DeadLettered} && IsNewest(db.attempts, j, a)
    requires Inv(db)
    ensures QueuedAgain(db, Requeue(db, j, a, db.attempts[a], next, None), j, a, next)
  {
    hide Inv, Move, Moved;
    MoveMoves(db, j, a, Queued, db.attempts[a], None, 1, 0);
    MovedIgnores(db, Move(db, j, a, Queued, db.attempts[a], None), Requeue(db, j, a, db.attempts[a], next, None),
                 j, Queued, None, 1, 0);
    assert db.attempts[a := db.attempts[a]] == db.attempts;
  }

  // ---------------------------------------------------------------- renewal

  /** Attempt `a` is held by this worker under this lease. */
  predicate Carries(attempt: Attempt, lease: Uuid, worker: Uuid) {
    attempt.lease == Some(lease) && attempt.worker == Some(worker)
  }

  /** The attempt is out and its deadline lies ahead. */
  predicate IsRenewable(attempt: Attempt, now: Time) {
    && (attempt.state == AttemptLeased || attempt.state == AttemptRunning)
    && attempt.expiresAt.Some? && attempt.expiresAt.value > now
  }

  /**
   * A renewal commits if and only if its input is valid and some attempt carries the lease, is out and has not
   * reached its deadline; then that deadline is the only thing that changes.
   */
  ghost predicate RenewAnswer(db: Db, c: Config, lease: Uuid, worker: Uuid, requested: Time, now: Time, tx: Tx) {
    var duration := if requested == 0 then c.renewalWindow else requested;
    var valid := lease != NIL && worker != NIL && 0 < duration <= 1_800_000_000_000;
    && (!valid ==> tx == Rollback(InvalidInput))
    && (tx.Commit? <==> valid && exists a :: a in db.attempts && Carries(db.attempts[a], lease, worker) && IsRenewable(db.attempts[a], now))
    && (valid && (forall a | a in db.attempts :: !Carries(db.attempts[a], lease, worker)) ==> tx == Rollback(LeaseNotFound))
    && (forall a | valid && a in db.attempts && Carries(db.attempts[a], lease, worker) ::
          tx == if db.attempts[a].state != AttemptLeased && db.attempts[a].state != AttemptRunning then Rollback(LeaseNotRenewable)
                else if !IsRenewable(db.attempts[a], now) then Rollback(LeaseExpired)
                else Commit(db.(attempts := db.attempts[a := db.attempts[a].(expiresAt := Some(now + duration))])))
  }

  lemma RenewOutcome(c: Config, ops: seq<Op>, lease: Uuid, worker: Uuid, requested: Time, now: Time)
    ensures RenewAnswer(Reached(c, ops), c, lease, worker, requested, now, Renew(Reached(c, ops), c, lease, worker, requested, now))
  {
    hide Inv, Run, RenewAnswer, Renew;
    ReachedInv(c, ops);
    RenewIsAnswered(Reached(c, ops), c, lease, worker, requested, now);
  }

  lemma RenewIsAnswered(db: Db, c: Config, lease: Uuid, worker: Uuid, requested: Time, now: Time)
    requires Inv(db)
    ensures RenewAnswer(db, c, lease, worker, requested, now, Renew(db, c, lease, worker, requested, now))
  {
    hide Inv;
    forall a, b | HoldsLease(db.attempts, a, lease, worker) && HoldsLease(db.attempts, b, lease, worker) ensures a == b {
      LeaseIsUnique(db, a, b);
    }
    forall a | a in db.attempts ensures Carries(db.attempts[a], lease, worker) <==> HoldsLease(db.attempts, a, lease, worker) {
    }
  }

  // ---------------------------------------------------------------- acquisition

  /** The command tells the worker what the tables say: whose attempt it is, and what and where its input is. */
  ghost predicate TellsTheTruth(db: Db, x: LeaseCommand) {
    && x.job in db.jobs && x.version == db.jobs[x.job].version && x.operations == db.jobs[x.job].operations
    && x.attempt in db.attempts
    && db.attempts[x.attempt].job == x.job && db.attempts[x.attempt].number == x.number
    && db.attempts[x.attempt].lease == Some(x.lease) && db.attempts[x.attempt].worker == Some(x.worker)
    && x.version in db.catalog.versions
    && var row := db.catalog.versions[x.version];
       && row.state == VersionAvailable
       && x.source.contentType == row.contentType
       && x.source.format == row.format
       && row.size == Some(x.source.size)
       && x.source.key.dataset == row.dataset && x.source.key.version == x.version
  }

  /** Every command ever sent agrees, field by field, with the tables of every later state. */
  lemma CommandsTellTheTruth(c: Config, ops: seq<Op>, i: nat)
    requires i < |Reached(c, ops).commands|
    ensures TellsTheTruth(Reached(c, ops), Reached(c, ops).commands[i])
  {
    hide Inv, Run;
    ReachedInv(c, ops);
    var db := Reached(c, ops);
    CommandFacts(db, i);
    VersionIsAvailable(db, db.commands[i].job);
  }

  lemma VersionIsAvailable(db: Db, j: Uuid)
    requires j in db.jobs
    requires Inv(db)
    ensures db.jobs[j].version in db.catalog.versions && db.catalog.versions[db.jobs[j].version].state == VersionAvailable
    ensures db.catalog.versions[db.jobs[j].version].size.Some?
    ensures db.jobs[j].operations != [] && "" !in db.jobs[j].operations
  {
    hide Chained, Leases, Counted, Recorded, InBudget, Projected, Promoted, Lettered, Keyed, Tracked, CommandOk;
  }

  /** Worker `w` can take job `j` now: alive, able, not locked by another transaction, and with room for one more. */
  ghost predicate IsFree(db: Db, c: Config, j: Uuid, now: Time, locked: set<Uuid>, w: Uuid) {
    && j in db.jobs && w in db.workers && w !in locked
    && (db.workers[w].status == Ready || db.workers[w].status == Busy)
    && db.workers[w].lastHeartbeatAt.Some? && db.workers[w].lastHeartbeatAt.value >= now - c.heartbeatTtl
    && (forall op | op in db.jobs[j].operations :: op in db.workers[w].operations)
    && |HeldBy(db.attempts, w)| < db.workers[w].maxConcurrency
  }

  /** `w` comes before `v`: never assigned, or assigned earlier, and the smaller identifier decides a tie. */
  predicate ComesBefore(w: Uuid, at: Option<Time>, v: Uuid, than: Option<Time>) {
    if at == than then w < v else at.None? || (than.Some? && at.value < than.value)
  }

  /** Of all that are free, `w` comes first. */
  ghost predicate IsFirst(db: Db, c: Config, j: Uuid, now: Time, locked: set<Uuid>, w: Uuid) {
    && IsFree(db, c, j, now, locked, w)
    && forall v | v != w && IsFree(db, c, j, now, locked, v) ::
         ComesBefore(w, db.workers[w].lastAssignedAt, v, db.workers[v].lastAssignedAt)
  }

  lemma FreeIsCandidate(db: Db, c: Config, j: Uuid, now: Time, locked: set<Uuid>, w: Uuid)
    requires j in db.jobs
    ensures IsFree(db, c, j, now, locked, w)
       <==> && WorkerRegistry.IsCandidate(db.workers, OperationSet(db.jobs[j].operations), now - c.heartbeatTtl, locked, w)
            && WorkerRegistry.HasRoom(db.workers, db.attempts, w)
  {
    var required := OperationSet(db.jobs[j].operations);
    assert forall op | op in db.jobs[j].operations :: op in required;
  }

  /** The choice names the first free worker, and fails only if there is none. */
  lemma ChoiceIsFirst(db: Db, c: Config, j: Uuid, now: Time, locked: set<Uuid>)
    requires j in db.jobs
    ensures
      match WorkerRegistry.Choose(db.workers, db.attempts, OperationSet(db.jobs[j].operations), now - c.heartbeatTtl, locked)
      case None => forall w :: !IsFree(db, c, j, now, locked, w)
      case Some(w) => IsFirst(db, c, j, now, locked, w) && IsFree(db, c, j, now, locked, w) && w in db.workers
  {
    hide HeldBy, OperationSet, IsFree, WorkerRegistry.IsEligible, WorkerRegistry.Choose;
    var required, cutoff := OperationSet(db.jobs[j].operations), now - c.heartbeatTtl;
    WorkerRegistry.ChooseIsComplete(db.workers, db.attempts, required, cutoff, locked);
    forall w ensures IsFree(db, c, j, now, locked, w)
                <==> && WorkerRegistry.IsCandidate(db.workers, required, cutoff, locked, w)
                     && WorkerRegistry.HasRoom(db.workers, db.attempts, w)
    {
      FreeIsCandidate(db, c, j, now, locked, w);
    }
    ChosenIsChoice(db.workers, db.attempts, required, cutoff, locked);
  }

  lemma FirstIsUnique(db: Db, c: Config, j: Uuid, now: Time, locked: set<Uuid>, v: Uuid, w: Uuid)
    requires IsFirst(db, c, j, now, locked, v) && IsFirst(db, c, j, now, locked, w)
    ensures v == w
  {
    hide IsFree;
    FreeIsKnown(db, c, j, now, locked, v);
    FreeIsKnown(db, c, j, now, locked, w);
  }

  lemma FreeIsKnown(db: Db, c: Config, j: Uuid, now: Time, locked: set<Uuid>, w: Uuid)
    requires IsFree(db, c, j, now, locked, w)
    ensures w in db.workers
  {
  }

  lemma ChosenIsChoice(workers: map<Uuid, Worker>, attempts: map<Uuid, Attempt>, required: set<string>, cutoff: Time, locked: set<Uuid>)
    ensures
      var w := WorkerRegistry.Choose(workers, attempts, required, cutoff, locked);
      w.Some? ==> WorkerRegistry.IsChoice(workers, attempts, required, cutoff, locked, w.value)
  {
    hide WorkerRegistry.IsChoice;
  }

  /**
   * The newest attempt of `j` is leased to `w` until `deadline`, the worker is stamped, and one command is sent
   * that tells the worker about it.
   */
  ghost predicate Acquired(db: Db, after: Db, j: Uuid, a: Uuid, w: Uuid, lease: Uuid, now: Time, deadline: Time) {
    && IsNewest(db.attempts, j, a)
    && Moved(db, after, j, Leased, None, -1, 1)
    && after.attempts == db.attempts[a := Attempt(j, db.attempts[a].number, AttemptLeased, Some(lease), Some(w), Some(deadline))]
    && w in db.workers && after.workers == db.workers[w := db.workers[w].(lastAssignedAt := Some(now))]
    && |after.commands| == |db.commands| + 1 && after.commands[..|db.commands|] == db.commands
    && var x := after.commands[|db.commands|];
       && x.job == j && x.attempt == a && x.lease == lease && x.worker == w && TellsTheTruth(after, x)
       && OnlyJobTables(db.(workers := after.workers, commands := after.commands), after)
  }

  ghost predicate GoesToFirst(db: Db, after: Db, c: Config, j: Uuid, now: Time, locked: set<Uuid>, lease: Uuid, deadline: Time) {
    exists a, w :: IsFirst(db, c, j, now, locked, w) && Acquired(db, after, j, a, w, lease, now, deadline)
  }

  /** What becomes of an attempt to lease job `j`. */
  ghost predicate AcquireAnswer(db: Db, c: Config, j: Uuid, requested: Time, now: Time, locked: set<Uuid>, lease: Uuid, tx: Tx) {
    var duration := if requested == 0 then c.leaseDuration else requested;
    if j == NIL || duration <= 0 || duration > 1_800_000_000_000 then tx == Rollback(InvalidInput)
    else if j !in db.jobs then tx == Rollback(JobNotFound)
    else if db.jobs[j].state != Queued then tx == Rollback(JobInWrongState)
    else if db.jobs[j].nextAttemptAt.Some? && db.jobs[j].nextAttemptAt.value > now then tx == Rollback(LeaseNotReady)
    else if forall w :: !IsFree(db, c, j, now, locked, w) then tx == Rollback(WorkerUnavailable)
    else if IsFirst(db, c, j, now, locked, NIL) then tx == Rollback(WorkerUnavailable)
    else if lease == NIL || (exists b :: b in db.attempts && db.attempts[b].lease == Some(lease)) then tx == Rollback(UniqueViolation)
    else tx.Commit? && GoesToFirst(db, tx.db, c, j, now, locked, lease, now + duration)
  }

  lemma AcquireOutcome(c: Config, ops: seq<Op>, j: Uuid, requested: Time, now: Time, locked: set<Uuid>, lease: Uuid)
    ensures AcquireAnswer(Reached(c, ops), c, j, requested, now, locked, lease,
                          Acquire(Reached(c, ops), c, j, requested, now, locked, lease))
  {
    hide Inv, Run, AcquireAnswer, Acquire;
    ReachedInv(c, ops);
    AcquireIsAnswered(Reached(c, ops), c, j, requested, now, locked, lease);
  }

  lemma AcquireIsAnswered(db: Db, c: Config, j: Uuid, requested: Time, now: Time, locked: set<Uuid>, lease: Uuid)
    requires Inv(db)
    ensures AcquireAnswer(db, c, j, requested, now, locked, lease, Acquire(db, c, j, requested, now, locked, lease))
  {
    hide Inv, Newest, Move, WorkerRegistry.Choose, IsFree, IsFirst, Acquired, OperationSet, LeaseIds;
    if j in db.jobs {
      var a := NewestRow(db, j);
      VersionIsAvailable(db, j);
      ChoiceIsFirst(db, c, j, now, locked);
      if IsFirst(db, c, j, now, locked, NIL) {
        var w := WorkerRegistry.Choose(db.workers, db.attempts, OperationSet(db.jobs[j].operations), now - c.heartbeatTtl, locked);
        if w.Some? {
          FirstIsUnique(db, c, j, now, locked, NIL, w.value);
        }
      }
      LeaseIdIsTaken(db.attempts, lease);
      var tx := Acquire(db, c, j, requested, now, locked, lease);
      if tx.Commit? {
        var duration := if requested == 0 then c.leaseDuration else requested;
        var w := WorkerRegistry.Choose(db.workers, db.attempts, OperationSet(db.jobs[j].operations), now - c.heartbeatTtl, locked);
        AcquireTakes(db, tx.db, j, a, w.value, lease, now, now + duration);
      }
    }
  }

  lemma AcquireTakes(db: Db, after: Db, j: Uuid, a: Uuid, w: Uuid, lease: Uuid, now: Time, deadline: Time)
    requires j in db.jobs && db.jobs[j].state == Queued && IsNewest(db.attempts, j, a) && w in db.workers
    requires db.jobs[j].version in db.catalog.versions && db.catalog.versions[db.jobs[j].version].size.Some?
    requires
      var held := db.attempts[a].(state := AttemptLeased, lease := Some(lease), worker := Some(w), expiresAt := Some(deadline));
      after == Move(db, j, a, Leased, held, None).(
        workers := db.workers[w := db.workers[w].(lastAssignedAt := Some(now))],
        commands := db.commands + [LeaseCommand(j, db.jobs[j].version, a, lease, w, db.attempts[a].number, db.jobs[j].operations,
                                                SourceOf(db.jobs[j].version, db.catalog.versions[db.jobs[j].version]))])
    requires Inv(db)
    ensures Acquired(db, after, j, a, w, lease, now, deadline)
  {
    hide Inv, Move, Moved, TellsTheTruth;
    var held := db.attempts[a].(state := AttemptLeased, lease := Some(lease), worker := Some(w), expiresAt := Some(deadline));
    var moved := Move(db, j, a, Leased, held, None);
    MoveMoves(db, j, a, Leased, held, None, -1, 1);
    MovedIgnores(db, moved, after, j, Leased, None, -1, 1);
    VersionIsAvailable(db, j);
    assert TellsTheTruth(after, after.commands[|db.commands|]) by {
      MovedRow(db, after, j, Leased, None, -1, 1);
      NewCommandTells(db, after, j, a, w, lease);
    }
  }

  lemma MovedRow(db: Db, after: Db, j: Uuid, to: JobState, at: Option<Time>, queued: int, active: int)
    requires Moved(db, after, j, to, at, queued, active)
    ensures j in db.jobs && j in after.jobs && after.jobs[j] == db.jobs[j].(state := to, nextAttemptAt := at)
  {
  }

  lemma NewCommandTells(db: Db, after: Db, j: Uuid, a: Uuid, w: Uuid, lease: Uuid)
    requires j in db.jobs && db.jobs[j].version in db.catalog.versions
    requires
      var row := db.catalog.versions[db.jobs[j].version];
      && row.size.Some? && row.state == VersionAvailable && after.catalog == db.catalog
      && a in after.attempts && after.attempts[a].job == j
      && after.attempts[a].lease == Some(lease) && after.attempts[a].worker == Some(w)
      && j in after.jobs && after.jobs[j].version == db.jobs[j].version && after.jobs[j].operations == db.jobs[j].operations
    ensures TellsTheTruth(after, LeaseCommand(j, db.jobs[j].version, a, lease, w, after.attempts[a].number, db.jobs[j].operations,
                                              SourceOf(db.jobs[j].version, db.catalog.versions[db.jobs[j].version])))
  {
  }

  lemma LeaseIdIsTaken(attempts: map<Uuid, Attempt>, lease: Uuid)
    ensures lease in LeaseIds(attempts) <==> exists b :: b in attempts && attempts[b].lease == Some(lease)
  {
  }
}
