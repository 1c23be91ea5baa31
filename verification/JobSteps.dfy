/**
 * Every transaction of the job protocol as one atomic step on the tables. Quotas move exactly, and
 * inserts are unconditional, where the repositories clamp at zero, skip conflicts and read rows
 * captured earlier; `ControlPlane` proves that the two agree.
 */
module JobSteps {
  import opened Tables
  import opened JobLifecycle
  import opened JobTables
  import opened Datasets
  import RetryPolicy
  import WorkerRegistry

  const MAX_QUEUED_JOBS_PER_OWNER := 100
  const MAX_ATTEMPTS := 20
  const MAX_OPERATIONS := 32
  const MAX_LEASE_DURATION: Time := 1_800_000_000_000
  const MAX_SWEEP_BATCH := 1000
  const MAX_ARTIFACTS_PER_RESULT := 32

  /** The lease repository's configuration, and the registry's heartbeat lifetime. */
  datatype Config = Config(
    leaseDuration: Time, renewalWindow: Time, sweepLimit: int, policy: RetryPolicy.Policy, heartbeatTtl: Time)

  predicate ValidConfig(c: Config) {
    && 0 < c.leaseDuration <= MAX_LEASE_DURATION
    && 0 < c.renewalWindow <= MAX_LEASE_DURATION
    && 1 <= c.sweepLimit <= MAX_SWEEP_BATCH
    && RetryPolicy.Valid(c.policy)
  }

  function NormalizeDuration(value: Time, fallback: Time): Option<Time> {
    var d := if value == 0 then fallback else value;
    if d <= 0 || d > MAX_LEASE_DURATION then None else Some(d)
  }

  // ---------------------------------------------------------------- Building blocks

  function Bit(b: bool): int {
    if b then 1 else 0
  }

  function QuotaOf(quotas: map<Uuid, Quota>, owner: Uuid): Quota {
    if owner in quotas then quotas[owner] else Quota(0, 0)
  }

  /** The owner's counters after one of its jobs goes from one state to another. */
  function Transfer(quotas: map<Uuid, Quota>, owner: Uuid, from: JobState, to: JobState): map<Uuid, Quota> {
    var q := QuotaOf(quotas, owner);
    quotas[owner := Quota(q.queued - Bit(from == Queued) + Bit(to == Queued),
                          q.active - Bit(IsActive(from)) + Bit(IsActive(to)))]
  }

  function HistoryOf(history: map<Uuid, seq<Transition>>, j: Uuid): seq<Transition> {
    if j in history then history[j] else []
  }

  /** Job `j` goes to state `to`, and its newest attempt `a` becomes `attempt`. */
  function Move(db: Db, j: Uuid, a: Uuid, to: JobState, attempt: Attempt, nextAttemptAt: Option<Time>): Db
    requires j in db.jobs
  {
    var job := db.jobs[j];
    db.(jobs := db.jobs[j := job.(state := to, nextAttemptAt := nextAttemptAt)],
        attempts := db.attempts[a := attempt],
        quotas := Transfer(db.quotas, job.owner, job.state, to),
        history := db.history[j := HistoryOf(db.history, j) + [Transition(Some(job.state), to)]])
  }

  /** As `Move` to the queue, with a further attempt `next` to be leased. */
  function Requeue(db: Db, j: Uuid, a: Uuid, attempt: Attempt, next: Uuid, nextAttemptAt: Option<Time>): Db
    requires j in db.jobs
  {
    var moved := Move(db, j, a, Queued, attempt, nextAttemptAt);
    moved.(attempts := moved.attempts[next := Attempt(j, attempt.number + 1, AttemptCreated, None, None, None)])
  }

  function Project(db: Db, j: Uuid, a: Uuid, outcome: ResultOutcome, keys: seq<string>): Db {
    db.(projections := db.projections[(j, a) := Projection(outcome, keys)])
  }

  // ---------------------------------------------------------------- job: create, cancel, retry

  datatype CreateCommand = CreateCommand(
    owner: Uuid, actor: Uuid, version: Uuid, operations: seq<string>, key: string,
    priority: int, maxAttempts: int, traceId: string, fingerprint: string)

  predicate KnownOperation(op: string) {
    op in {"PROFILE_DATASET", "CHECK_MISSING_VALUES", "CHECK_DUPLICATES", "DETECT_OUTLIERS", "VALIDATE_QUALITY"}
  }

  predicate ValidCreate(c: CreateCommand) {
    && c.owner != NIL && c.actor != NIL && c.version != NIL
    && 1 <= |c.operations| <= MAX_OPERATIONS
    && (forall op | op in c.operations :: KnownOperation(op))
    && 0 <= c.priority <= 100
    && 1 <= c.maxAttempts <= MAX_ATTEMPTS
    && |c.key| <= 128
    && c.traceId != ""
  }

  function Create(db: Db, c: CreateCommand, job: Uuid, attempt: Uuid): Tx {
    var slot := (c.owner, c.key);
    var cat := db.catalog;
    if !ValidCreate(c) then Rollback(InvalidInput)
    else if c.key != "" && slot in db.idempotency then
      if db.idempotency[slot].fingerprint == c.fingerprint then Commit(db) else Rollback(IdempotencyConflict)
    else if c.version !in cat.versions || cat.versions[c.version].dataset !in cat.datasets then Rollback(VersionMissing)
    else if cat.datasets[cat.versions[c.version].dataset].owner != c.owner then Rollback(Forbidden)
    else if IsDeleted(cat.datasets[cat.versions[c.version].dataset])
            || cat.versions[c.version].state != VersionAvailable then Rollback(VersionUnavailable)
    else if QuotaOf(db.quotas, c.owner).queued >= MAX_QUEUED_JOBS_PER_OWNER then Rollback(QuotaExceeded)
    else if job == NIL || job in db.jobs || attempt == NIL || attempt in db.attempts then Rollback(UniqueViolation)
    else
      Commit(db.(
        jobs := db.jobs[job := Job(c.owner, c.version, Queued, c.operations, c.maxAttempts, None)],
        attempts := db.attempts[attempt := Attempt(job, 1, AttemptCreated, None, None, None)],
        quotas := Transfer(db.quotas, c.owner, Created, Queued),
        history := db.history[job := [Transition(None, Queued)]],
        idempotency := if c.key == "" then db.idempotency
                       else db.idempotency[slot := IdempotencyRecord(c.fingerprint, job)]))
  }

  ghost function RequestCancel(db: Db, j: Uuid, actor: Uuid, crossOwner: bool, reasonLength: nat): Tx {
    if j == NIL || actor == NIL then Rollback(InvalidInput)
    else if j !in db.jobs then Rollback(JobNotFound)
    else if !crossOwner && db.jobs[j].owner != actor then Rollback(Forbidden)
    else if db.jobs[j].state == CancelRequested || db.jobs[j].state == Cancelled then Commit(db)
    else if !ValidTransition(db.jobs[j].state, CancelRequested) then Rollback(JobInWrongState)
    else if reasonLength > 500 then Rollback(InvalidInput)
    else
      match Newest(db.attempts, j)
      case None => Rollback(JobInWrongState)
      case Some(a) =>
        var attempt := db.attempts[a];
        if db.jobs[j].state == Queued then
          Commit(Project(Move(db, j, a, Cancelled, attempt.(state := AttemptCancelled), None), j, a, ResultCancelled, []))
        else if !IsHeld(attempt.state) then Rollback(JobInWrongState)
        else Commit(Move(db, j, a, CancelRequested, attempt, db.jobs[j].nextAttemptAt))
  }

  ghost function RequestRetry(db: Db, j: Uuid, actor: Uuid, crossOwner: bool, next: Uuid): Tx {
    if j == NIL || actor == NIL then Rollback(InvalidInput)
    else if j !in db.jobs then Rollback(JobNotFound)
    else if !crossOwner && db.jobs[j].owner != actor then Rollback(Forbidden)
    else if db.jobs[j].state == Queued then Commit(db)
    else if db.jobs[j].state !in {FailedRetryable, FailedPermanent, DeadLettered} then Rollback(JobInWrongState)
    else if QuotaOf(db.quotas, db.jobs[j].owner).queued >= MAX_QUEUED_JOBS_PER_OWNER then Rollback(QuotaExceeded)
    else
      match Newest(db.attempts, j)
      case None => Rollback(JobInWrongState)
      case Some(a) =>
        if db.attempts[a].number + 1 > db.jobs[j].maxAttempts && db.jobs[j].state != DeadLettered
        then Rollback(JobInWrongState)
        else if next == NIL || next in db.attempts then Rollback(UniqueViolation)
        else Commit(Requeue(db, j, a, db.attempts[a], next, None))
  }

  // ---------------------------------------------------------------- lease: acquire, renew, sweep

  function SourceOf(version: Uuid, row: Version): Source
    requires row.size.Some?
  {
    Source(ObjectKey(row.dataset, version), row.contentType, row.format, row.size.value)
  }

  function OperationSet(operations: seq<string>): set<string> {
    set op | op in operations
  }

  function LeaseIds(attempts: map<Uuid, Attempt>): set<Uuid> {
    set a | a in attempts && attempts[a].lease.Some? :: attempts[a].lease.value
  }

  /** `locked` are the worker rows that concurrent transactions hold; `lease` is the fresh lease id. */
  ghost function Acquire(db: Db, c: Config, j: Uuid, requested: Time, now: Time, locked: set<Uuid>, lease: Uuid): Tx {
    var duration := NormalizeDuration(requested, c.leaseDuration);
    if j == NIL || duration.None? then Rollback(InvalidInput)
    else if j !in db.jobs || db.jobs[j].version !in db.catalog.versions then Rollback(JobNotFound)
    else
      match Newest(db.attempts, j)
      case None => Rollback(JobNotFound)
      case Some(a) =>
        var job, attempt := db.jobs[j], db.attempts[a];
        var version := db.catalog.versions[job.version];
        if job.state != Queued || attempt.state != AttemptCreated then Rollback(JobInWrongState)
        else if job.nextAttemptAt.Some? && job.nextAttemptAt.value > now then Rollback(LeaseNotReady)
        else if version.size.None? then Rollback(SourceSizeMissing)
        else if job.operations == [] || "" in job.operations then Rollback(InvalidInput)
        else
          match WorkerRegistry.Choose(db.workers, db.attempts, OperationSet(job.operations), now - c.heartbeatTtl, locked)
          case None => Rollback(WorkerUnavailable)
          case Some(w) =>
            if w == NIL then Rollback(WorkerUnavailable)
            else if lease == NIL || lease in LeaseIds(db.attempts) then Rollback(UniqueViolation)
            else
              var held := attempt.(state := AttemptLeased, lease := Some(lease), worker := Some(w),
                                   expiresAt := Some(now + duration.value));
              Commit(Move(db, j, a, Leased, held, None).(
                workers := db.workers[w := db.workers[w].(lastAssignedAt := Some(now))],
                commands := db.commands + [LeaseCommand(j, job.version, a, lease, w, attempt.number, job.operations,
                                                        SourceOf(job.version, version))]))
  }

  predicate HoldsLease(attempts: map<Uuid, Attempt>, a: Uuid, lease: Uuid, worker: Uuid) {
    a in attempts && attempts[a].lease == Some(lease) && attempts[a].worker == Some(worker)
  }

  ghost function Renew(db: Db, c: Config, lease: Uuid, worker: Uuid, requested: Time, now: Time): Tx {
    var duration := NormalizeDuration(requested, c.renewalWindow);
    if lease == NIL || worker == NIL || duration.None? then Rollback(InvalidInput)
    else if !exists a :: HoldsLease(db.attempts, a, lease, worker) then Rollback(LeaseNotFound)
    else
      var a :| HoldsLease(db.attempts, a, lease, worker);
      Extend(db, a, duration.value, now)
  }

  /** Renewal of the lease that attempt `a` carries. */
  function Extend(db: Db, a: Uuid, duration: Time, now: Time): Tx
    requires a in db.attempts
  {
    var attempt := db.attempts[a];
    if !IsHeld(attempt.state) then Rollback(LeaseNotRenewable)
    else if attempt.expiresAt.None? || attempt.expiresAt.value <= now then Rollback(LeaseExpired)
    else Commit(db.(attempts := db.attempts[a := attempt.(expiresAt := Some(now + duration))]))
  }

  /** The row filter of the sweep's query. */
  predicate IsExpired(db: Db, a: Uuid, now: Time) {
    && a in db.attempts && db.attempts[a].job in db.jobs
    && IsActive(db.jobs[db.attempts[a].job].state)
    && IsHeld(db.attempts[a].state)
    && db.attempts[a].expiresAt.Some? && db.attempts[a].expiresAt.value <= now
  }

  /** The ids a sweep draws for one expired lease, and its random draw. */
  datatype NewIds = NewIds(attempt: Uuid, deadLetter: Uuid, draw: nat)

  /** One expired lease: cancel, retry or dead-letter its job, as the tables stand now. */
  function Expire(db: Db, c: Config, a: Uuid, now: Time, ids: NewIds): Tx
    requires a in db.attempts && db.attempts[a].job in db.jobs
  {
    var attempt := db.attempts[a];
    var j := attempt.job;
    var job := db.jobs[j];
    var over := attempt.(state := AttemptTimedOut, expiresAt := Some(now));
    if job.state == CancelRequested then
      Commit(Project(Move(db, j, a, Cancelled, over.(state := AttemptCancelled), None), j, a, ResultCancelled, []))
    else if 1 <= attempt.number && attempt.number + 1 <= job.maxAttempts then
      match RetryPolicy.Delay(RetryPolicy.Widened(c.policy, job.maxAttempts), attempt.number + 1, Some(ids.draw))
      case None => Rollback(RetryDelayUnavailable)
      case Some(delay) =>
        if ids.attempt == NIL || ids.attempt in db.attempts then Rollback(UniqueViolation)
        else Commit(Requeue(db, j, a, over, ids.attempt, Some(now + delay)))
    else if ids.deadLetter in db.deadLetters || attempt.lease.None? || attempt.worker.None? then Rollback(UniqueViolation)
    else
      Commit(Move(db, j, a, DeadLettered, over, None).(
        deadLetters := db.deadLetters[ids.deadLetter :=
          DeadLetter(j, a, attempt.lease.value, attempt.worker.value, attempt.number, false)]))
  }

  /** Expires a batch one lease after another, each against the tables the previous one left. */
  function ExpireAll(db: Db, c: Config, batch: seq<Uuid>, now: Time, ids: seq<NewIds>): Tx
    requires |ids| == |batch|
    decreases |batch|
  {
    if batch == [] then Commit(db)
    else if !IsExpired(db, batch[0], now) then Rollback(JobInWrongState)
    else
      match Expire(db, c, batch[0], now, ids[0])
      case Rollback(e) => Rollback(e)
      case Commit(next) => ExpireAll(next, c, batch[1..], now, ids[1..])
  }

  /** What the sweep's query may return: distinct expired leases, no more than the limit. */
  predicate IsBatch(db: Db, batch: seq<Uuid>, now: Time, limit: int) {
    && |batch| <= limit
    && (forall i | 0 <= i < |batch| :: IsExpired(db, batch[i], now))
    && (forall i, k | 0 <= i < k < |batch| :: batch[i] != batch[k])
  }

  function SweepLimit(c: Config, limit: int): int {
    if limit == 0 then c.sweepLimit else limit
  }

  /** A batch that the query cannot return is not a sweep and changes nothing. */
  function Sweep(db: Db, c: Config, limit: int, batch: seq<Uuid>, now: Time, ids: seq<NewIds>): Tx
    requires |ids| == |batch|
  {
    if SweepLimit(c, limit) < 1 || SweepLimit(c, limit) > MAX_SWEEP_BATCH then Rollback(InvalidInput)
    else if !IsBatch(db, batch, now, SweepLimit(c, limit)) then Commit(db)
    else ExpireAll(db, c, batch, now, ids)
  }

  // ---------------------------------------------------------------- result: the six worker events

  datatype Event =
    | Started(job: Uuid, attempt: Uuid, lease: Uuid, worker: Uuid, number: int)
    | Progressed(job: Uuid, attempt: Uuid, lease: Uuid, rows: int, percent: real, updatedAt: Time)
    | SucceededEvent(job: Uuid, attempt: Uuid, lease: Uuid, worker: Uuid, keys: seq<string>)
    | FailedEvent(job: Uuid, attempt: Uuid, lease: Uuid, worker: Uuid, retryable: bool)
    | CancelledEvent(job: Uuid, attempt: Uuid, lease: Uuid, worker: Uuid)
    | ArtifactCreated(job: Uuid, attempt: Uuid, lease: Uuid, id: Uuid, key: string)

  /** The checks made before the event reaches the database. */
  predicate ValidEvent(e: Event) {
    && e.job != NIL && e.attempt != NIL && e.lease != NIL
    && match e
       case Started(_, _, _, worker, number) => worker != NIL && number >= 1
       case Progressed(_, _, _, rows, percent, _) => rows >= 0 && 0.0 <= percent <= 100.0
       case SucceededEvent(_, _, _, worker, keys) =>
         && worker != NIL && |keys| <= MAX_ARTIFACTS_PER_RESULT
         && forall i, k | 0 <= i < k < |keys| :: keys[i] != keys[k]
       case FailedEvent(_, _, _, worker, _) => worker != NIL
       case CancelledEvent(_, _, _, worker) => worker != NIL
       case ArtifactCreated(_, _, _, id, _) => id != NIL
  }

  /** The lease fence. A worker of `NIL` matches any worker. */
  predicate MatchesLease(attempt: Attempt, lease: Uuid, worker: Uuid) {
    && attempt.lease == Some(lease)
    && (worker == NIL || attempt.worker == Some(worker))
  }

  /** What an event does inside its transaction. */
  datatype Effect = Effect(db: Db, status: InboxStatus) | Abort(error: Error)

  function ApplyStarted(db: Db, e: Event): Effect
    requires e.Started? && e.attempt in db.attempts && e.job in db.jobs
  {
    var job, attempt := db.jobs[e.job], db.attempts[e.attempt];
    if attempt.number != e.number || !MatchesLease(attempt, e.lease, e.worker) then Effect(db, Ignored)
    else if (job.state != Leased && job.state != Running) || !IsHeld(attempt.state) then Effect(db, Ignored)
    else if job.state == Leased then
      Effect(Move(db, e.job, e.attempt, Running, attempt.(state := AttemptRunning), job.nextAttemptAt), Applied)
    else Effect(db, Applied)
  }

  /** Whether a snapshot may replace the stored one. */
  predicate Supersedes(old_: Progress, new_: Progress) {
    || old_.attempt != new_.attempt
    || (new_.updatedAt > old_.updatedAt && new_.rows >= old_.rows && new_.percent >= old_.percent)
  }

  function ApplyProgressed(db: Db, e: Event): Effect
    requires e.Progressed? && e.attempt in db.attempts && e.job in db.jobs
  {
    var snapshot := Progress(e.attempt, e.lease, e.rows, e.percent, e.updatedAt);
    if !MatchesLease(db.attempts[e.attempt], e.lease, NIL) then Effect(db, Ignored)
    else if db.jobs[e.job].state != Running || db.attempts[e.attempt].state != AttemptRunning then Effect(db, Ignored)
    else if e.job in db.progress && !Supersedes(db.progress[e.job], snapshot) then Effect(db, Ignored)
    else Effect(db.(progress := db.progress[e.job := snapshot]), Applied)
  }

  /** Marks the listed artifacts of one attempt canonical. */
  function Promote(artifacts: map<(Uuid, Uuid, string), Artifact>, j: Uuid, a: Uuid, keys: seq<string>)
    : map<(Uuid, Uuid, string), Artifact>
  {
    map r | r in artifacts ::
      if r.0 == j && r.1 == a && r.2 in keys then artifacts[r].(canonical := true) else artifacts[r]
  }

  function ApplySucceeded(db: Db, e: Event): Effect
    requires e.SucceededEvent? && e.attempt in db.attempts && e.job in db.jobs
  {
    var job, attempt := db.jobs[e.job], db.attempts[e.attempt];
    if !MatchesLease(attempt, e.lease, e.worker) then Effect(db, Ignored)
    else if job.state != Running || attempt.state != AttemptRunning then Effect(db, Ignored)
    else
      var moved := Move(db, e.job, e.attempt, Succeeded, attempt.(state := AttemptSucceeded), job.nextAttemptAt);
      Effect(Project(moved, e.job, e.attempt, ResultSucceeded, e.keys).(
               artifacts := Promote(db.artifacts, e.job, e.attempt, e.keys)), Applied)
  }

  function ApplyFailed(db: Db, e: Event, now: Time, ids: NewIds): Effect
    requires e.FailedEvent? && e.attempt in db.attempts && e.job in db.jobs
  {
    var job, attempt := db.jobs[e.job], db.attempts[e.attempt];
    var over := attempt.(state := AttemptFailed);
    var failed := Project(db, e.job, e.attempt, ResultFailed, []);
    if !MatchesLease(attempt, e.lease, e.worker) then Effect(db, Ignored)
    else if job.state != Running || attempt.state != AttemptRunning then Effect(db, Ignored)
    else if e.retryable && attempt.number < job.maxAttempts then
      match RetryPolicy.Delay(RetryPolicy.Widened(RetryPolicy.DEFAULT_POLICY, job.maxAttempts), attempt.number + 1, None)
      case None => Abort(RetryDelayUnavailable)
      case Some(delay) =>
        if ids.attempt == NIL || ids.attempt in db.attempts then Abort(UniqueViolation)
        else Effect(Requeue(failed, e.job, e.attempt, over, ids.attempt, Some(now + delay)), Applied)
    else if !e.retryable then
      Effect(Move(failed, e.job, e.attempt, FailedPermanent, over, None), Applied)
    else if ids.deadLetter in db.deadLetters then Abort(UniqueViolation)
    else
      Effect(Move(failed, e.job, e.attempt, DeadLettered, over, None).(
               deadLetters := db.deadLetters[ids.deadLetter :=
                 DeadLetter(e.job, e.attempt, e.lease, e.worker, attempt.number, false)]), Applied)
  }

  function ApplyCancelled(db: Db, e: Event): Effect
    requires e.CancelledEvent? && e.attempt in db.attempts && e.job in db.jobs
  {
    var job, attempt := db.jobs[e.job], db.attempts[e.attempt];
    if !MatchesLease(attempt, e.lease, e.worker) then Effect(db, Ignored)
    else if job.state != CancelRequested || !IsHeld(attempt.state) then Effect(db, Ignored)
    else
      var moved := Move(db, e.job, e.attempt, Cancelled, attempt.(state := AttemptCancelled), job.nextAttemptAt);
      Effect(Project(moved, e.job, e.attempt, ResultCancelled, []), Applied)
  }

  /** The attempt succeeded and its result lists the key. */
  predicate IsListed(projections: map<(Uuid, Uuid), Projection>, j: Uuid, a: Uuid, key: string) {
    && (j, a) in projections
    && projections[(j, a)].outcome == ResultSucceeded
    && key in projections[(j, a)].keys
  }

  /** Another artifact row already has this primary key. */
  predicate ArtifactIdTaken(artifacts: map<(Uuid, Uuid, string), Artifact>, id: Uuid) {
    exists r | r in artifacts :: artifacts[r].id == id
  }

  function ApplyArtifact(db: Db, e: Event): Effect
    requires e.ArtifactCreated? && e.attempt in db.attempts && e.job in db.jobs
  {
    var state := db.jobs[e.job].state;
    var row := (e.job, e.attempt, e.key);
    var listed := IsListed(db.projections, e.job, e.attempt, e.key);
    if !MatchesLease(db.attempts[e.attempt], e.lease, NIL) then Effect(db, Ignored)
    else if state != Leased && state != Running && state != Succeeded then Effect(db, Ignored)
    else if state == Succeeded && !listed then Effect(db, Ignored)
    else if row !in db.artifacts && ArtifactIdTaken(db.artifacts, e.id) then Abort(UniqueViolation)
    else Effect(db.(artifacts := db.artifacts[row := Upserted(db.artifacts, row, Artifact(e.id, e.lease, listed))]), Applied)
  }

  /** On conflict the stored row stays, except that it may become canonical. */
  function Upserted(artifacts: map<(Uuid, Uuid, string), Artifact>, row: (Uuid, Uuid, string), incoming: Artifact): Artifact {
    if row in artifacts then artifacts[row].(canonical := artifacts[row].canonical || incoming.canonical) else incoming
  }

  function Apply(db: Db, e: Event, now: Time, ids: NewIds): Effect {
    if e.attempt !in db.attempts || db.attempts[e.attempt].job != e.job || e.job !in db.jobs then Effect(db, Ignored)
    else
      match e
      case Started(_, _, _, _, _) => ApplyStarted(db, e)
      case Progressed(_, _, _, _, _, _) => ApplyProgressed(db, e)
      case SucceededEvent(_, _, _, _, _) => ApplySucceeded(db, e)
      case FailedEvent(_, _, _, _, _) => ApplyFailed(db, e, now, ids)
      case CancelledEvent(_, _, _, _) => ApplyCancelled(db, e)
      case ArtifactCreated(_, _, _, _, _) => ApplyArtifact(db, e)
  }

  /** One delivery of a worker message: a message id takes effect at most once. */
  function Process(db: Db, message: Uuid, e: Event, now: Time, ids: NewIds): Tx {
    if !ValidEvent(e) then Rollback(InvalidInput)
    else if message in db.inbox then Commit(db)
    else
      match Apply(db, e, now, ids)
      case Abort(error) => Rollback(error)
      case Effect(next, status) => Commit(next.(inbox := next.inbox[message := status]))
  }

  // ---------------------------------------------------------------- dlq: replay

  /** The fields `processing.job.requested` must carry. */
  const REQUESTED_FIELDS :=
    {"jobId", "datasetVersionId", "attemptId", "leaseId", "workerId", "attemptNumber", "operations", "source"}

  /** The fields a replay puts in that message. */
  const REPLAY_FIELDS := {"jobId", "datasetVersionId", "operations"}

  /** The table changes a replay makes before it builds its message. */
  ghost function ReplayBody(db: Db, record: Uuid, actor: Uuid, crossOwner: bool, next: Uuid): Tx {
    if record == NIL || actor == NIL then Rollback(InvalidInput)
    else if record !in db.deadLetters || db.deadLetters[record].job !in db.jobs then Rollback(JobNotFound)
    else
      var j := db.deadLetters[record].job;
      if !crossOwner && db.jobs[j].owner != actor then Rollback(Forbidden)
      else if db.deadLetters[record].replayed || db.jobs[j].state != DeadLettered then Rollback(JobInWrongState)
      else if db.jobs[j].maxAttempts < 1 || db.jobs[j].maxAttempts > MAX_ATTEMPTS then Rollback(InvalidInput)
      else if QuotaOf(db.quotas, db.jobs[j].owner).queued >= MAX_QUEUED_JOBS_PER_OWNER then Rollback(QuotaExceeded)
      else
        match Newest(db.attempts, j)
        case None => Rollback(JobInWrongState)
        case Some(a) =>
          if next == NIL || next in db.attempts then Rollback(UniqueViolation)
          else
            Commit(Requeue(db, j, a, db.attempts[a], next, None).(
              deadLetters := db.deadLetters[record := db.deadLetters[record].(replayed := true)]))
  }

  ghost function Replay(db: Db, record: Uuid, actor: Uuid, crossOwner: bool, next: Uuid): Tx {
    match ReplayBody(db, record, actor, crossOwner, next)
    case Rollback(e) => Rollback(e)
    case Commit(body) => if REQUESTED_FIELDS <= REPLAY_FIELDS then Commit(body) else Rollback(InvalidEnvelope)
  }

  // ---------------------------------------------------------------- the whole system

  datatype Op =
    | OpCreate(command: CreateCommand, job: Uuid, attempt: Uuid)
    | OpCancel(target: Uuid, actor: Uuid, crossOwner: bool, reasonLength: nat)
    | OpRetry(target: Uuid, actor: Uuid, crossOwner: bool, next: Uuid)
    | OpAcquire(target: Uuid, requested: Time, now: Time, locked: set<Uuid>, lease: Uuid)
    | OpRenew(lease: Uuid, worker: Uuid, requested: Time, now: Time)
    | OpSweep(limit: int, batch: seq<Uuid>, now: Time, ids: seq<NewIds>)
    | OpDeliver(message: Uuid, event: Event, now: Time, id: NewIds)
    | OpReplay(record: Uuid, actor: Uuid, crossOwner: bool, next: Uuid)
    | OpCatalog(change: CatalogOp)
    | OpWorker(signal: WorkerRegistry.Event, now: Time)

  ghost function Perform(db: Db, c: Config, op: Op): Tx {
    match op
    case OpCreate(command, job, attempt) => Create(db, command, job, attempt)
    case OpCancel(j, actor, crossOwner, reasonLength) => RequestCancel(db, j, actor, crossOwner, reasonLength)
    case OpRetry(j, actor, crossOwner, next) => RequestRetry(db, j, actor, crossOwner, next)
    case OpAcquire(j, requested, now, locked, lease) => Acquire(db, c, j, requested, now, locked, lease)
    case OpRenew(lease, worker, requested, now) => Renew(db, c, lease, worker, requested, now)
    case OpSweep(limit, batch, now, ids) =>
      if |ids| != |batch| then Commit(db) else Sweep(db, c, limit, batch, now, ids)
    case OpDeliver(message, event, now, id) => Process(db, message, event, now, id)
    case OpReplay(record, actor, crossOwner, next) => Replay(db, record, actor, crossOwner, next)
    case OpCatalog(change) =>
      (match Datasets.Transact(db.catalog, change)
       case Refused(_) => Commit(db)
       case Done(catalog) => Commit(db.(catalog := catalog)))
    case OpWorker(signal, now) => Commit(db.(workers := WorkerRegistry.Receive(db.workers, signal, now)))
  }

  /** The tables after an operation, whether it committed or was rolled back. */
  ghost function Step(db: Db, c: Config, op: Op): Db {
    Perform(db, c, op).Settle(db)
  }

  /** The tables after a run of operations. */
  ghost function Run(db: Db, c: Config, ops: seq<Op>): Db
    decreases |ops|
  {
    if ops == [] then db else Run(Step(db, c, ops[0]), c, ops[1..])
  }
}
