/** The rows and tables of the job protocol, and the errors its transactions return. */
module JobTables {
  import opened Tables
  import opened JobLifecycle
  import opened Datasets

  datatype Job = Job(
    owner: Uuid, version: Uuid, state: JobState, operations: seq<string>,
    maxAttempts: int, nextAttemptAt: Option<Time>)

  datatype Attempt = Attempt(
    job: Uuid, number: int, state: AttemptState,
    lease: Option<Uuid>, worker: Option<Uuid>, expiresAt: Option<Time>)

  datatype Quota = Quota(queued: int, active: int)

  /** A state-history row of one job; `from` is NULL for the first. */
  datatype Transition = Transition(from: Option<JobState>, to: JobState)

  datatype ResultOutcome = ResultSucceeded | ResultFailed | ResultCancelled

  datatype Projection = Projection(outcome: ResultOutcome, keys: seq<string>)

  datatype Artifact = Artifact(id: Uuid, lease: Uuid, canonical: bool)

  datatype DeadLetter = DeadLetter(job: Uuid, attempt: Uuid, lease: Uuid, worker: Uuid, number: int, replayed: bool)

  datatype InboxStatus = Applied | Ignored

  datatype Progress = Progress(attempt: Uuid, lease: Uuid, rows: int, percent: real, updatedAt: Time)

  datatype IdempotencyRecord = IdempotencyRecord(fingerprint: string, job: Uuid)

  datatype WorkerStatus = Starting | Ready | Busy | Draining | Unhealthy | Offline

  datatype Worker = Worker(
    instance: string, operations: set<string>, status: WorkerStatus, maxConcurrency: int,
    startedAt: Time, observedAt: Time, lastHeartbeatAt: Option<Time>, lastAssignedAt: Option<Time>)

  /** What a lease command tells the worker about its input. */
  datatype Source = Source(key: ObjectKey, contentType: string, format: string, size: int)

  /** A `processing.job.requested` message put in the outbox by an acquisition. */
  datatype LeaseCommand = LeaseCommand(
    job: Uuid, version: Uuid, attempt: Uuid, lease: Uuid, worker: Uuid, number: int,
    operations: seq<string>, source: Source)

  datatype Db = Db(
    jobs: map<Uuid, Job>,
    attempts: map<Uuid, Attempt>,
    quotas: map<Uuid, Quota>,
    history: map<Uuid, seq<Transition>>,
    projections: map<(Uuid, Uuid), Projection>,
    artifacts: map<(Uuid, Uuid, string), Artifact>,
    deadLetters: map<Uuid, DeadLetter>,
    inbox: map<Uuid, InboxStatus>,
    progress: map<Uuid, Progress>,
    idempotency: map<(Uuid, string), IdempotencyRecord>,
    workers: map<Uuid, Worker>,
    commands: seq<LeaseCommand>,
    catalog: Catalog)

  const EMPTY := Db(map[], map[], map[], map[], map[], map[], map[], map[], map[], map[], map[], [],
                    Catalog(map[], map[]))

  datatype Error =
    | InvalidInput
    | JobNotFound
    | Forbidden
    | JobInWrongState
    | QuotaExceeded
    | VersionMissing
    | VersionUnavailable
    | IdempotencyConflict
    | LeaseNotFound
    | LeaseNotRenewable
    | LeaseExpired
    | LeaseNotReady
    | SourceSizeMissing
    | WorkerUnavailable
    | RetryDelayUnavailable
    | UniqueViolation
    | InvalidEnvelope

  /** A transaction either commits the tables it built or is rolled back with an error. */
  datatype Tx = Commit(db: Db) | Rollback(error: Error) {

    /** The tables that the rest of the system sees once the transaction is over. */
    function Settle(before: Db): Db {
      if Commit? then db else before
    }

    function Failure(): Option<Error> {
      if Commit? then None else Some(error)
    }
  }

  /** `a` is the attempt of `j` with the highest number. */
  predicate IsNewest(attempts: map<Uuid, Attempt>, j: Uuid, a: Uuid) {
    && a in attempts && attempts[a].job == j
    && forall b | b in attempts && attempts[b].job == j :: attempts[b].number <= attempts[a].number
  }

  /** `ORDER BY attempt_number DESC LIMIT 1` */
  ghost function Newest(attempts: map<Uuid, Attempt>, j: Uuid): Option<Uuid> {
    if exists a :: IsNewest(attempts, j, a) then
      var a :| IsNewest(attempts, j, a);
      Some(a)
    else None
  }

  /** The attempts a worker currently holds. */
  function HeldBy(attempts: map<Uuid, Attempt>, w: Uuid): set<Uuid> {
    set a | a in attempts && attempts[a].worker == Some(w) && IsHeld(attempts[a].state)
  }
}
