/**
 * The repositories themselves: each method is one transaction, written statement by statement on the
 * tables it touches and committed at the end. Each is proved to do exactly what its step in `JobSteps`
 * says, although it clamps counters, skips conflicting inserts and works on rows it read earlier.
 */
module ControlPlane {
  import opened Tables
  import opened JobLifecycle
  import opened JobTables
  import opened Datasets
  import opened JobInvariants
  import opened JobPreservation
  import opened JobTime
  import opened JobTheorems
  import Steps = JobSteps
  import Effects = JobEffects
  import RetryPolicy
  import WorkerRegistry

  // ---------------------------------------------------------------- quota statements

  /** `UPDATE job_quota_counters ... WHERE owner_user_id = owner`: no row, no effect. */
  function UpdateQuota(quotas: map<Uuid, Quota>, owner: Uuid, queued: int, active: int): map<Uuid, Quota> {
    if owner !in quotas then quotas
    else
      var q := quotas[owner];
      quotas[owner := Quota(if queued < 0 then Max(q.queued + queued, 0) else q.queued + queued,
                            if active < 0 then Max(q.active + active, 0) else q.active + active)]
  }

  /** The conditional upsert of `incrementQuota`; `None` when the owner is at the limit. */
  function IncrementQuota(quotas: map<Uuid, Quota>, owner: Uuid): Option<map<Uuid, Quota>> {
    if owner !in quotas then Some(quotas[owner := Quota(1, 0)])
    else if quotas[owner].queued < Steps.MAX_QUEUED_JOBS_PER_OWNER then
      Some(quotas[owner := quotas[owner].(queued := quotas[owner].queued + 1)])
    else None
  }

  /** `INSERT INTO job_state_history` */
  function RecordHistory(history: map<Uuid, seq<Transition>>, j: Uuid, from: JobState, to: JobState): map<Uuid, seq<Transition>> {
    history[j := Steps.HistoryOf(history, j) + [Transition(Some(from), to)]]
  }

  /** `UPDATE processing_jobs SET state, next_attempt_at` */
  function UpdateJob(jobs: map<Uuid, Job>, j: Uuid, state: JobState, at: Option<Time>): map<Uuid, Job>
    requires j in jobs
  {
    jobs[j := jobs[j].(state := state, nextAttemptAt := at)]
  }

  /** `UPDATE job_attempts SET state` */
  function UpdateAttempt(attempts: map<Uuid, Attempt>, a: Uuid, state: AttemptState): (r: map<Uuid, Attempt>)
    requires a in attempts
    ensures r.Keys == attempts.Keys
  {
    attempts[a := attempts[a].(state := state)]
  }

  /** `INSERT INTO job_attempts` */
  function InsertAttempt(attempts: map<Uuid, Attempt>, a: Uuid, j: Uuid, number: int): map<Uuid, Attempt> {
    attempts[a := Attempt(j, number, AttemptCreated, None, None, None)]
  }

  /** A job is counted where its state says, so no counter update finds its row missing or at zero. */
  lemma ClampsNeverBite(db: Db, j: Uuid)
    requires j in db.jobs
    requires Inv(db)
    ensures
      var owner := db.jobs[j].owner;
      && owner in db.quotas
      && (db.jobs[j].state == Queued ==> db.quotas[owner].queued >= 1)
      && (IsActive(db.jobs[j].state) ==> db.quotas[owner].active >= 1)
  {
    hide Rest, Chained, Leases, Recorded, InBudget, Settings;
    var owner := db.jobs[j].owner;
    assert Steps.QuotaOf(db.quotas, owner) == Quota(|QueuedJobs(db.jobs, owner)|, |ActiveJobs(db.jobs, owner)|);
    assert db.jobs[j].state == Queued ==> j in QueuedJobs(db.jobs, owner);
    assert IsActive(db.jobs[j].state) ==> j in ActiveJobs(db.jobs, owner);
  }

  /** So every clamped update is the exact transfer between the counters. */
  lemma UpdateIsTransfer(db: Db, j: Uuid, to: JobState)
    requires j in db.jobs
    requires Inv(db)
    ensures
      var job := db.jobs[j];
      UpdateQuota(db.quotas, job.owner,
                  Steps.Bit(to == Queued) - Steps.Bit(job.state == Queued),
                  Steps.Bit(IsActive(to)) - Steps.Bit(IsActive(job.state)))
        == Steps.Transfer(db.quotas, job.owner, job.state, to)
  {
    hide Inv;
    ClampsNeverBite(db, j);
  }

  /** The four statements that move a job, with their clamps, are `Move`. */
  lemma StatementsMove(db: Db, j: Uuid, a: Uuid, to: JobState, attempt: Attempt, at: Option<Time>, queued: int, active: int)
    requires j in db.jobs
    requires queued == Steps.Bit(to == Queued) - Steps.Bit(db.jobs[j].state == Queued)
    requires active == Steps.Bit(IsActive(to)) - Steps.Bit(IsActive(db.jobs[j].state))
    requires Inv(db)
    ensures Steps.Move(db, j, a, to, attempt, at)
         == db.(jobs := UpdateJob(db.jobs, j, to, at),
                attempts := db.attempts[a := attempt],
                quotas := UpdateQuota(db.quotas, db.jobs[j].owner, queued, active),
                history := RecordHistory(db.history, j, db.jobs[j].state, to))
  {
    hide Inv, Steps.Transfer, UpdateQuota;
    UpdateIsTransfer(db, j, to);
  }

  /** The statements that requeue a settled job are `Requeue`. */
  lemma StatementsRequeue(db: Db, j: Uuid, a: Uuid, next: Uuid)
    requires j in db.jobs && db.jobs[j].state in {FailedPermanent, DeadLettered} && a in db.attempts
    requires Inv(db)
    ensures IncrementQuota(db.quotas, db.jobs[j].owner).Some?
       <==> Steps.QuotaOf(db.quotas, db.jobs[j].owner).queued < Steps.MAX_QUEUED_JOBS_PER_OWNER
    ensures IncrementQuota(db.quotas, db.jobs[j].owner).Some? ==>
      Steps.Requeue(db, j, a, db.attempts[a], next, None)
        == db.(jobs := UpdateJob(db.jobs, j, Queued, None),
               attempts := InsertAttempt(db.attempts, next, j, db.attempts[a].number + 1),
               quotas := IncrementQuota(db.quotas, db.jobs[j].owner).value,
               history := RecordHistory(db.history, j, db.jobs[j].state, Queued))
  {
    hide Inv, UpdateJob, RecordHistory;
    ClampsNeverBite(db, j);
    StatementsMove(db, j, a, Queued, db.attempts[a], None, 1, 0);
    hide Steps.Move;
    assert db.attempts[a := db.attempts[a]] == db.attempts;
  }

  lemma NewestIs(db: Db, j: Uuid, a: Uuid)
    requires j in db.jobs && IsNewest(db.attempts, j, a)
    requires Inv(db)
    ensures Newest(db.attempts, j) == Some(a) && IsTop(db.jobs[j], j, db.attempts, a) && LeaseOk(db.attempts[a])
  {
    hide Core, Rest, Newest;
    var top := CoreNewest(db, j);
    assert db.attempts[top].number <= db.attempts[a].number;
  }

  lemma NewestExists(db: Db, j: Uuid)
    requires j in db.jobs
    requires Inv(db)
    ensures exists a :: a in db.attempts && IsNewest(db.attempts, j, a)
  {
    hide Core, Rest, Newest;
    var top := CoreNewest(db, j);
    assert IsNewest(db.attempts, j, top);
  }

  // ---------------------------------------------------------------- statements of a result event

  /** A plain insert of a result: a second one for the same attempt violates the key. */
  function InsertResult(projections: map<(Uuid, Uuid), Projection>, j: Uuid, a: Uuid, p: Projection)
    : Option<map<(Uuid, Uuid), Projection>>
  {
    if (j, a) in projections then None else Some(projections[(j, a) := p])
  }

  /** `INSERT INTO job_dead_letters ... ON CONFLICT (job_id, attempt_id) DO NOTHING` */
  predicate LetterExists(letters: map<Uuid, DeadLetter>, j: Uuid, a: Uuid) {
    exists d | d in letters :: letters[d].job == j && letters[d].attempt == a
  }

  /** An attempt that a worker still holds has no result and no dead letter yet, so neither insert collides. */
  lemma HeldLeavesNothing(db: Db, a: Uuid)
    requires a in db.attempts && IsHeld(db.attempts[a].state)
    requires Inv(db)
    ensures (db.attempts[a].job, a) !in db.projections
    ensures !LetterExists(db.deadLetters, db.attempts[a].job, a)
  {
    hide Core, Rest, LetterExists;
    NoResultYet(db, a);
    InvLettered(db);
    HeldHasNoLetter(db.jobs, db.attempts, db.deadLetters, a);
  }

  lemma InvLettered(db: Db)
    requires Inv(db)
    ensures Lettered(db.jobs, db.attempts, db.deadLetters)
  {
    hide Core, Projected, Promoted, Lettered, Sourced, Keyed, Tracked;
  }

  lemma HeldHasNoLetter(jobs: map<Uuid, Job>, attempts: map<Uuid, Attempt>, letters: map<Uuid, DeadLetter>, a: Uuid)
    requires Lettered(jobs, attempts, letters) && a in attempts && IsHeld(attempts[a].state)
    ensures !LetterExists(letters, attempts[a].job, a)
  {
    hide IsNewest, HasLetter;
  }

  method ApplyStarted(tx: Db, e: Steps.Event) returns (r: Steps.Effect)
    requires e.Started?
    requires Inv(tx)
    ensures r == Steps.Apply(tx, e, 0, Steps.NewIds(NIL, NIL, 0))
  {
    hide Inv, Steps.Transfer;
    if e.attempt !in tx.attempts || tx.attempts[e.attempt].job != e.job || e.job !in tx.jobs { return Steps.Effect(tx, Ignored); }
    var job, attempt := tx.jobs[e.job], tx.attempts[e.attempt];
    if attempt.number != e.number || !Steps.MatchesLease(attempt, e.lease, e.worker) { return Steps.Effect(tx, Ignored); }
    if (job.state != Leased && job.state != Running) || !IsHeld(attempt.state) { return Steps.Effect(tx, Ignored); }
    var jobs, attempts, history := tx.jobs, tx.attempts, tx.history;
    if attempt.state == AttemptLeased {
      attempts := UpdateAttempt(attempts, e.attempt, AttemptRunning);
    }
    if job.state == Leased {
      jobs := UpdateJob(jobs, e.job, Running, job.nextAttemptAt);
      history := RecordHistory(history, e.job, Leased, Running);
    }
    HeldMatches(tx, e.attempt);
    UpdateIsTransfer(tx, e.job, Running);
    assert UpdateQuota(tx.quotas, job.owner, 0, 0) == tx.quotas;
    return Steps.Effect(tx.(jobs := jobs, attempts := attempts, history := history), Applied);
  }

  lemma HeldMatches(db: Db, a: Uuid)
    requires a in db.attempts && IsHeld(db.attempts[a].state)
    requires Inv(db)
    ensures db.attempts[a].job in db.jobs && Matches(db.jobs[db.attempts[a].job].state, db.attempts[a].state)
    ensures db.attempts[a].lease.Some? && db.attempts[a].worker.Some?
  {
    hide Core, Rest, Newest;
    CoreUnsettled(db, a);
  }

  method ApplyProgressed(tx: Db, e: Steps.Event) returns (r: Steps.Effect)
    requires e.Progressed?
    ensures r == Steps.Apply(tx, e, 0, Steps.NewIds(NIL, NIL, 0))
    ensures r.Effect? && r.db == tx.(progress := r.db.progress)
    ensures forall j | j in tx.progress && j != e.job :: j in r.db.progress && r.db.progress[j] == tx.progress[j]
    ensures e.job in tx.progress ==>
      && e.job in r.db.progress
      && var p, q := tx.progress[e.job], r.db.progress[e.job];
         p.attempt == q.attempt ==> p.rows <= q.rows && p.percent <= q.percent && p.updatedAt <= q.updatedAt
    ensures r.status == Applied ==>
      e.job in r.db.progress && r.db.progress[e.job] == Progress(e.attempt, e.lease, e.rows, e.percent, e.updatedAt)
    ensures r.status == Ignored ==> r.db == tx
  {
    if e.attempt !in tx.attempts || tx.attempts[e.attempt].job != e.job || e.job !in tx.jobs { return Steps.Effect(tx, Ignored); }
    var job, attempt := tx.jobs[e.job], tx.attempts[e.attempt];
    if !Steps.MatchesLease(attempt, e.lease, NIL) { return Steps.Effect(tx, Ignored); }
    if job.state != Running || attempt.state != AttemptRunning { return Steps.Effect(tx, Ignored); }
    var snapshot := Progress(e.attempt, e.lease, e.rows, e.percent, e.updatedAt);
    var rowsAffected := 0;
    var progress := tx.progress;
    if e.job !in progress {
      progress := progress[e.job := snapshot];
      rowsAffected := 1;
    } else {
      var stored := progress[e.job];
      if stored.attempt != e.attempt
         || (e.updatedAt > stored.updatedAt && e.rows >= stored.rows && e.percent >= stored.percent) {
        progress := progress[e.job := snapshot];
        rowsAffected := 1;
      }
    }
    if rowsAffected == 0 { return Steps.Effect(tx, Ignored); }
    return Steps.Effect(tx.(progress := progress), Applied);
  }

  method ApplySucceeded(tx: Db, e: Steps.Event) returns (r: Steps.Effect)
    requires e.SucceededEvent?
    requires Inv(tx)
    ensures r == Steps.Apply(tx, e, 0, Steps.NewIds(NIL, NIL, 0))
  {
    hide Inv, Steps.Move, UpdateQuota, LetterExists, Steps.Promote, Steps.MatchesLease;
    if e.attempt !in tx.attempts || tx.attempts[e.attempt].job != e.job || e.job !in tx.jobs { return Steps.Effect(tx, Ignored); }
    var job, attempt := tx.jobs[e.job], tx.attempts[e.attempt];
    if !Steps.MatchesLease(attempt, e.lease, e.worker) { return Steps.Effect(tx, Ignored); }
    if job.state != Running || attempt.state != AttemptRunning { return Steps.Effect(tx, Ignored); }
    HeldLeavesNothing(tx, e.attempt);
    StatementsMove(tx, e.job, e.attempt, Succeeded, attempt.(state := AttemptSucceeded), job.nextAttemptAt, 0, -1);
    var jobs := UpdateJob(tx.jobs, e.job, Succeeded, job.nextAttemptAt);
    var attempts := UpdateAttempt(tx.attempts, e.attempt, AttemptSucceeded);
    var quotas := UpdateQuota(tx.quotas, job.owner, 0, -1);
    var history := RecordHistory(tx.history, e.job, Running, Succeeded);
    var inserted := InsertResult(tx.projections, e.job, e.attempt, Projection(ResultSucceeded, e.keys));
    if inserted.None? { return Steps.Abort(UniqueViolation); }
    var artifacts := tx.artifacts;
    if |e.keys| > 0 {
      artifacts := Steps.Promote(artifacts, e.job, e.attempt, e.keys);
    } else {
      NothingToPromote(artifacts, e.job, e.attempt);
      assert e.keys == [];
    }
    return Steps.Effect(tx.(jobs := jobs, attempts := attempts, quotas := quotas, history := history,
                            projections := inserted.value, artifacts := artifacts), Applied);
  }

  lemma NothingToPromote(artifacts: map<(Uuid, Uuid, string), Artifact>, j: Uuid, a: Uuid)
    ensures Steps.Promote(artifacts, j, a, []) == artifacts
  {
  }

  /** The lease is right and the attempt is running. */
  predicate AcceptsResult(tx: Db, e: Steps.Event)
    requires e.FailedEvent?
  {
    && e.attempt in tx.attempts && tx.attempts[e.attempt].job == e.job && e.job in tx.jobs
    && Steps.MatchesLease(tx.attempts[e.attempt], e.lease, e.worker)
    && tx.jobs[e.job].state == Running && tx.attempts[e.attempt].state == AttemptRunning
  }

  method ApplyFailed(tx: Db, e: Steps.Event, now: Time, ids: Steps.NewIds) returns (r: Steps.Effect)
    requires e.FailedEvent?
    requires Inv(tx)
    ensures r == Steps.Apply(tx, e, now, ids)
  {
    hide Inv, Steps.Apply, UpdateQuota, UpdateJob, UpdateAttempt, InsertAttempt, RecordHistory, LetterExists, RetryPolicy.Delay,
         Steps.MatchesLease;
    if e.attempt !in tx.attempts || tx.attempts[e.attempt].job != e.job || e.job !in tx.jobs {
      FailureIgnored(tx, e, now, ids);
      return Steps.Effect(tx, Ignored);
    }
    var job, attempt := tx.jobs[e.job], tx.attempts[e.attempt];
    if !Steps.MatchesLease(attempt, e.lease, e.worker) || job.state != Running || attempt.state != AttemptRunning {
      FailureIgnored(tx, e, now, ids);
      return Steps.Effect(tx, Ignored);
    }
    if e.retryable && attempt.number < job.maxAttempts {
      r := RetryFailed(tx, e, now, ids);
    } else {
      r := SettleFailed(tx, e, now, ids);
    }
  }

  /** A retryable failure of a job with attempts left. */
  method RetryFailed(tx: Db, e: Steps.Event, now: Time, ids: Steps.NewIds) returns (r: Steps.Effect)
    requires e.FailedEvent? && AcceptsResult(tx, e) && e.retryable
    requires tx.attempts[e.attempt].number < tx.jobs[e.job].maxAttempts
    requires Inv(tx)
    ensures r == Steps.Apply(tx, e, now, ids)
  {
    hide Inv, Steps.Apply, UpdateQuota, UpdateJob, UpdateAttempt, InsertAttempt, RecordHistory, LetterExists, RetryPolicy.Delay;
    var job, attempt := tx.jobs[e.job], tx.attempts[e.attempt];
    HeldLeavesNothing(tx, e.attempt);
    var attempts := UpdateAttempt(tx.attempts, e.attempt, AttemptFailed);
    var inserted := InsertResult(tx.projections, e.job, e.attempt, Projection(ResultFailed, []));
    if inserted.None? { return Steps.Abort(UniqueViolation); }
    var next := attempt.number + 1;
    var policy := RetryPolicy.DEFAULT_POLICY;
    if policy.maxAttempts < job.maxAttempts {
      policy := policy.(maxAttempts := job.maxAttempts);
    }
    var delay := RetryPolicy.Delay(policy, next, None);
    FailureRetried(tx, e, now, ids, delay);
    if delay.None? { return Steps.Abort(RetryDelayUnavailable); }
    if ids.attempt == NIL || ids.attempt in attempts { return Steps.Abort(UniqueViolation); }
    attempts := InsertAttempt(attempts, ids.attempt, e.job, next);
    var jobs := UpdateJob(tx.jobs, e.job, Queued, Some(now + delay.value));
    var quotas := UpdateQuota(tx.quotas, job.owner, 1, -1);
    var history := RecordHistory(tx.history, e.job, Running, Queued);
    return Steps.Effect(tx.(jobs := jobs, attempts := attempts, quotas := quotas, history := history,
                            projections := inserted.value), Applied);
  }

  /** A failure that is final, or that has exhausted the job's attempts. */
  method SettleFailed(tx: Db, e: Steps.Event, now: Time, ids: Steps.NewIds) returns (r: Steps.Effect)
    requires e.FailedEvent? && AcceptsResult(tx, e)
    requires !(e.retryable && tx.attempts[e.attempt].number < tx.jobs[e.job].maxAttempts)
    requires Inv(tx)
    ensures r == Steps.Apply(tx, e, now, ids)
  {
    hide Inv, Steps.Apply, UpdateQuota, UpdateJob, UpdateAttempt, RecordHistory, LetterExists;
    var job, attempt := tx.jobs[e.job], tx.attempts[e.attempt];
    HeldLeavesNothing(tx, e.attempt);
    FailureSettled(tx, e, now, ids);
    var attempts, letters := UpdateAttempt(tx.attempts, e.attempt, AttemptFailed), tx.deadLetters;
    var inserted := InsertResult(tx.projections, e.job, e.attempt, Projection(ResultFailed, []));
    if inserted.None? { return Steps.Abort(UniqueViolation); }
    var state := FailedPermanent;
    if e.retryable {
      state := DeadLettered;
      if ids.deadLetter in letters { return Steps.Abort(UniqueViolation); }
      if !LetterExists(letters, e.job, e.attempt) {
        letters := letters[ids.deadLetter := DeadLetter(e.job, e.attempt, e.lease, e.worker, attempt.number, false)];
      }
    }
    var jobs := UpdateJob(tx.jobs, e.job, state, None);
    var quotas := UpdateQuota(tx.quotas, job.owner, 0, -1);
    var history := RecordHistory(tx.history, e.job, Running, state);
    return Steps.Effect(tx.(jobs := jobs, attempts := attempts, quotas := quotas, history := history,
                            projections := inserted.value, deadLetters := letters), Applied);
  }

  lemma FailureIgnored(tx: Db, e: Steps.Event, now: Time, ids: Steps.NewIds)
    requires e.FailedEvent? && !AcceptsResult(tx, e)
    ensures Steps.Apply(tx, e, now, ids) == Steps.Effect(tx, Ignored)
  {
  }

  /** The rows of a failed attempt whose job goes to state `to`. */
  ghost function Failed(tx: Db, e: Steps.Event, to: JobState, at: Option<Time>): Db
    requires e.FailedEvent? && AcceptsResult(tx, e)
  {
    tx.(jobs := UpdateJob(tx.jobs, e.job, to, at),
        attempts := UpdateAttempt(tx.attempts, e.attempt, AttemptFailed),
        quotas := UpdateQuota(tx.quotas, tx.jobs[e.job].owner, Steps.Bit(to == Queued), -1),
        history := RecordHistory(tx.history, e.job, Running, to),
        projections := tx.projections[(e.job, e.attempt) := Projection(ResultFailed, [])])
  }

  lemma FailedIsMove(tx: Db, e: Steps.Event, to: JobState, at: Option<Time>)
    requires e.FailedEvent? && AcceptsResult(tx, e) && to in {Queued, FailedPermanent, DeadLettered}
    requires Inv(tx)
    ensures Steps.Move(Steps.Project(tx, e.job, e.attempt, ResultFailed, []), e.job, e.attempt, to,
                       tx.attempts[e.attempt].(state := AttemptFailed), at)
         == Failed(tx, e, to, at)
  {
    hide Inv, Steps.Move, UpdateQuota;
    var over := tx.attempts[e.attempt].(state := AttemptFailed);
    StatementsMove(tx, e.job, e.attempt, to, over, at, Steps.Bit(to == Queued), -1);
    ProjectCommutes(tx, e.job, e.attempt, to, over, at, ResultFailed);
  }

  lemma FailureRetried(tx: Db, e: Steps.Event, now: Time, ids: Steps.NewIds, delay: Option<int>)
    requires e.FailedEvent? && AcceptsResult(tx, e) && e.retryable
    requires tx.attempts[e.attempt].number < tx.jobs[e.job].maxAttempts
    requires delay == RetryPolicy.Delay(RetryPolicy.Widened(RetryPolicy.DEFAULT_POLICY, tx.jobs[e.job].maxAttempts),
                                        tx.attempts[e.attempt].number + 1, None)
    requires Inv(tx)
    ensures Steps.Apply(tx, e, now, ids)
         == if delay.None? then Steps.Abort(RetryDelayUnavailable)
            else if ids.attempt == NIL || ids.attempt in tx.attempts then Steps.Abort(UniqueViolation)
            else
              var f := Failed(tx, e, Queued, Some(now + delay.value));
              Steps.Effect(f.(attempts := InsertAttempt(f.attempts, ids.attempt, e.job, tx.attempts[e.attempt].number + 1)),
                           Applied)
  {
    hide Inv, Steps.Move, Failed, RetryPolicy.Delay, RetryPolicy.Widened;
    if delay.Some? {
      FailedIsMove(tx, e, Queued, Some(now + delay.value));
    }
  }

  lemma FailureSettled(tx: Db, e: Steps.Event, now: Time, ids: Steps.NewIds)
    requires e.FailedEvent? && AcceptsResult(tx, e)
    requires !(e.retryable && tx.attempts[e.attempt].number < tx.jobs[e.job].maxAttempts)
    requires Inv(tx)
    ensures Steps.Apply(tx, e, now, ids)
         == if !e.retryable then Steps.Effect(Failed(tx, e, FailedPermanent, None), Applied)
            else if ids.deadLetter in tx.deadLetters then Steps.Abort(UniqueViolation)
            else Steps.Effect(Failed(tx, e, DeadLettered, None).(deadLetters := tx.deadLetters[ids.deadLetter :=
              DeadLetter(e.job, e.attempt, e.lease, e.worker, tx.attempts[e.attempt].number, false)]), Applied)
  {
    hide Inv, Steps.Move, Failed;
    FailedIsMove(tx, e, FailedPermanent, None);
    FailedIsMove(tx, e, DeadLettered, None);
  }

  method ApplyCancelled(tx: Db, e: Steps.Event) returns (r: Steps.Effect)
    requires e.CancelledEvent?
    requires Inv(tx)
    ensures r == Steps.Apply(tx, e, 0, Steps.NewIds(NIL, NIL, 0))
  {
    hide Inv, Steps.Transfer, LetterExists;
    if e.attempt !in tx.attempts || tx.attempts[e.attempt].job != e.job || e.job !in tx.jobs { return Steps.Effect(tx, Ignored); }
    var job, attempt := tx.jobs[e.job], tx.attempts[e.attempt];
    if !Steps.MatchesLease(attempt, e.lease, e.worker) { return Steps.Effect(tx, Ignored); }
    if job.state != CancelRequested || !IsHeld(attempt.state) { return Steps.Effect(tx, Ignored); }
    HeldLeavesNothing(tx, e.attempt);
    UpdateIsTransfer(tx, e.job, Cancelled);
    var attempts := UpdateAttempt(tx.attempts, e.attempt, AttemptCancelled);
    var jobs := UpdateJob(tx.jobs, e.job, Cancelled, job.nextAttemptAt);
    var quotas := UpdateQuota(tx.quotas, job.owner, 0, -1);
    var inserted := InsertResult(tx.projections, e.job, e.attempt, Projection(ResultCancelled, []));
    if inserted.None? { return Steps.Abort(UniqueViolation); }
    var history := RecordHistory(tx.history, e.job, CancelRequested, Cancelled);
    return Steps.Effect(tx.(jobs := jobs, attempts := attempts, quotas := quotas, history := history,
                            projections := inserted.value), Applied);
  }

  method ApplyArtifact(tx: Db, e: Steps.Event) returns (r: Steps.Effect)
    requires e.ArtifactCreated?
    ensures r == Steps.Apply(tx, e, 0, Steps.NewIds(NIL, NIL, 0))
    ensures r.Effect? ==> r.db == tx.(artifacts := r.db.artifacts)
    ensures r.Effect? ==> forall row | row in tx.artifacts ::
      && row in r.db.artifacts
      && r.db.artifacts[row].id == tx.artifacts[row].id && r.db.artifacts[row].lease == tx.artifacts[row].lease
      && (tx.artifacts[row].canonical ==> r.db.artifacts[row].canonical)
      && (r.db.artifacts[row].canonical && !tx.artifacts[row].canonical ==> Steps.IsListed(tx.projections, row.0, row.1, row.2))
    ensures r.Effect? ==> forall row | row in r.db.artifacts && row !in tx.artifacts ::
      && row == (e.job, e.attempt, e.key)
      && r.db.artifacts[row] == Artifact(e.id, e.lease, Steps.IsListed(tx.projections, row.0, row.1, row.2))
    ensures r.Abort? ==> r.error == UniqueViolation && Steps.ArtifactIdTaken(tx.artifacts, e.id)
  {
    hide Steps.ArtifactIdTaken, Steps.ApplyStarted, Steps.ApplyProgressed, Steps.ApplySucceeded, Steps.ApplyFailed, Steps.ApplyCancelled,
         Steps.IsListed, Steps.MatchesLease;
    if e.attempt !in tx.attempts || tx.attempts[e.attempt].job != e.job || e.job !in tx.jobs { return Steps.Effect(tx, Ignored); }
    var job, attempt := tx.jobs[e.job], tx.attempts[e.attempt];
    if !Steps.MatchesLease(attempt, e.lease, NIL) { return Steps.Effect(tx, Ignored); }
    if job.state != Leased && job.state != Running && job.state != Succeeded { return Steps.Effect(tx, Ignored); }
    var canonical := Steps.IsListed(tx.projections, e.job, e.attempt, e.key);
    if job.state == Succeeded && !canonical { return Steps.Effect(tx, Ignored); }
    var row, artifacts := (e.job, e.attempt, e.key), tx.artifacts;
    if row !in artifacts {
      if Steps.ArtifactIdTaken(artifacts, e.id) { return Steps.Abort(UniqueViolation); }
      artifacts := artifacts[row := Artifact(e.id, e.lease, canonical)];
    } else {
      artifacts := artifacts[row := artifacts[row].(canonical := if artifacts[row].canonical then true else canonical)];
    }
    return Steps.Effect(tx.(artifacts := artifacts), Applied);
  }

  // ---------------------------------------------------------------- the sweep

  /** A row of the sweep's query, as it was read before the first lease was expired. */
  datatype Candidate = Candidate(
    job: Uuid, attempt: Uuid, lease: Uuid, worker: Uuid, owner: Uuid, jobState: JobState, number: int, maxAttempts: int)

  datatype SweepReport = SweepReport(claimed: nat, retried: nat, deadLettered: nat, cancelled: nat)

  /** The candidate's columns still are what the tables say. */
  ghost predicate IsCurrent(item: Candidate, db: Db) {
    && item.attempt in db.attempts && item.job in db.jobs
    && var attempt, job := db.attempts[item.attempt], db.jobs[item.job];
       && attempt.job == item.job && attempt.lease == Some(item.lease) && attempt.worker == Some(item.worker)
       && attempt.number == item.number
       && job.owner == item.owner && job.state == item.jobState && job.maxAttempts == item.maxAttempts
  }

  /** What becomes of an expired lease. */
  datatype Fate = ToCancel | ToRetry | ToDeadLetter

  function FateOf(jobState: JobState, number: int, maxAttempts: int): Fate {
    if jobState == CancelRequested then ToCancel
    else if number >= 1 && number + 1 <= maxAttempts then ToRetry
    else ToDeadLetter
  }

  function Tallied(report: SweepReport, fate: Fate): SweepReport {
    match fate
    case ToCancel => report.(cancelled := report.cancelled + 1)
    case ToRetry => report.(retried := report.retried + 1)
    case ToDeadLetter => report.(deadLettered := report.deadLettered + 1)
  }

  /** The rows of an expired attempt whose job goes to state `to`. */
  ghost function Expired(tx: Db, a: Uuid, now: Time, to: JobState, at: Option<Time>): Db
    requires a in tx.attempts && tx.attempts[a].job in tx.jobs
  {
    var j := tx.attempts[a].job;
    tx.(jobs := UpdateJob(tx.jobs, j, to, at),
        attempts := TimeOut(tx.attempts, a, now),
        quotas := UpdateQuota(tx.quotas, tx.jobs[j].owner, Steps.Bit(to == Queued), -1),
        history := RecordHistory(tx.history, j, tx.jobs[j].state, to))
  }

  function TimeOut(attempts: map<Uuid, Attempt>, a: Uuid, now: Time): (r: map<Uuid, Attempt>)
    requires a in attempts
    ensures r.Keys == attempts.Keys
  {
    attempts[a := attempts[a].(state := AttemptTimedOut, expiresAt := Some(now))]
  }

  lemma ExpireCancels(tx: Db, c: Steps.Config, a: Uuid, now: Time, ids: Steps.NewIds)
    requires Steps.IsExpired(tx, a, now) && tx.jobs[tx.attempts[a].job].state == CancelRequested
    requires Inv(tx)
    ensures
      var x, row := Expired(tx, a, now, Cancelled, None), (tx.attempts[a].job, a);
      Steps.Expire(tx, c, a, now, ids)
        == Commit(x.(attempts := UpdateAttempt(x.attempts, a, AttemptCancelled),
                     projections := tx.projections[row := Projection(ResultCancelled, [])]))
  {
    hide Inv, UpdateQuota, UpdateJob, RecordHistory;
    var gone := tx.attempts[a].(state := AttemptCancelled, expiresAt := Some(now));
    StatementsMove(tx, tx.attempts[a].job, a, Cancelled, gone, None, 0, -1);
    hide Steps.Move;
    assert UpdateAttempt(TimeOut(tx.attempts, a, now), a, AttemptCancelled) == tx.attempts[a := gone];
  }

  lemma ExpireRetries(tx: Db, c: Steps.Config, a: Uuid, now: Time, ids: Steps.NewIds, delay: Option<int>)
    requires Steps.IsExpired(tx, a, now) && tx.jobs[tx.attempts[a].job].state != CancelRequested
    requires 1 <= tx.attempts[a].number && tx.attempts[a].number + 1 <= tx.jobs[tx.attempts[a].job].maxAttempts
    requires delay == RetryPolicy.Delay(RetryPolicy.Widened(c.policy, tx.jobs[tx.attempts[a].job].maxAttempts),
                                        tx.attempts[a].number + 1, Some(ids.draw))
    requires Inv(tx)
    ensures Steps.Expire(tx, c, a, now, ids)
         == if delay.None? then Rollback(RetryDelayUnavailable)
            else if ids.attempt == NIL || ids.attempt in tx.attempts then Rollback(UniqueViolation)
            else
              var x := Expired(tx, a, now, Queued, Some(now + delay.value));
              Commit(x.(attempts := InsertAttempt(x.attempts, ids.attempt, tx.attempts[a].job, tx.attempts[a].number + 1)))
  {
    hide Inv, UpdateQuota, UpdateJob, RecordHistory, RetryPolicy.Delay, RetryPolicy.Widened;
    if delay.Some? {
      var over := tx.attempts[a].(state := AttemptTimedOut, expiresAt := Some(now));
      StatementsMove(tx, tx.attempts[a].job, a, Queued, over, Some(now + delay.value), 1, -1);
      hide Steps.Move;
    }
  }

  lemma ExpireKills(tx: Db, c: Steps.Config, a: Uuid, now: Time, ids: Steps.NewIds)
    requires Steps.IsExpired(tx, a, now) && tx.jobs[tx.attempts[a].job].state != CancelRequested
    requires !(1 <= tx.attempts[a].number && tx.attempts[a].number + 1 <= tx.jobs[tx.attempts[a].job].maxAttempts)
    requires tx.attempts[a].lease.Some? && tx.attempts[a].worker.Some?
    requires Inv(tx)
    ensures
      var attempt := tx.attempts[a];
      Steps.Expire(tx, c, a, now, ids)
        == if ids.deadLetter in tx.deadLetters then Rollback(UniqueViolation)
           else Commit(Expired(tx, a, now, DeadLettered, None).(deadLetters := tx.deadLetters[ids.deadLetter :=
             DeadLetter(attempt.job, a, attempt.lease.value, attempt.worker.value, attempt.number, false)]))
  {
    hide Inv, UpdateQuota, UpdateJob, RecordHistory;
    var over := tx.attempts[a].(state := AttemptTimedOut, expiresAt := Some(now));
    StatementsMove(tx, tx.attempts[a].job, a, DeadLettered, over, None, 0, -1);
    hide Steps.Move;
  }

  method ExpireOne(tx: Db, c: Steps.Config, item: Candidate, now: Time, ids: Steps.NewIds, report: SweepReport)
    returns (r: Tx, after: SweepReport)
    requires IsCurrent(item, tx) && Steps.IsExpired(tx, item.attempt, now)
    requires Inv(tx)
    ensures r == Steps.Expire(tx, c, item.attempt, now, ids)
    ensures r.Commit? ==> after == Tallied(report, FateOf(item.jobState, item.number, item.maxAttempts))
  {
    hide Inv, Steps.Expire;
    after := report;
    if item.jobState == CancelRequested {
      r := CancelExpired(tx, c, item, now, ids);
      after := after.(cancelled := after.cancelled + 1);
    } else if item.number >= 1 && item.number + 1 <= item.maxAttempts {
      r := RetryExpired(tx, c, item, now, ids);
      after := after.(retried := after.retried + 1);
    } else {
      r := BuryExpired(tx, c, item, now, ids);
      after := after.(deadLettered := after.deadLettered + 1);
    }
  }

  /** The job's cancellation was requested, and its worker never answered. */
  method CancelExpired(tx: Db, c: Steps.Config, item: Candidate, now: Time, ids: Steps.NewIds) returns (r: Tx)
    requires IsCurrent(item, tx) && Steps.IsExpired(tx, item.attempt, now) && item.jobState == CancelRequested
    requires Inv(tx)
    ensures r == Steps.Expire(tx, c, item.attempt, now, ids)
  {
    hide Inv, Steps.Expire, UpdateQuota, UpdateJob, UpdateAttempt, RecordHistory, TimeOut, LetterExists;
    var j, a := item.job, item.attempt;
    HeldLeavesNothing(tx, a);
    var attempts := TimeOut(tx.attempts, a, now);
    attempts := UpdateAttempt(attempts, a, AttemptCancelled);
    var jobs := UpdateJob(tx.jobs, j, Cancelled, None);
    var quotas := UpdateQuota(tx.quotas, item.owner, 0, -1);
    var projections := tx.projections;
    if (j, a) !in projections {
      projections := projections[(j, a) := Projection(ResultCancelled, [])];
    }
    var history := RecordHistory(tx.history, j, CancelRequested, Cancelled);
    ExpireCancels(tx, c, a, now, ids);
    return Commit(tx.(jobs := jobs, attempts := attempts, quotas := quotas, history := history, projections := projections));
  }

  /** The job has attempts left: the next one waits for its delay. */
  method RetryExpired(tx: Db, c: Steps.Config, item: Candidate, now: Time, ids: Steps.NewIds) returns (r: Tx)
    requires IsCurrent(item, tx) && Steps.IsExpired(tx, item.attempt, now) && item.jobState != CancelRequested
    requires item.number >= 1 && item.number + 1 <= item.maxAttempts
    requires Inv(tx)
    ensures r == Steps.Expire(tx, c, item.attempt, now, ids)
  {
    hide Inv, Steps.Expire, UpdateQuota, UpdateJob, InsertAttempt, RecordHistory, TimeOut, RetryPolicy.Delay;
    var j, a, next := item.job, item.attempt, item.number + 1;
    var attempts := TimeOut(tx.attempts, a, now);
    var policy := c.policy;
    if policy.maxAttempts < item.maxAttempts {
      policy := policy.(maxAttempts := item.maxAttempts);
    }
    var delay := RetryPolicy.Delay(policy, next, Some(ids.draw));
    ExpireRetries(tx, c, a, now, ids, delay);
    if delay.None? { return Rollback(RetryDelayUnavailable); }
    if ids.attempt == NIL || ids.attempt in attempts { return Rollback(UniqueViolation); }
    attempts := InsertAttempt(attempts, ids.attempt, j, next);
    var jobs := UpdateJob(tx.jobs, j, Queued, Some(now + delay.value));
    var quotas := UpdateQuota(tx.quotas, item.owner, 1, -1);
    var history := RecordHistory(tx.history, j, item.jobState, Queued);
    return Commit(tx.(jobs := jobs, attempts := attempts, quotas := quotas, history := history));
  }

  /** The job has no attempt left. */
  method BuryExpired(tx: Db, c: Steps.Config, item: Candidate, now: Time, ids: Steps.NewIds) returns (r: Tx)
    requires IsCurrent(item, tx) && Steps.IsExpired(tx, item.attempt, now) && item.jobState != CancelRequested
    requires !(item.number >= 1 && item.number + 1 <= item.maxAttempts)
    requires Inv(tx)
    ensures r == Steps.Expire(tx, c, item.attempt, now, ids)
  {
    hide Inv, Steps.Expire, UpdateQuota, UpdateJob, RecordHistory, TimeOut, LetterExists;
    var j, a := item.job, item.attempt;
    HeldLeavesNothing(tx, a);
    ExpireKills(tx, c, a, now, ids);
    var attempts := TimeOut(tx.attempts, a, now);
    var jobs := UpdateJob(tx.jobs, j, DeadLettered, None);
    var quotas := UpdateQuota(tx.quotas, item.owner, 0, -1);
    var letters := tx.deadLetters;
    if ids.deadLetter in letters { return Rollback(UniqueViolation); }
    if !LetterExists(letters, j, a) {
      letters := letters[ids.deadLetter := DeadLetter(j, a, item.lease, item.worker, item.number, false)];
    }
    var history := RecordHistory(tx.history, j, item.jobState, DeadLettered);
    return Commit(tx.(jobs := jobs, attempts := attempts, quotas := quotas, history := history, deadLetters := letters));
  }

  /** The report of a sweep over the rest of a batch, as the tables stood when it was claimed. */
  ghost function TallyAll(report: SweepReport, db: Db, batch: seq<Uuid>): SweepReport
    requires forall a | a in batch :: a in db.attempts && db.attempts[a].job in db.jobs
    decreases |batch|
  {
    if batch == [] then report
    else
      var attempt := db.attempts[batch[0]];
      var job := db.jobs[attempt.job];
      TallyAll(Tallied(report, FateOf(job.state, attempt.number, job.maxAttempts)), db, batch[1..])
  }

  /** What the sweep reports about its batch. */
  ghost predicate IsReport(report: SweepReport, db: Db, batch: seq<Uuid>) {
    && (forall a | a in batch :: a in db.attempts && db.attempts[a].job in db.jobs)
    && report == TallyAll(SweepReport(|batch|, 0, 0, 0), db, batch)
  }

  /** Every claimed lease is reported once: as cancelled, retried or dead-lettered. */
  lemma {:induction false} ReportAddsUp(report: SweepReport, db: Db, batch: seq<Uuid>)
    requires forall a | a in batch :: a in db.attempts && db.attempts[a].job in db.jobs
    ensures
      var r := TallyAll(report, db, batch);
      && r.claimed == report.claimed
      && r.retried + r.deadLettered + r.cancelled == report.retried + report.deadLettered + report.cancelled + |batch|
    decreases |batch|
  {
    if batch != [] {
      var attempt := db.attempts[batch[0]];
      var job := db.jobs[attempt.job];
      ReportAddsUp(Tallied(report, FateOf(job.state, attempt.number, job.maxAttempts)), db, batch[1..]);
    }
  }

  /** Expiring one lease leaves the rows of every other job alone. */
  lemma ExpireElsewhere(tx: Db, c: Steps.Config, a: Uuid, now: Time, ids: Steps.NewIds, b: Uuid)
    requires Steps.IsExpired(tx, a, now) && Steps.Expire(tx, c, a, now, ids).Commit?
    requires b in tx.attempts && tx.attempts[b].job in tx.jobs && tx.attempts[b].job != tx.attempts[a].job
    ensures SameRows(tx, Steps.Expire(tx, c, a, now, ids).db, b)
  {
    hide RetryPolicy.Delay, Steps.Move;
    var attempt := tx.attempts[a];
    var j := attempt.job;
    var over := attempt.(state := AttemptTimedOut, expiresAt := Some(now));
    if tx.jobs[j].state == CancelRequested {
      MoveKeepsRows(tx, j, a, Cancelled, over.(state := AttemptCancelled), None, b);
    } else if 1 <= attempt.number && attempt.number + 1 <= tx.jobs[j].maxAttempts {
      var delay := RetryPolicy.Delay(RetryPolicy.Widened(c.policy, tx.jobs[j].maxAttempts), attempt.number + 1, Some(ids.draw));
      MoveKeepsRows(tx, j, a, Queued, over, Some(now + delay.value), b);
    } else {
      MoveKeepsRows(tx, j, a, DeadLettered, over, None, b);
    }
  }

  lemma MoveKeepsRows(tx: Db, j: Uuid, a: Uuid, to: JobState, attempt: Attempt, at: Option<Time>, b: Uuid)
    requires j in tx.jobs && b in tx.attempts && tx.attempts[b].job in tx.jobs && tx.attempts[b].job != j && b != a
    ensures SameRows(tx, Steps.Move(tx, j, a, to, attempt, at), b)
  {
    hide Steps.Transfer;
  }

  ghost predicate SameRows(before: Db, after: Db, b: Uuid) {
    && b in before.attempts && before.attempts[b].job in before.jobs
    && b in after.attempts && after.attempts[b] == before.attempts[b]
    && before.attempts[b].job in after.jobs && after.jobs[before.attempts[b].job] == before.jobs[before.attempts[b].job]
  }

  lemma CurrentStays(item: Candidate, before: Db, after: Db, now: Time)
    requires IsCurrent(item, before) && Steps.IsExpired(before, item.attempt, now) && SameRows(before, after, item.attempt)
    ensures IsCurrent(item, after) && Steps.IsExpired(after, item.attempt, now)
  {
  }

  /** Reads all candidates, then expires them one after another from the rows read at the start. */
  method ExpireBatch(db: Db, c: Steps.Config, batch: seq<Uuid>, now: Time, ids: seq<Steps.NewIds>, limit: int)
    returns (r: Tx, report: SweepReport)
    requires |ids| == |batch| && Steps.IsBatch(db, batch, now, limit)
    requires Inv(db)
    ensures r == Steps.ExpireAll(db, c, batch, now, ids)
    ensures r.Commit? ==> IsReport(report, db, batch)
  {
    hide Inv, Steps.Expire;
    var candidates: seq<Candidate> := [];
    for i := 0 to |batch|
      invariant |candidates| == i
      invariant forall k | 0 <= k < i :: candidates[k].attempt == batch[k] && IsCurrent(candidates[k], db)
    {
      var item := ReadCandidate(db, batch[i], now);
      candidates := candidates + [item];
    }
    SweptJobsDiffer(db, batch, now, limit);
    report := SweepReport(|candidates|, 0, 0, 0);
    var tx := db;
    for i := 0 to |candidates|
      invariant Inv(tx)
      invariant Steps.ExpireAll(db, c, batch, now, ids) == Steps.ExpireAll(tx, c, batch[i..], now, ids[i..])
      invariant TallyAll(SweepReport(|batch|, 0, 0, 0), db, batch) == TallyAll(report, db, batch[i..])
      invariant forall k | i <= k < |batch| :: IsCurrent(candidates[k], tx) && Steps.IsExpired(tx, batch[k], now)
    {
      hide IsCurrent, Steps.IsExpired;
      assert IsCurrent(candidates[i], tx) && Steps.IsExpired(tx, batch[i], now);
      var next, after := ExpireOne(tx, c, candidates[i], now, ids[i], report);
      AdvanceSweep(db, tx, c, batch, now, ids, i, candidates[i], report);
      if next.Rollback? { return next, report; }
      ExpireKeepsInv(tx, c, batch[i], now, ids[i]);
      forall k | i + 1 <= k < |batch| ensures IsCurrent(candidates[k], next.db) && Steps.IsExpired(next.db, batch[k], now) {
        DistinctCandidates(db, batch, candidates, i, k);
        OthersStayCurrent(tx, c, batch[i], now, ids[i], candidates[k], candidates[i]);
      }
      tx, report := next.db, after;
    }
    assert batch[|batch|..] == [];
    r := Commit(tx);
  }

  method ReadCandidate(db: Db, a: Uuid, now: Time) returns (item: Candidate)
    requires Steps.IsExpired(db, a, now)
    requires Inv(db)
    ensures item.attempt == a && IsCurrent(item, db)
  {
    hide Inv;
    HeldMatches(db, a);
    var attempt := db.attempts[a];
    var job := db.jobs[attempt.job];
    item := Candidate(attempt.job, a, attempt.lease.value, attempt.worker.value, job.owner, job.state, attempt.number, job.maxAttempts);
  }

  /** One turn of the loop is one unfolding of the specification. */
  lemma AdvanceSweep(db: Db, tx: Db, c: Steps.Config, batch: seq<Uuid>, now: Time, ids: seq<Steps.NewIds>, i: nat,
                     item: Candidate, report: SweepReport)
    requires |ids| == |batch| && i < |batch| && Steps.IsExpired(tx, batch[i], now)
    requires forall a | a in batch :: a in db.attempts && db.attempts[a].job in db.jobs
    requires item.attempt == batch[i] && IsCurrent(item, db)
    ensures Steps.ExpireAll(tx, c, batch[i..], now, ids[i..])
         == match Steps.Expire(tx, c, batch[i], now, ids[i])
            case Rollback(e) => Rollback(e)
            case Commit(next) => Steps.ExpireAll(next, c, batch[i + 1..], now, ids[i + 1..])
    ensures TallyAll(report, db, batch[i..])
         == TallyAll(Tallied(report, FateOf(item.jobState, item.number, item.maxAttempts)), db, batch[i + 1..])
  {
    hide Steps.Expire;
    assert batch[i..][0] == batch[i] && ids[i..][0] == ids[i];
    assert batch[i..][1..] == batch[i + 1..] && ids[i..][1..] == ids[i + 1..];
  }

  lemma DistinctCandidates(db: Db, batch: seq<Uuid>, candidates: seq<Candidate>, i: nat, k: nat)
    requires i < k < |batch| && |candidates| == |batch|
    requires batch[i] in db.attempts && batch[k] in db.attempts && db.attempts[batch[i]].job != db.attempts[batch[k]].job
    requires candidates[i].attempt == batch[i] && IsCurrent(candidates[i], db)
    requires candidates[k].attempt == batch[k] && IsCurrent(candidates[k], db)
    ensures candidates[i].job != candidates[k].job
  {
  }

  /** A candidate read earlier is still current after another job's lease was expired. */
  lemma OthersStayCurrent(tx: Db, c: Steps.Config, a: Uuid, now: Time, ids: Steps.NewIds, item: Candidate, mine: Candidate)
    requires Steps.IsExpired(tx, a, now) && Steps.Expire(tx, c, a, now, ids).Commit?
    requires IsCurrent(mine, tx) && mine.attempt == a && IsCurrent(item, tx) && Steps.IsExpired(tx, item.attempt, now)
    requires item.job != mine.job
    ensures IsCurrent(item, Steps.Expire(tx, c, a, now, ids).db)
    ensures Steps.IsExpired(Steps.Expire(tx, c, a, now, ids).db, item.attempt, now)
  {
    hide Steps.Expire;
    ExpireElsewhere(tx, c, a, now, ids, item.attempt);
    CurrentStays(item, tx, Steps.Expire(tx, c, a, now, ids).db, now);
  }

  // ---------------------------------------------------------------- the replay of a dead letter

  /** What a replay does before it builds its message. */
  method ReplayTables(tx: Db, record: Uuid, actor: Uuid, crossOwner: bool, next: Uuid) returns (r: Tx)
    requires Inv(tx)
    ensures r == Steps.ReplayBody(tx, record, actor, crossOwner, next)
  {
    hide Inv, Newest, Steps.Requeue, UpdateJob, InsertAttempt, IncrementQuota, RecordHistory, Steps.QuotaOf, IsTop, LeaseOk;
    if record == NIL || actor == NIL { return Rollback(InvalidInput); }
    if record !in tx.deadLetters || tx.deadLetters[record].job !in tx.jobs { return Rollback(JobNotFound); }
    var j := tx.deadLetters[record].job;
    var item := tx.jobs[j];
    if !crossOwner && item.owner != actor { return Rollback(Forbidden); }
    if tx.deadLetters[record].replayed { return Rollback(JobInWrongState); }
    if item.state != DeadLettered { return Rollback(JobInWrongState); }
    if item.maxAttempts < 1 || item.maxAttempts > Steps.MAX_ATTEMPTS { return Rollback(InvalidInput); }
    NewestExists(tx, j);
    var a :| a in tx.attempts && IsNewest(tx.attempts, j, a);
    NewestIs(tx, j, a);
    StatementsRequeue(tx, j, a, next);
    var incremented := IncrementQuota(tx.quotas, item.owner);
    if incremented.None? { return Rollback(QuotaExceeded); }
    if next == NIL || next in tx.attempts { return Rollback(UniqueViolation); }
    var attempts := InsertAttempt(tx.attempts, next, j, tx.attempts[a].number + 1);
    var jobs := UpdateJob(tx.jobs, j, Queued, None);
    var letters := tx.deadLetters[record := tx.deadLetters[record].(replayed := true)];
    var history := RecordHistory(tx.history, j, DeadLettered, Queued);
    return Commit(tx.(jobs := jobs, attempts := attempts, quotas := incremented.value, history := history, deadLetters := letters));
  }

  /** How a transaction ended, given the tables and the error it left. */
  function Ended(db: Db, error: Option<Error>): Tx {
    if error.Some? then Rollback(error.value) else Commit(db)
  }

  class Repository {
    var db: Db

    ghost predicate Valid()
      reads this
    {
      Inv(db)
    }

    constructor ()
      ensures Valid() && db == EMPTY
    {
      hide Inv;
      db := EMPTY;
      EmptyIsInv();
    }

    // -------------------------------------------------------------- job

    method RequestCancel(j: Uuid, actor: Uuid, crossOwner: bool, reasonLength: nat) returns (error: Option<Error>)
      requires Valid()
      modifies this
      ensures Valid()
      ensures db == Steps.RequestCancel(old(db), j, actor, crossOwner, reasonLength).Settle(old(db))
      ensures error == Steps.RequestCancel(old(db), j, actor, crossOwner, reasonLength).Failure()
      ensures Effects.CancelAnswer(old(db), j, actor, crossOwner, reasonLength, Ended(db, error))
    {
      hide Inv, Newest, Steps.Transfer, Effects.CancelAnswer;
      Effects.CancelIsAnswered(db, j, actor, crossOwner, reasonLength);
      if j == NIL || actor == NIL { return Some(InvalidInput); }
      if j !in db.jobs { return Some(JobNotFound); }
      var item := db.jobs[j];
      if !crossOwner && item.owner != actor { return Some(Forbidden); }
      if item.state == CancelRequested || item.state == Cancelled { return None; }
      if !ValidTransition(item.state, CancelRequested) { return Some(JobInWrongState); }
      if reasonLength > 500 { return Some(InvalidInput); }

      var jobs, attempts, quotas, history, projections := db.jobs, db.attempts, db.quotas, db.history, db.projections;
      NewestExists(db, j);
      var a :| a in attempts && IsNewest(attempts, j, a);
      NewestIs(db, j, a);
      if item.state == Queued {
        jobs := UpdateJob(jobs, j, Cancelled, None);
        attempts := UpdateAttempt(attempts, a, AttemptCancelled);
        if (j, a) !in projections {
          projections := projections[(j, a) := Projection(ResultCancelled, [])];
        }
        quotas := UpdateQuota(quotas, item.owner, -1, 0);
        history := RecordHistory(history, j, item.state, Cancelled);
        UpdateIsTransfer(db, j, Cancelled);
        NoResultYet(db, a);
      } else {
        if !IsHeld(attempts[a].state) || attempts[a].lease.None? || attempts[a].lease.value == NIL
           || attempts[a].worker.None? || attempts[a].worker.value == NIL {
          return Some(JobInWrongState);
        }
        jobs := UpdateJob(jobs, j, CancelRequested, item.nextAttemptAt);
        history := RecordHistory(history, j, item.state, CancelRequested);
        UpdateIsTransfer(db, j, CancelRequested);
        assert UpdateQuota(quotas, item.owner, 0, 0) == quotas && attempts[a := attempts[a]] == attempts;
      }
      CancelKeepsInv(db, j, actor, crossOwner, reasonLength);
      db := db.(jobs := jobs, attempts := attempts, quotas := quotas, history := history, projections := projections);
      return None;
    }

    method RequestRetry(j: Uuid, actor: Uuid, crossOwner: bool, next: Uuid) returns (error: Option<Error>)
      requires Valid()
      modifies this
      ensures Valid()
      ensures db == Steps.RequestRetry(old(db), j, actor, crossOwner, next).Settle(old(db))
      ensures error == Steps.RequestRetry(old(db), j, actor, crossOwner, next).Failure()
      ensures Effects.RetryAnswer(old(db), j, actor, crossOwner, next, Ended(db, error))
    {
      hide Inv, Newest, Steps.Requeue, UpdateJob, InsertAttempt, IncrementQuota, RecordHistory, Steps.QuotaOf, Effects.RetryAnswer;
      Effects.RetryIsAnswered(db, j, actor, crossOwner, next);
      if j == NIL || actor == NIL { return Some(InvalidInput); }
      if j !in db.jobs { return Some(JobNotFound); }
      var item := db.jobs[j];
      if !crossOwner && item.owner != actor { return Some(Forbidden); }
      if item.state == Queued { return None; }
      if item.state != FailedRetryable && item.state != FailedPermanent && item.state != DeadLettered {
        return Some(JobInWrongState);
      }
      NewestExists(db, j);
      var a :| a in db.attempts && IsNewest(db.attempts, j, a);
      NewestIs(db, j, a);
      StatementsRequeue(db, j, a, next);
      var incremented := IncrementQuota(db.quotas, item.owner);
      if incremented.None? { return Some(QuotaExceeded); }
      var number := db.attempts[a].number + 1;
      if number > item.maxAttempts && item.state != DeadLettered { return Some(JobInWrongState); }
      if next == NIL || next in db.attempts { return Some(UniqueViolation); }
      var attempts := InsertAttempt(db.attempts, next, j, number);
      var jobs := UpdateJob(db.jobs, j, Queued, None);
      var history := RecordHistory(db.history, j, item.state, Queued);
      RetryKeepsInv(db, j, actor, crossOwner, next);
      db := db.(jobs := jobs, attempts := attempts, quotas := incremented.value, history := history);
      return None;
    }

    /** `job` and `attempt` are the ids that the transaction draws. */
    method Create(c: Steps.CreateCommand, job: Uuid, attempt: Uuid) returns (error: Option<Error>)
      requires Valid()
      modifies this
      ensures Valid()
      ensures db == Steps.Create(old(db), c, job, attempt).Settle(old(db))
      ensures error == Steps.Create(old(db), c, job, attempt).Failure()
      ensures Effects.CreateAnswer(old(db), c, job, attempt, Ended(db, error))
    {
      hide Inv, Steps.ValidCreate, Effects.CreateAnswer;
      Effects.CreateIsAnswered(db, c, job, attempt);
      if !Steps.ValidCreate(c) { return Some(InvalidInput); }
      var slot := (c.owner, c.key);
      if c.key != "" && slot in db.idempotency {
        return if db.idempotency[slot].fingerprint != c.fingerprint then Some(IdempotencyConflict) else None;
      }
      var versions, datasets := db.catalog.versions, db.catalog.datasets;
      if c.version !in versions || versions[c.version].dataset !in datasets { return Some(VersionMissing); }
      var dataset := datasets[versions[c.version].dataset];
      if dataset.owner != c.owner { return Some(Forbidden); }
      if dataset.deletedAt.Some? || dataset.state == DatasetDeleted { return Some(VersionUnavailable); }
      if versions[c.version].state != VersionAvailable { return Some(VersionUnavailable); }
      var incremented := IncrementQuota(db.quotas, c.owner);
      if incremented.None? { return Some(QuotaExceeded); }
      var jobs, attempts, history, idempotency := db.jobs, db.attempts, db.history, db.idempotency;
      if job == NIL || job in jobs { return Some(UniqueViolation); }
      jobs := jobs[job := Job(c.owner, c.version, Queued, c.operations, c.maxAttempts, None)];
      if attempt == NIL || attempt in attempts { return Some(UniqueViolation); }
      attempts := InsertAttempt(attempts, attempt, job, 1);
      history := history[job := [Transition(None, Queued)]];
      if c.key != "" && slot !in idempotency {
        idempotency := idempotency[slot := IdempotencyRecord(c.fingerprint, job)];
      }
      CreateKeepsInv(db, c, job, attempt);
      db := db.(jobs := jobs, attempts := attempts, quotas := incremented.value, history := history, idempotency := idempotency);
      return None;
    }

    // -------------------------------------------------------------- lease

    method Acquire(c: Steps.Config, j: Uuid, requested: Time, now: Time, locked: set<Uuid>, lease: Uuid)
      returns (error: Option<Error>)
      requires Valid()
      modifies this
      ensures Valid()
      ensures db == Steps.Acquire(old(db), c, j, requested, now, locked, lease).Settle(old(db))
      ensures error == Steps.Acquire(old(db), c, j, requested, now, locked, lease).Failure()
      ensures Effects.AcquireAnswer(old(db), c, j, requested, now, locked, lease, Ended(db, error))
    {
      hide Inv, Newest, Steps.Transfer, Steps.LeaseIds, WorkerRegistry.Choose, Effects.AcquireAnswer;
      Effects.AcquireIsAnswered(db, c, j, requested, now, locked, lease);
      var duration := Steps.NormalizeDuration(requested, c.leaseDuration);
      if j == NIL || duration.None? { return Some(InvalidInput); }
      if j !in db.jobs || db.jobs[j].version !in db.catalog.versions { return Some(JobNotFound); }
      var jobs, attempts, quotas, history, commands := db.jobs, db.attempts, db.quotas, db.history, db.commands;
      NewestExists(db, j);
      var a :| a in attempts && IsNewest(attempts, j, a);
      NewestIs(db, j, a);
      var job, version := jobs[j], db.catalog.versions[jobs[j].version];
      if job.state != Queued || attempts[a].state != AttemptCreated { return Some(JobInWrongState); }
      if job.nextAttemptAt.Some? && job.nextAttemptAt.value > now { return Some(LeaseNotReady); }
      if version.size.None? { return Some(SourceSizeMissing); }
      if job.operations == [] || "" in job.operations { return Some(InvalidInput); }
      var selector := new WorkerRegistry.Registry.Load(db.workers);
      var choice := selector.SelectForLease(attempts, Steps.OperationSet(job.operations), now, c.heartbeatTtl, locked);
      if choice.None? || choice.value == NIL { return Some(WorkerUnavailable); }
      var worker := choice.value;
      if lease == NIL || lease in Steps.LeaseIds(attempts) { return Some(UniqueViolation); }
      var number := attempts[a].number;
      attempts := attempts[a := attempts[a].(state := AttemptLeased, lease := Some(lease), worker := Some(worker),
                                             expiresAt := Some(now + duration.value))];
      jobs := UpdateJob(jobs, j, Leased, None);
      quotas := UpdateQuota(quotas, jobs[j].owner, -1, 1);
      history := RecordHistory(history, j, Queued, Leased);
      var source := Source(ObjectKey(version.dataset, job.version), version.contentType, version.format, version.size.value);
      commands := commands + [LeaseCommand(j, job.version, a, lease, worker, number, job.operations, source)];
      UpdateIsTransfer(db, j, Leased);
      AcquireKeepsInv(db, c, j, requested, now, locked, lease);
      db := db.(jobs := jobs, attempts := attempts, quotas := quotas, history := history, commands := commands,
                workers := selector.workers);
      return None;
    }

    method Renew(c: Steps.Config, lease: Uuid, worker: Uuid, requested: Time, now: Time) returns (error: Option<Error>)
      requires Valid()
      modifies this
      ensures Valid()
      ensures db == Steps.Renew(old(db), c, lease, worker, requested, now).Settle(old(db))
      ensures error == Steps.Renew(old(db), c, lease, worker, requested, now).Failure()
      ensures Effects.RenewAnswer(old(db), c, lease, worker, requested, now, Ended(db, error))
    {
      hide Inv, Effects.RenewAnswer;
      Effects.RenewIsAnswered(db, c, lease, worker, requested, now);
      if lease == NIL || worker == NIL { return Some(InvalidInput); }
      var duration := Steps.NormalizeDuration(requested, c.renewalWindow);
      if duration.None? { return Some(InvalidInput); }
      if a :| a in db.attempts && Steps.HoldsLease(db.attempts, a, lease, worker) {
        forall b | Steps.HoldsLease(db.attempts, b, lease, worker) ensures b == a {
          LeaseIsUnique(db, a, b);
        }
        var item := db.attempts[a];
        if item.state != AttemptLeased && item.state != AttemptRunning { return Some(LeaseNotRenewable); }
        if item.expiresAt.None? || item.expiresAt.value <= now { return Some(LeaseExpired); }
        var attempts := map b | b in db.attempts ::
          if Steps.HoldsLease(db.attempts, b, lease, worker)
          then db.attempts[b].(expiresAt := Some(now + duration.value)) else db.attempts[b];
        assert attempts == db.attempts[a := item.(expiresAt := Some(now + duration.value))];
        RenewKeepsInv(db, c, lease, worker, requested, now);
        db := db.(attempts := attempts);
        return None;
      } else {
        return Some(LeaseNotFound);
      }
    }

    /**
     * Expires a batch of leases in one transaction. `batch` is what the query returned: some of the
     * expired leases, since rows that others have locked are skipped.
     */
    method SweepExpired(c: Steps.Config, limit: int, batch: seq<Uuid>, now: Time, ids: seq<Steps.NewIds>)
      returns (report: SweepReport, error: Option<Error>)
      requires |ids| == |batch| && Steps.IsBatch(db, batch, now, Steps.SweepLimit(c, limit))
      requires Valid()
      modifies this
      ensures Valid()
      ensures db == Steps.Sweep(old(db), c, limit, batch, now, ids).Settle(old(db))
      ensures error == Steps.Sweep(old(db), c, limit, batch, now, ids).Failure()
      ensures error.None? ==> IsReport(report, old(db), batch)
    {
      hide Inv, Steps.ExpireAll, IsReport, Steps.IsExpired;
      report := SweepReport(0, 0, 0, 0);
      var size := if limit == 0 then c.sweepLimit else limit;
      if size < 1 || size > Steps.MAX_SWEEP_BATCH { return report, Some(InvalidInput); }
      var r, tally := ExpireBatch(db, c, batch, now, ids, size);
      if r.Commit? {
        ExpireAllKeepsInv(db, c, batch, now, ids);
        db := r.db;
        return tally, None;
      }
      return report, Some(r.error);
    }

    // -------------------------------------------------------------- result

    /** One delivery of a worker message. The status is `None` for a duplicate or a failure. */
    method Process(message: Uuid, e: Steps.Event, now: Time, ids: Steps.NewIds)
      returns (status: Option<InboxStatus>, error: Option<Error>)
      requires Valid()
      modifies this
      ensures Valid()
      ensures db == Steps.Process(old(db), message, e, now, ids).Settle(old(db))
      ensures error == Steps.Process(old(db), message, e, now, ids).Failure()
      ensures message in old(db.inbox) ==> status.None?
      ensures status.Some? ==> message in db.inbox && db.inbox[message] == status.value
    {
      hide Inv, Steps.Apply, Steps.ValidEvent;
      if !Steps.ValidEvent(e) { return None, Some(InvalidInput); }
      if message in db.inbox { return None, None; }
      var effect: Steps.Effect;
      match e {
        case Started(_, _, _, _, _) => effect := ApplyStarted(db, e);
        case Progressed(_, _, _, _, _, _) => effect := ApplyProgressed(db, e);
        case SucceededEvent(_, _, _, _, _) => effect := ApplySucceeded(db, e);
        case FailedEvent(_, _, _, _, _) => effect := ApplyFailed(db, e, now, ids);
        case CancelledEvent(_, _, _, _) => effect := ApplyCancelled(db, e);
        case ArtifactCreated(_, _, _, _, _) => effect := ApplyArtifact(db, e);
      }
      if !e.FailedEvent? { OnlyFailuresDraw(db, e, now, ids); }
      if effect.Abort? { return None, Some(effect.error); }
      ProcessKeepsInv(db, message, e, now, ids);
      db := effect.db.(inbox := effect.db.inbox[message := effect.status]);
      return Some(effect.status), None;
    }

    // -------------------------------------------------------------- dlq

    /** Rewrites the tables, then fails to build its message: the transaction is rolled back. */
    method Replay(record: Uuid, actor: Uuid, crossOwner: bool, next: Uuid) returns (error: Option<Error>)
      requires Valid()
      modifies this
      ensures Valid() && db == old(db)
      ensures error == Steps.Replay(old(db), record, actor, crossOwner, next).Failure()
    {
      hide Inv, Steps.ReplayBody;
      var r := ReplayTables(db, record, actor, crossOwner, next);
      if r.Rollback? { return Some(r.error); }
      assert "attemptId" in Steps.REQUESTED_FIELDS && "attemptId" !in Steps.REPLAY_FIELDS;
      return Some(InvalidEnvelope);
    }
  }

  /** Only a failure draws ids or reads the clock. */
  lemma OnlyFailuresDraw(db: Db, e: Steps.Event, now: Time, ids: Steps.NewIds)
    requires !e.FailedEvent?
    ensures Steps.Apply(db, e, now, ids) == Steps.Apply(db, e, 0, Steps.NewIds(NIL, NIL, 0))
  {
    hide Steps.ApplyStarted, Steps.ApplyProgressed, Steps.ApplySucceeded, Steps.ApplyCancelled, Steps.ApplyArtifact;
  }
}
