/** What no later operation can undo. */
module JobTime {
  import opened Tables
  import opened JobLifecycle
  import opened JobTables
  import opened Datasets
  import opened JobSteps
  import opened JobInvariants
  import opened JobPreservation
  import RetryPolicy
  import WorkerRegistry

  /** An attempt only climbs its ladder, keeps its lease, and is frozen once finished. */
  predicate AttemptLater(before: Attempt, after: Attempt) {
    && Continues(before, after)
    && AttemptRank(before.state) <= AttemptRank(after.state)
    && (AttemptRank(before.state) == 3 ==> after == before)
  }

  ghost predicate AttemptsLater(before: map<Uuid, Attempt>, after: map<Uuid, Attempt>) {
    forall a | a in before :: a in after && AttemptLater(before[a], after[a])
  }

  /** A job keeps its request; a terminal state is final, and a cancellation request can only be granted. */
  predicate JobLater(before: Job, after: Job) {
    && after.owner == before.owner && after.version == before.version
    && after.operations == before.operations && after.maxAttempts == before.maxAttempts
    && (IsTerminal(before.state) ==> after.state == before.state)
    && (before.state == CancelRequested ==> after.state == CancelRequested || after.state == Cancelled)
  }

  ghost predicate JobsLater(before: map<Uuid, Job>, after: map<Uuid, Job>) {
    forall j | j in before :: j in after && JobLater(before[j], after[j])
  }

  ghost predicate HistoryLater(before: map<Uuid, seq<Transition>>, after: map<Uuid, seq<Transition>>) {
    forall j | j in before :: j in after && before[j] <= after[j]
  }

  ghost predicate ResultsLater(before: map<(Uuid, Uuid), Projection>, after: map<(Uuid, Uuid), Projection>) {
    forall p | p in before :: p in after && after[p] == before[p]
  }

  ghost predicate ArtifactsLater(before: map<(Uuid, Uuid, string), Artifact>, after: map<(Uuid, Uuid, string), Artifact>) {
    forall r | r in before ::
      && r in after && after[r].id == before[r].id && after[r].lease == before[r].lease
      && (before[r].canonical ==> after[r].canonical)
  }

  ghost predicate LettersLater(before: map<Uuid, DeadLetter>, after: map<Uuid, DeadLetter>) {
    forall d | d in before :: d in after && after[d] == before[d]
  }

  ghost predicate InboxLater(before: map<Uuid, InboxStatus>, after: map<Uuid, InboxStatus>) {
    forall m | m in before :: m in after && after[m] == before[m]
  }

  ghost predicate KeysLater(before: map<(Uuid, string), IdempotencyRecord>, after: map<(Uuid, string), IdempotencyRecord>) {
    forall s | s in before :: s in after && after[s] == before[s]
  }

  /**
   * A job's snapshot follows its attempts: within one attempt neither the rows nor the percentage go
   * down, and a different attempt is a newer one.
   */
  ghost predicate ProgressLater(before: map<Uuid, Progress>, after: map<Uuid, Progress>, attempts: map<Uuid, Attempt>) {
    forall j | j in before ::
      && j in after
      && before[j].attempt in attempts && after[j].attempt in attempts
      && if before[j].attempt == after[j].attempt
         then before[j].rows <= after[j].rows && before[j].percent <= after[j].percent
              && before[j].updatedAt <= after[j].updatedAt
         else attempts[before[j].attempt].number < attempts[after[j].attempt].number
  }

  ghost predicate Later(before: Db, after: Db) {
    && AttemptsLater(before.attempts, after.attempts)
    && JobsLater(before.jobs, after.jobs)
    && HistoryLater(before.history, after.history)
    && ResultsLater(before.projections, after.projections)
    && ArtifactsLater(before.artifacts, after.artifacts)
    && LettersLater(before.deadLetters, after.deadLetters)
    && InboxLater(before.inbox, after.inbox)
    && KeysLater(before.idempotency, after.idempotency)
    && ProgressLater(before.progress, after.progress, after.attempts)
    && before.commands <= after.commands
    && CatalogLater(before.catalog, after.catalog)
  }

  lemma LaterRefl(db: Db)
    requires Tracked(db.attempts, db.progress)
    ensures Later(db, db)
  {
  }

  lemma LaterTrans(a: Db, b: Db, c: Db)
    requires Later(a, b) && Later(b, c)
    ensures Later(a, c)
  {
    hide AttemptsLater, JobsLater, ProgressLater, CatalogLater;
    AttemptsTrans(a.attempts, b.attempts, c.attempts);
    JobsTrans(a.jobs, b.jobs, c.jobs);
    ProgressTrans(a.progress, b.progress, c.progress, b.attempts, c.attempts);
    CatalogLaterTrans(a.catalog, b.catalog, c.catalog);
  }

  lemma AttemptsTrans(a: map<Uuid, Attempt>, b: map<Uuid, Attempt>, c: map<Uuid, Attempt>)
    requires AttemptsLater(a, b) && AttemptsLater(b, c)
    ensures AttemptsLater(a, c)
  {
    forall x | x in a ensures x in c && AttemptLater(a[x], c[x]) {
      assert AttemptLater(a[x], b[x]) && AttemptLater(b[x], c[x]);
    }
  }

  lemma JobsTrans(a: map<Uuid, Job>, b: map<Uuid, Job>, c: map<Uuid, Job>)
    requires JobsLater(a, b) && JobsLater(b, c)
    ensures JobsLater(a, c)
  {
    forall j | j in a ensures j in c && JobLater(a[j], c[j]) {
      assert JobLater(a[j], b[j]) && JobLater(b[j], c[j]);
    }
  }

  lemma ProgressTrans(a: map<Uuid, Progress>, b: map<Uuid, Progress>, c: map<Uuid, Progress>,
                      middle: map<Uuid, Attempt>, last: map<Uuid, Attempt>)
    requires ProgressLater(a, b, middle) && ProgressLater(b, c, last) && AttemptsLater(middle, last)
    ensures ProgressLater(a, c, last)
  {
    forall x | x in middle ensures x in last && last[x].number == middle[x].number {
      assert AttemptLater(middle[x], last[x]);
    }
  }

  // ---------------------------------------------------------------- the building blocks only add

  /** The other tables, which a move does not touch, and a catalog that did not change. */
  ghost predicate SameElsewhere(before: Db, after: Db) {
    && after.artifacts == before.artifacts && after.deadLetters == before.deadLetters && after.inbox == before.inbox
    && after.idempotency == before.idempotency && after.commands == before.commands && after.catalog == before.catalog
    && after.progress == before.progress && after.projections == before.projections
  }

  lemma MoveLater(db: Db, j: Uuid, a: Uuid, to: JobState, attempt: Attempt, at: Option<Time>)
    requires j in db.jobs && a in db.attempts && AttemptLater(db.attempts[a], attempt)
    requires ValidTransition(db.jobs[j].state, to)
    requires Inv(db)
    ensures Later(db, Move(db, j, a, to, attempt, at))
  {
    hide Core, Rest, Later, Transfer;
    var after := Move(db, j, a, to, attempt, at);
    RowsLater(db, after, j, a);
  }

  lemma RequeueLater(db: Db, j: Uuid, a: Uuid, attempt: Attempt, next: Uuid, at: Option<Time>)
    requires j in db.jobs && a in db.attempts && AttemptLater(db.attempts[a], attempt) && next !in db.attempts
    requires ValidTransition(db.jobs[j].state, Queued)
    requires Inv(db)
    ensures Later(db, Requeue(db, j, a, attempt, next, at))
  {
    hide Core, Rest, Later, Transfer;
    var after := Requeue(db, j, a, attempt, next, at);
    RowsLater(db, after, j, a);
  }

  lemma RowsLater(db: Db, after: Db, j: Uuid, a: Uuid)
    requires SameElsewhere(db, after)
    requires j in db.jobs && j in after.jobs && JobLater(db.jobs[j], after.jobs[j])
    requires forall k | k in db.jobs && k != j :: k in after.jobs && after.jobs[k] == db.jobs[k]
    requires a in db.attempts && a in after.attempts && AttemptLater(db.attempts[a], after.attempts[a])
    requires forall b | b in db.attempts && b != a :: b in after.attempts && after.attempts[b] == db.attempts[b]
    requires forall k | k in db.history && k != j :: k in after.history && after.history[k] == db.history[k]
    requires j in db.history ==> j in after.history && db.history[j] <= after.history[j]
    requires Inv(db)
    ensures Later(db, after)
  {
    hide Core, Projected, Promoted, Lettered, Sourced, Keyed;
    forall b | b in db.attempts ensures AttemptLater(db.attempts[b], after.attempts[b]) {
    }
    forall k | k in db.progress ensures db.progress[k].attempt in after.attempts {
      assert db.progress[k].attempt in db.attempts;
    }
  }

  /** Adding a result, a dead letter, an artifact, a command or an inbox row undoes nothing. */
  lemma AddResultLater(db: Db, x: Db, row: (Uuid, Uuid), p: Projection)
    requires Later(db, x) && row !in db.projections
    ensures Later(db, x.(projections := x.projections[row := p]))
  {
    hide AttemptsLater, JobsLater, HistoryLater, ArtifactsLater, LettersLater, InboxLater, KeysLater, ProgressLater, CatalogLater;
  }

  lemma AddLetterLater(db: Db, x: Db, d: Uuid, letter: DeadLetter)
    requires Later(db, x) && d !in db.deadLetters
    ensures Later(db, x.(deadLetters := x.deadLetters[d := letter]))
  {
    hide AttemptsLater, JobsLater, HistoryLater, ArtifactsLater, ResultsLater, InboxLater, KeysLater, ProgressLater, CatalogLater;
  }

  lemma AddInboxLater(db: Db, x: Db, m: Uuid, status: InboxStatus)
    requires Later(db, x) && m !in db.inbox
    ensures Later(db, x.(inbox := x.inbox[m := status]))
  {
    hide AttemptsLater, JobsLater, HistoryLater, ArtifactsLater, ResultsLater, LettersLater, KeysLater, ProgressLater, CatalogLater;
  }

  lemma SwapArtifactsLater(db: Db, x: Db, artifacts: map<(Uuid, Uuid, string), Artifact>)
    requires Later(db, x) && ArtifactsLater(db.artifacts, artifacts)
    ensures Later(db, x.(artifacts := artifacts))
  {
    hide AttemptsLater, JobsLater, HistoryLater, ArtifactsLater, ResultsLater, LettersLater, InboxLater, KeysLater, ProgressLater,
         CatalogLater;
  }

  /** What the invariant says of the results of an unfinished attempt: there is none. */
  lemma NoResultYet(db: Db, a: Uuid)
    requires a in db.attempts && AttemptRank(db.attempts[a].state) < 3
    requires Inv(db)
    ensures (db.attempts[a].job, a) !in db.projections
  {
    hide Core, Rest;
    ResultOf(db, a);
  }

  lemma InvTracked(db: Db)
    requires Inv(db)
    ensures Tracked(db.attempts, db.progress)
  {
    hide Core, Projected, Promoted, Lettered, Sourced, Keyed, Tracked;
  }

  // ---------------------------------------------------------------- each operation

  lemma CreateLater(db: Db, c: CreateCommand, job: Uuid, attempt: Uuid)
    requires Create(db, c, job, attempt).Commit?
    requires Inv(db)
    ensures Later(db, Create(db, c, job, attempt).db)
  {
    hide Inv, Create, Later, Recorded, Tracked, AddsJob;
    InvTracked(db);
    if c.key != "" && (c.owner, c.key) in db.idempotency {
      RepeatedCreate(db, c, job, attempt);
      LaterRefl(db);
    } else {
      InvRecorded(db);
      HistoryKeys(db);
      CreateAddsJob(db, c, job, attempt);
      InsertLater(db, Create(db, c, job, attempt).db, job, attempt, (c.owner, c.key));
    }
  }

  lemma RepeatedCreate(db: Db, c: CreateCommand, job: Uuid, attempt: Uuid)
    requires c.key != "" && (c.owner, c.key) in db.idempotency && Create(db, c, job, attempt).Commit?
    ensures Create(db, c, job, attempt).db == db
  {
    hide ValidCreate, Transfer;
  }

  lemma CreateAddsJob(db: Db, c: CreateCommand, job: Uuid, attempt: Uuid)
    requires !(c.key != "" && (c.owner, c.key) in db.idempotency) && Create(db, c, job, attempt).Commit?
    ensures job !in db.jobs && AddsJob(db, Create(db, c, job, attempt).db, job, attempt, (c.owner, c.key))
  {
    hide ValidCreate, Transfer;
  }

  lemma HistoryKeys(db: Db)
    requires Recorded(db.jobs, db.history)
    ensures db.history.Keys == db.jobs.Keys
  {
  }

  /** Only rows for a new job were added. */
  ghost predicate AddsJob(db: Db, after: Db, j: Uuid, a: Uuid, slot: (Uuid, string)) {
    && after == db.(jobs := after.jobs, attempts := after.attempts, quotas := after.quotas, history := after.history,
                    idempotency := after.idempotency)
    && j !in db.jobs && a !in db.attempts
    && j in after.jobs && after.jobs == db.jobs[j := after.jobs[j]]
    && a in after.attempts && after.attempts == db.attempts[a := after.attempts[a]]
    && j in after.history && after.history == db.history[j := after.history[j]]
    && (after.idempotency == db.idempotency
        || (slot !in db.idempotency && slot in after.idempotency && after.idempotency == db.idempotency[slot := after.idempotency[slot]]))
  }

  lemma InsertLater(db: Db, after: Db, j: Uuid, a: Uuid, slot: (Uuid, string))
    requires Tracked(db.attempts, db.progress) && AddsJob(db, after, j, a, slot) && j !in db.history
    ensures Later(db, after)
  {
  }

  lemma InvRecorded(db: Db)
    requires Inv(db)
    ensures Recorded(db.jobs, db.history)
  {
    hide Rest, Chained, Leases, Counted, Recorded, InBudget, Settings;
  }

  lemma CancelLater(db: Db, j: Uuid, actor: Uuid, crossOwner: bool, reasonLength: nat)
    requires RequestCancel(db, j, actor, crossOwner, reasonLength).Commit?
    requires Inv(db)
    ensures Later(db, RequestCancel(db, j, actor, crossOwner, reasonLength).db)
  {
    hide Core, Rest, Newest, Later, Move;
    if db.jobs[j].state == CancelRequested || db.jobs[j].state == Cancelled {
      InvTracked(db);
      LaterRefl(db);
    } else {
      var a := CoreNewest(db, j);
      var attempt := db.attempts[a];
      if db.jobs[j].state == Queued {
        NoResultYet(db, a);
        MoveLater(db, j, a, Cancelled, attempt.(state := AttemptCancelled), None);
        AddResultLater(db, Move(db, j, a, Cancelled, attempt.(state := AttemptCancelled), None), (j, a),
                       Projection(ResultCancelled, []));
      } else {
        MoveLater(db, j, a, CancelRequested, attempt, db.jobs[j].nextAttemptAt);
      }
    }
  }

  lemma MoveFrame(db: Db, j: Uuid, a: Uuid, to: JobState, attempt: Attempt, at: Option<Time>)
    requires j in db.jobs
    ensures SameElsewhere(db, Move(db, j, a, to, attempt, at))
  {
  }

  lemma RetryLater(db: Db, j: Uuid, actor: Uuid, crossOwner: bool, next: Uuid)
    requires RequestRetry(db, j, actor, crossOwner, next).Commit?
    requires Inv(db)
    ensures Later(db, RequestRetry(db, j, actor, crossOwner, next).db)
  {
    hide Core, Rest, Newest, Later, Requeue;
    if db.jobs[j].state == Queued {
      InvTracked(db);
      LaterRefl(db);
    } else {
      var a := CoreNewest(db, j);
      RequeueLater(db, j, a, db.attempts[a], next, None);
    }
  }

  lemma AcquireLater(db: Db, c: Config, j: Uuid, requested: Time, now: Time, locked: set<Uuid>, lease: Uuid)
    requires Acquire(db, c, j, requested, now, locked, lease).Commit?
    requires Inv(db)
    ensures Later(db, Acquire(db, c, j, requested, now, locked, lease).db)
  {
    hide Core, Rest, Newest, WorkerRegistry.Choose, LeaseIds, Later, Transfer;
    var after := Acquire(db, c, j, requested, now, locked, lease).db;
    var a := CoreNewest(db, j);
    MoveLater(db, j, a, Leased, after.attempts[a], None);
    var moved := Move(db, j, a, Leased, after.attempts[a], None);
    AddCommandLater(db, moved, after);
  }

  lemma AddCommandLater(db: Db, x: Db, after: Db)
    requires Later(db, x) && x.commands <= after.commands
    requires after == x.(workers := after.workers, commands := after.commands)
    ensures Later(db, after)
  {
    hide AttemptsLater, JobsLater, HistoryLater, ArtifactsLater, ResultsLater, LettersLater, InboxLater, KeysLater, ProgressLater,
         CatalogLater;
  }

  lemma RenewLater(db: Db, c: Config, lease: Uuid, worker: Uuid, requested: Time, now: Time)
    requires Renew(db, c, lease, worker, requested, now).Commit?
    requires Inv(db)
    ensures Later(db, Renew(db, c, lease, worker, requested, now).db)
  {
    hide Inv, Later;
    var after := Renew(db, c, lease, worker, requested, now).db;
    var duration := NormalizeDuration(requested, c.renewalWindow).value;
    var a :| HoldsLease(db.attempts, a, lease, worker) && Extend(db, a, duration, now) == Commit(after);
    ExtendLater(db, a, duration, now);
  }

  lemma ExtendLater(db: Db, a: Uuid, duration: Time, now: Time)
    requires a in db.attempts && Extend(db, a, duration, now).Commit?
    requires Inv(db)
    ensures Later(db, Extend(db, a, duration, now).db)
  {
    hide Core, Rest, Newest, Later;
    CoreUnsettled(db, a);
    RowsLater(db, Extend(db, a, duration, now).db, db.attempts[a].job, a);
  }

  lemma ExpireLater(db: Db, c: Config, a: Uuid, now: Time, ids: NewIds)
    requires IsExpired(db, a, now) && Expire(db, c, a, now, ids).Commit?
    requires Inv(db)
    ensures Later(db, Expire(db, c, a, now, ids).db)
  {
    hide Core, Rest, Newest, Later, RetryPolicy.Delay, Move;
    var attempt := db.attempts[a];
    var j := attempt.job;
    CoreUnsettled(db, a);
    NoResultYet(db, a);
    var over := attempt.(state := AttemptTimedOut, expiresAt := Some(now));
    if db.jobs[j].state == CancelRequested {
      var gone := over.(state := AttemptCancelled);
      MoveLater(db, j, a, Cancelled, gone, None);
      AddResultLater(db, Move(db, j, a, Cancelled, gone, None), (j, a), Projection(ResultCancelled, []));
    } else if attempt.number + 1 <= db.jobs[j].maxAttempts {
      var delay := RetryPolicy.Delay(RetryPolicy.Widened(c.policy, db.jobs[j].maxAttempts), attempt.number + 1, Some(ids.draw));
      RequeueLater(db, j, a, over, ids.attempt, Some(now + delay.value));
    } else {
      MoveLater(db, j, a, DeadLettered, over, None);
      MoveFrame(db, j, a, DeadLettered, over, None);
      AddLetterLater(db, Move(db, j, a, DeadLettered, over, None), ids.deadLetter,
                     DeadLetter(j, a, attempt.lease.value, attempt.worker.value, attempt.number, false));
    }
  }

  lemma {:induction false} ExpireAllLater(db: Db, c: Config, batch: seq<Uuid>, now: Time, ids: seq<NewIds>)
    requires |ids| == |batch| && ExpireAll(db, c, batch, now, ids).Commit?
    requires Inv(db)
    ensures Later(db, ExpireAll(db, c, batch, now, ids).db)
    decreases |batch|
  {
    hide Inv, Later;
    if batch == [] {
      InvTracked(db);
      LaterRefl(db);
    } else {
      var next := Expire(db, c, batch[0], now, ids[0]).db;
      ExpireLater(db, c, batch[0], now, ids[0]);
      ExpireKeepsInv(db, c, batch[0], now, ids[0]);
      ExpireAllLater(next, c, batch[1..], now, ids[1..]);
      LaterTrans(db, next, ExpireAll(db, c, batch, now, ids).db);
    }
  }

  lemma SucceededLater(db: Db, e: Event)
    requires e.SucceededEvent? && e.attempt in db.attempts && e.job in db.jobs
    requires db.attempts[e.attempt].job == e.job && ApplySucceeded(db, e).status == Applied
    requires Inv(db)
    ensures Later(db, ApplySucceeded(db, e).db)
  {
    hide Core, Rest, Newest, Later, Move, Promote, IsTop, LeaseOk;
    var j, a := e.job, e.attempt;
    CoreUnsettled(db, a);
    NoResultYet(db, a);
    var over, at := db.attempts[a].(state := AttemptSucceeded), db.jobs[j].nextAttemptAt;
    MoveLater(db, j, a, Succeeded, over, at);
    var moved := Move(db, j, a, Succeeded, over, at);
    AddResultLater(db, moved, (j, a), Projection(ResultSucceeded, e.keys));
    PromoteLater(db.artifacts, j, a, e.keys);
    SwapArtifactsLater(db, Project(moved, j, a, ResultSucceeded, e.keys), Promote(db.artifacts, j, a, e.keys));
  }

  lemma PromoteLater(artifacts: map<(Uuid, Uuid, string), Artifact>, j: Uuid, a: Uuid, keys: seq<string>)
    ensures ArtifactsLater(artifacts, Promote(artifacts, j, a, keys))
  {
  }

  lemma FailedLater(db: Db, e: Event, now: Time, ids: NewIds)
    requires e.FailedEvent? && e.attempt in db.attempts && e.job in db.jobs
    requires db.attempts[e.attempt].job == e.job && ApplyFailed(db, e, now, ids).Effect?
    requires ApplyFailed(db, e, now, ids).status == Applied
    requires Inv(db)
    ensures Later(db, ApplyFailed(db, e, now, ids).db)
  {
    hide Core, Rest, Newest, Later, RetryPolicy.Delay, Move;
    var j, a := e.job, e.attempt;
    CoreUnsettled(db, a);
    NoResultYet(db, a);
    var attempt := db.attempts[a];
    var over, p := attempt.(state := AttemptFailed), Projection(ResultFailed, []);
    if e.retryable && attempt.number < db.jobs[j].maxAttempts {
      var delay := RetryPolicy.Delay(RetryPolicy.Widened(RetryPolicy.DEFAULT_POLICY, db.jobs[j].maxAttempts),
                                     attempt.number + 1, None).value;
      RequeueLater(db, j, a, over, ids.attempt, Some(now + delay));
      AddResultLater(db, Requeue(db, j, a, over, ids.attempt, Some(now + delay)), (j, a), p);
      ProjectCommutes(db, j, a, Queued, over, Some(now + delay), ResultFailed);
    } else if !e.retryable {
      MoveLater(db, j, a, FailedPermanent, over, None);
      AddResultLater(db, Move(db, j, a, FailedPermanent, over, None), (j, a), p);
      ProjectCommutes(db, j, a, FailedPermanent, over, None, ResultFailed);
    } else {
      MoveLater(db, j, a, DeadLettered, over, None);
      AddResultLater(db, Move(db, j, a, DeadLettered, over, None), (j, a), p);
      ProjectCommutes(db, j, a, DeadLettered, over, None, ResultFailed);
      AddLetterLater(db, Move(db, j, a, DeadLettered, over, None).(projections := db.projections[(j, a) := p]), ids.deadLetter,
                     DeadLetter(j, a, e.lease, e.worker, attempt.number, false));
    }
  }

  lemma CancelledLater(db: Db, e: Event)
    requires e.CancelledEvent? && e.attempt in db.attempts && e.job in db.jobs
    requires db.attempts[e.attempt].job == e.job && ApplyCancelled(db, e).status == Applied
    requires Inv(db)
    ensures Later(db, ApplyCancelled(db, e).db)
  {
    hide Core, Rest, Newest, Later, Move, IsTop, LeaseOk;
    var j, a := e.job, e.attempt;
    CoreUnsettled(db, a);
    NoResultYet(db, a);
    var over, at := db.attempts[a].(state := AttemptCancelled), db.jobs[j].nextAttemptAt;
    MoveLater(db, j, a, Cancelled, over, at);
    AddResultLater(db, Move(db, j, a, Cancelled, over, at), (j, a), Projection(ResultCancelled, []));
  }

  lemma ProgressedLater(db: Db, e: Event)
    requires e.Progressed? && e.attempt in db.attempts && e.job in db.jobs
    requires db.attempts[e.attempt].job == e.job
    requires Inv(db)
    ensures Later(db, ApplyProgressed(db, e).db)
  {
    hide Core, Rest, Newest;
    InvTracked(db);
    if ApplyProgressed(db, e).status == Applied {
      CoreUnsettled(db, e.attempt);
    }
    hide AttemptLater, JobLater, IsListed, CatalogLater;
    LaterRefl(db);
    hide AttemptsLater, JobsLater, HistoryLater, ArtifactsLater, ResultsLater, LettersLater, InboxLater, KeysLater;
  }

  lemma ArtifactLater(db: Db, e: Event)
    requires e.ArtifactCreated? && e.attempt in db.attempts && e.job in db.jobs
    requires ApplyArtifact(db, e).Effect?
    requires Inv(db)
    ensures Later(db, ApplyArtifact(db, e).db)
  {
    hide Inv, Later, IsListed, ArtifactIdTaken, Upserted;
    InvTracked(db);
    LaterRefl(db);
    if ApplyArtifact(db, e).status == Applied {
      var r := (e.job, e.attempt, e.key);
      var incoming := Artifact(e.id, e.lease, IsListed(db.projections, e.job, e.attempt, e.key));
      UpsertLater(db.artifacts, r, incoming);
      SwapArtifactsLater(db, db, db.artifacts[r := Upserted(db.artifacts, r, incoming)]);
    }
  }

  lemma UpsertLater(artifacts: map<(Uuid, Uuid, string), Artifact>, r: (Uuid, Uuid, string), incoming: Artifact)
    ensures ArtifactsLater(artifacts, artifacts[r := Upserted(artifacts, r, incoming)])
  {
  }

  lemma ProcessLater(db: Db, message: Uuid, e: Event, now: Time, ids: NewIds)
    requires Process(db, message, e, now, ids).Commit?
    requires Inv(db)
    ensures Later(db, Process(db, message, e, now, ids).db)
  {
    hide Inv, Later;
    InvTracked(db);
    LaterRefl(db);
    if message !in db.inbox {
      ApplyLater(db, e, now, ids);
      hide Apply;
      AddInboxLater(db, Apply(db, e, now, ids).db, message, Apply(db, e, now, ids).status);
    }
  }

  lemma ApplyLater(db: Db, e: Event, now: Time, ids: NewIds)
    requires Apply(db, e, now, ids).Effect?
    requires Inv(db)
    ensures Later(db, Apply(db, e, now, ids).db)
  {
    hide Core, Rest, Later, Newest, RetryPolicy.Delay, Upserted, Promote, ArtifactIdTaken, IsListed, Requeue, Move;
    InvTracked(db);
    LaterRefl(db);
    if e.attempt in db.attempts && db.attempts[e.attempt].job == e.job && e.job in db.jobs {
      match e
      case Started(_, _, _, _, _) =>
        if ApplyStarted(db, e).status == Applied && db.jobs[e.job].state == Leased {
          CoreUnsettled(db, e.attempt);
          MoveLater(db, e.job, e.attempt, Running, db.attempts[e.attempt].(state := AttemptRunning),
                    db.jobs[e.job].nextAttemptAt);
        }
      case Progressed(_, _, _, _, _, _) => ProgressedLater(db, e);
      case SucceededEvent(_, _, _, _, _) =>
        if ApplySucceeded(db, e).status == Applied { SucceededLater(db, e); }
      case FailedEvent(_, _, _, _, _) =>
        if ApplyFailed(db, e, now, ids).status == Applied { FailedLater(db, e, now, ids); }
      case CancelledEvent(_, _, _, _) =>
        if ApplyCancelled(db, e).status == Applied { CancelledLater(db, e); }
      case ArtifactCreated(_, _, _, _, _) => ArtifactLater(db, e);
    }
  }

  lemma CatalogLaterStep(db: Db, change: CatalogOp)
    requires Datasets.Transact(db.catalog, change).Done?
    requires Inv(db)
    ensures Later(db, db.(catalog := Datasets.Transact(db.catalog, change).catalog))
  {
    hide Core, Projected, Promoted, Lettered, Keyed;
    TransactKeeps(db.catalog, change);
    hide CatalogLater, Datasets.Transact, CommandOk;
    LaterRefl(db);
  }

  /** No operation undoes what is final. */
  lemma StepLater(db: Db, c: Config, op: Op)
    requires Inv(db)
    ensures Later(db, Step(db, c, op))
  {
    hide Inv, Later, Create, RequestCancel, RequestRetry, Acquire, Renew, Process, ReplayBody, Datasets.Transact, ExpireAll;
    InvTracked(db);
    LaterRefl(db);
    if op.OpReplay? {
      ReplayNeverCommits(db, op.record, op.actor, op.crossOwner, op.next);
    } else if Perform(db, c, op).Commit? {
      match op
      case OpCreate(command, job, attempt) => CreateLater(db, command, job, attempt);
      case OpCancel(j, actor, crossOwner, reasonLength) => CancelLater(db, j, actor, crossOwner, reasonLength);
      case OpRetry(j, actor, crossOwner, next) => RetryLater(db, j, actor, crossOwner, next);
      case OpAcquire(j, requested, now, locked, lease) => AcquireLater(db, c, j, requested, now, locked, lease);
      case OpRenew(lease, worker, requested, now) => RenewLater(db, c, lease, worker, requested, now);
      case OpSweep(limit, batch, now, ids) =>
        if |ids| == |batch| && IsBatch(db, batch, now, SweepLimit(c, limit)) {
          ExpireAllLater(db, c, batch, now, ids);
        }
      case OpDeliver(message, event, now, id) => ProcessLater(db, message, event, now, id);
      case OpCatalog(change) =>
        if Datasets.Transact(db.catalog, change).Done? {
          CatalogLaterStep(db, change);
        }
      case OpWorker(signal, now) => AddCommandLater(db, db, Step(db, c, op));
    }
  }

  /** Over any run from a reachable state, nothing final is undone. */
  lemma {:induction false} RunLater(db: Db, c: Config, ops: seq<Op>)
    requires Inv(db)
    ensures Inv(Run(db, c, ops)) && Later(db, Run(db, c, ops))
    decreases |ops|
  {
    hide Inv, Later, Step;
    if ops == [] {
      InvTracked(db);
      LaterRefl(db);
    } else {
      var next := Step(db, c, ops[0]);
      StepKeepsInv(db, c, ops[0]);
      StepLater(db, c, ops[0]);
      RunLater(next, c, ops[1..]);
      LaterTrans(db, next, Run(db, c, ops));
    }
  }
}
