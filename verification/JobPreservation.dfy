/** Every operation keeps the invariant. */
module JobPreservation {
  import opened Tables
  import opened JobLifecycle
  import opened JobTables
  import opened Datasets
  import opened JobSteps
  import opened JobInvariants
  import RetryPolicy
  import WorkerRegistry

  // ---------------------------------------------------------------- reading the invariant

  /** The core depends on four tables only. */
  lemma CoreIgnores(db: Db, after: Db)
    requires Core(db)
    requires after.jobs == db.jobs && after.attempts == db.attempts && after.quotas == db.quotas && after.history == db.history
    ensures Core(after)
  {
  }

  /** The rest does not depend on the counters, the history, the inbox or the workers. */
  lemma RestIgnores(db: Db, after: Db)
    requires Rest(db)
    requires after.jobs == db.jobs && after.attempts == db.attempts && after.projections == db.projections
    requires after.artifacts == db.artifacts && after.deadLetters == db.deadLetters && after.progress == db.progress
    requires after.idempotency == db.idempotency && after.commands == db.commands && after.catalog == db.catalog
    ensures Rest(after)
  {
  }

  /** What the core says about a job's newest attempt. */
  lemma CoreNewest(db: Db, j: Uuid) returns (a: Uuid)
    requires j in db.jobs
    requires Core(db)
    ensures Newest(db.attempts, j) == Some(a) && IsTop(db.jobs[j], j, db.attempts, a)
    ensures LeaseOk(db.attempts[a])
    ensures db.jobs[j].nextAttemptAt.Some? ==> db.jobs[j].state == Queued
    ensures 1 <= db.jobs[j].maxAttempts <= MAX_ATTEMPTS
  {
    hide Unique, Gapless, Counted, Recorded;
    a := NewestMatches(db.jobs, db.attempts, j);
  }

  /** What the core says about an attempt that is not settled. */
  lemma CoreUnsettled(db: Db, a: Uuid)
    requires a in db.attempts && !IsSettled(db.attempts[a].state)
    requires Core(db)
    ensures
      var j := db.attempts[a].job;
      && j in db.jobs && Newest(db.attempts, j) == Some(a) && IsTop(db.jobs[j], j, db.attempts, a)
      && LeaseOk(db.attempts[a])
      && (db.jobs[j].nextAttemptAt.Some? ==> db.jobs[j].state == Queued)
      && 1 <= db.jobs[j].maxAttempts <= MAX_ATTEMPTS
  {
    hide Unique, Gapless, Counted, Recorded, Newest;
    UnsettledIsNewest(db.jobs, db.attempts, a);
  }

  lemma ResultOf(db: Db, a: Uuid)
    requires a in db.attempts
    requires Rest(db)
    ensures ResultOk(db.attempts[a], a, db.projections)
  {
    hide Promoted, Lettered, Sourced, Keyed, Tracked, ResultOk;
  }

  // ---------------------------------------------------------------- the ways a job moves

  /** A move that records no result and writes no dead letter. */
  lemma AdvanceKeepsInv(db: Db, j: Uuid, a: Uuid, to: JobState, attempt: Attempt, nextAttemptAt: Option<Time>)
    requires j in db.jobs && Newest(db.attempts, j) == Some(a) && a in db.attempts && db.attempts[a].job == j
    requires ValidTransition(db.jobs[j].state, to) && Matches(to, attempt.state) && to != DeadLettered
    requires Continues(db.attempts[a], attempt) && LeaseOk(attempt)
    requires attempt.lease == db.attempts[a].lease || (attempt.lease.Some? && attempt.lease.value !in LeaseIds(db.attempts))
    requires nextAttemptAt.Some? ==> to == Queued
    requires AttemptRank(db.attempts[a].state) < 3 && AttemptRank(attempt.state) < 3
    requires Inv(db)
    ensures Inv(Move(db, j, a, to, attempt, nextAttemptAt))
  {
    hide Core, Rest, Newest, LeaseIds, Transfer;
    var after := Move(db, j, a, to, attempt, nextAttemptAt);
    MoveKeepsCore(db, j, a, to, attempt, nextAttemptAt);
    ResultOf(db, a);
    RewriteKeepsRest(db, j, after.jobs[j], a, attempt, db.projections);
    RestIgnores(db.(jobs := after.jobs, attempts := after.attempts), after);
  }

  /** A move that records a failure or a cancellation but writes no dead letter. */
  lemma CloseKeepsInv(db: Db, j: Uuid, a: Uuid, to: JobState, attempt: Attempt, outcome: ResultOutcome)
    requires j in db.jobs && Newest(db.attempts, j) == Some(a) && a in db.attempts && db.attempts[a].job == j
    requires ValidTransition(db.jobs[j].state, to) && Matches(to, attempt.state) && to != DeadLettered && to != Queued
    requires Continues(db.attempts[a], attempt) && attempt.lease == db.attempts[a].lease && LeaseOk(attempt)
    requires AttemptRank(db.attempts[a].state) < 3
    requires
      || (attempt.state == AttemptFailed && outcome == ResultFailed)
      || (attempt.state == AttemptCancelled && outcome == ResultCancelled)
    requires Inv(db)
    ensures Inv(Project(Move(db, j, a, to, attempt, None), j, a, outcome, []))
  {
    hide Core, Rest, Newest, LeaseIds, Transfer;
    var moved := Move(db, j, a, to, attempt, None);
    var after := Project(moved, j, a, outcome, []);
    MoveKeepsCore(db, j, a, to, attempt, None);
    CoreIgnores(moved, after);
    RewriteKeepsRest(db, j, after.jobs[j], a, attempt, after.projections);
    RestIgnores(db.(jobs := after.jobs, attempts := after.attempts, projections := after.projections), after);
  }

  /** A move to the dead-letter state; `results` are the results afterwards. */
  lemma DeathKeepsInv(db: Db, j: Uuid, a: Uuid, attempt: Attempt, results: map<(Uuid, Uuid), Projection>,
                      d: Uuid, letter: DeadLetter)
    requires j in db.jobs && Newest(db.attempts, j) == Some(a) && IsTop(db.jobs[j], j, db.attempts, a)
    requires ValidTransition(db.jobs[j].state, DeadLettered) && IsHeld(db.attempts[a].state) && IsSettled(attempt.state)
    requires Continues(db.attempts[a], attempt) && attempt.lease == db.attempts[a].lease && LeaseOk(attempt)
    requires SameResultsBut(db.projections, results, (j, a)) && ResultOk(attempt, a, results)
    requires d !in db.deadLetters && letter.job == j && letter.attempt == a
    requires attempt.lease == Some(letter.lease) && attempt.number == letter.number
    requires Inv(db)
    ensures Inv(Move(db, j, a, DeadLettered, attempt, None).(projections := results, deadLetters := db.deadLetters[d := letter]))
  {
    hide Core, Rest, Newest, LeaseIds, Transfer, SameResultsBut, ResultOk;
    var moved := Move(db, j, a, DeadLettered, attempt, None);
    var after := moved.(projections := results, deadLetters := db.deadLetters[d := letter]);
    MoveKeepsCore(db, j, a, DeadLettered, attempt, None);
    CoreIgnores(moved, after);
    DeathKeepsRest(db, j, after.jobs[j], a, attempt, results, d, letter);
    RestIgnores(db.(jobs := after.jobs, attempts := after.attempts, projections := results, deadLetters := after.deadLetters),
                after);
  }

  /** A move back to the queue with one more attempt; `results` are the results afterwards. */
  lemma RequeueKeepsInv(db: Db, j: Uuid, a: Uuid, attempt: Attempt, next: Uuid, nextAttemptAt: Option<Time>,
                        results: map<(Uuid, Uuid), Projection>)
    requires j in db.jobs && Newest(db.attempts, j) == Some(a) && a in db.attempts && db.attempts[a].job == j
    requires ValidTransition(db.jobs[j].state, Queued)
    requires Continues(db.attempts[a], attempt) && attempt.lease == db.attempts[a].lease && LeaseOk(attempt)
    requires IsSettled(attempt.state) && db.attempts[a].state != AttemptSucceeded
    requires next !in db.attempts
    requires attempt.number + 1 <= db.jobs[j].maxAttempts || db.jobs[j].state == DeadLettered
    requires SameResultsBut(db.projections, results, (j, a)) && ResultOk(attempt, a, results)
    requires Inv(db)
    ensures Inv(Requeue(db, j, a, attempt, next, nextAttemptAt).(projections := results))
  {
    hide Core, Rest, Newest, Transfer, SameResultsBut, ResultOk;
    var moved := Move(db, j, a, Queued, attempt, nextAttemptAt);
    var queued := Requeue(db, j, a, attempt, next, nextAttemptAt);
    var after := queued.(projections := results);
    RequeueKeepsCore(db, j, a, attempt, next, nextAttemptAt);
    CoreIgnores(queued, after);
    var rewritten := db.(jobs := moved.jobs, attempts := moved.attempts, projections := results);
    RewriteKeepsRest(db, j, moved.jobs[j], a, attempt, results);
    InsertKeepsRest(rewritten, next, after.attempts[next]);
    RestIgnores(rewritten.(attempts := after.attempts), after);
  }

  // ---------------------------------------------------------------- job

  lemma CreateKeepsInv(db: Db, c: CreateCommand, job: Uuid, attempt: Uuid)
    requires Create(db, c, job, attempt).Commit?
    requires Inv(db)
    ensures Inv(Create(db, c, job, attempt).db)
  {
    hide Core, Rest, Transfer;
    if Create(db, c, job, attempt).db != db {
      CreateKeepsCore(db, c, job, attempt);
      CreateKeepsRest(db, c, job, attempt);
    }
  }

  lemma CreateKeepsCore(db: Db, c: CreateCommand, job: Uuid, attempt: Uuid)
    requires Create(db, c, job, attempt).Commit? && Create(db, c, job, attempt).db != db
    requires Core(db)
    ensures Core(Create(db, c, job, attempt).db)
  {
    hide Core, Transfer;
    var after := Create(db, c, job, attempt).db;
    assert "" !in c.operations by {
      assert forall op | op in c.operations :: KnownOperation(op);
    }
    hide KnownOperation;
    var begun := Begun(db, job, after.jobs[job], attempt);
    BeginKeepsCore(db, job, after.jobs[job], attempt);
    CoreIgnores(begun, after);
  }

  /** The four core tables once a new job has been queued. */
  ghost function Begun(db: Db, j: Uuid, row: Job, a: Uuid): Db {
    db.(jobs := db.jobs[j := row],
        attempts := db.attempts[a := Attempt(j, 1, AttemptCreated, None, None, None)],
        quotas := Transfer(db.quotas, row.owner, Created, Queued),
        history := db.history[j := [Transition(None, Queued)]])
  }

  lemma BeginKeepsCore(db: Db, j: Uuid, row: Job, a: Uuid)
    requires j !in db.jobs && a !in db.attempts
    requires row.state == Queued && row.nextAttemptAt.None? && row.operations != [] && "" !in row.operations
    requires 1 <= row.maxAttempts <= MAX_ATTEMPTS
    requires Core(db)
    ensures Core(Begun(db, j, row, a))
  {
    hide Counted, Leases, Chained, Transfer, InBudget, Recorded, Settings;
    var first := Attempt(j, 1, AttemptCreated, None, None, None);
    CountedAfter(db.jobs, db.quotas, j, row);
    LeasesAfter(db.attempts, a, first);
    ChainBegins(db.jobs, db.attempts, j, row, a, first);
    BudgetBegins(db.jobs, db.attempts, db.history, j, row, a, first);
    HistoryBegins(db.jobs, db.history, j, row);
  }

  lemma BudgetBegins(jobs: map<Uuid, Job>, attempts: map<Uuid, Attempt>, history: map<Uuid, seq<Transition>>,
                     j: Uuid, row: Job, a: Uuid, first: Attempt)
    requires InBudget(jobs, attempts, history) && j !in jobs && a !in attempts
    requires 1 <= row.maxAttempts <= MAX_ATTEMPTS && first.job == j && first.number == 1
    ensures InBudget(jobs[j := row], attempts[a := first], history[j := [Transition(None, Queued)]])
  {
  }

  lemma HistoryBegins(jobs: map<Uuid, Job>, history: map<Uuid, seq<Transition>>, j: Uuid, row: Job)
    requires Recorded(jobs, history) && Settings(jobs) && j !in jobs
    requires row.state == Queued && row.nextAttemptAt.None? && row.operations != [] && "" !in row.operations
    ensures Recorded(jobs[j := row], history[j := [Transition(None, Queued)]]) && Settings(jobs[j := row])
  {
  }

  lemma ChainBegins(jobs: map<Uuid, Job>, attempts: map<Uuid, Attempt>, j: Uuid, row: Job, a: Uuid, first: Attempt)
    requires Chained(jobs, attempts) && j !in jobs && a !in attempts
    requires first.job == j && first.number == 1 && Matches(row.state, first.state)
    ensures Chained(jobs[j := row], attempts[a := first])
  {
    hide Unique, Gapless, Topped;
    var newest :| Topped(jobs, attempts, newest);
    ToppedAfterBegin(jobs, attempts, newest, j, row, a, first);
    FirstNumber(attempts, a, first);
  }

  lemma ToppedAfterBegin(jobs: map<Uuid, Job>, attempts: map<Uuid, Attempt>, newest: map<Uuid, Uuid>,
                         j: Uuid, row: Job, a: Uuid, first: Attempt)
    requires Topped(jobs, attempts, newest) && j !in jobs && a !in attempts
    requires first.job == j && first.number == 1 && Matches(row.state, first.state)
    ensures Topped(jobs[j := row], attempts[a := first], newest[j := a])
    ensures forall b | b in attempts :: attempts[b].job != j
  {
    var after := attempts[a := first];
    forall k | k in jobs ensures IsTop(jobs[k], k, after, newest[k]) {
      assert IsTop(jobs[k], k, attempts, newest[k]);
    }
    assert IsTop(row, j, after, a);
  }

  lemma FirstNumber(attempts: map<Uuid, Attempt>, a: Uuid, first: Attempt)
    requires Unique(attempts) && Gapless(attempts) && a !in attempts && first.number == 1
    requires forall b | b in attempts :: attempts[b].job != first.job
    ensures Unique(attempts[a := first]) && Gapless(attempts[a := first])
  {
    var after := attempts[a := first];
    forall b, n | b in after && 1 <= n <= after[b].number ensures HasNumber(after, after[b].job, n) {
      if b == a {
        assert after[a].number == n;
      } else {
        assert HasNumber(attempts, attempts[b].job, n);
        var c :| c in attempts && attempts[c].job == attempts[b].job && attempts[c].number == n;
        assert after[c] == attempts[c];
      }
    }
  }

  lemma CreateKeepsRest(db: Db, c: CreateCommand, job: Uuid, attempt: Uuid)
    requires Create(db, c, job, attempt).Commit? && Create(db, c, job, attempt).db != db
    requires Rest(db)
    ensures Rest(Create(db, c, job, attempt).db)
  {
    hide Rest, Transfer, KnownOperation;
    var after := Create(db, c, job, attempt).db;
    var row := after.jobs[job];
    var added := db.(jobs := after.jobs);
    JobKeepsRest(db, job, row);
    InsertKeepsRest(added, attempt, after.attempts[attempt]);
    var both := added.(attempts := after.attempts);
    if c.key == "" {
      RestIgnores(both, after);
    } else {
      var keyed := both.(idempotency := after.idempotency);
      KeyKeepsRest(db, both, (c.owner, c.key), IdempotencyRecord(c.fingerprint, job));
      RestIgnores(keyed, after);
    }
  }

  lemma JobKeepsRest(db: Db, j: Uuid, row: Job)
    requires j !in db.jobs && row.state == Queued
    requires row.version in db.catalog.versions && db.catalog.versions[row.version].state == VersionAvailable
    requires Rest(db)
    ensures Rest(db.(jobs := db.jobs[j := row]))
  {
    hide Projected, Promoted, Tracked, CatalogInv, IsNewest, HasLetter;
    var jobs := db.jobs[j := row];
    forall i | 0 <= i < |db.commands| ensures CommandOk(db.commands[i], jobs, db.attempts, db.catalog) {
      assert CommandOk(db.commands[i], db.jobs, db.attempts, db.catalog);
    }
  }

  lemma KeyKeepsRest(db: Db, after: Db, slot: (Uuid, string), record: IdempotencyRecord)
    requires Rest(after) && Rest(db) && after.idempotency == db.idempotency
    requires record.job !in db.jobs && record.job in after.jobs && after.jobs[record.job].owner == slot.0
    ensures Rest(after.(idempotency := after.idempotency[slot := record]))
  {
    hide Projected, Promoted, Tracked, Lettered, Sourced;
  }

  lemma CancelKeepsInv(db: Db, j: Uuid, actor: Uuid, crossOwner: bool, reasonLength: nat)
    requires RequestCancel(db, j, actor, crossOwner, reasonLength).Commit?
    requires Inv(db)
    ensures Inv(RequestCancel(db, j, actor, crossOwner, reasonLength).db)
  {
    hide Core, Rest, Newest;
    var after := RequestCancel(db, j, actor, crossOwner, reasonLength).db;
    if after != db {
      var a := CoreNewest(db, j);
      var attempt := db.attempts[a];
      if db.jobs[j].state == Queued {
        CloseKeepsInv(db, j, a, Cancelled, attempt.(state := AttemptCancelled), ResultCancelled);
      } else {
        AdvanceKeepsInv(db, j, a, CancelRequested, attempt, db.jobs[j].nextAttemptAt);
      }
    }
  }

  lemma RetryKeepsInv(db: Db, j: Uuid, actor: Uuid, crossOwner: bool, next: Uuid)
    requires RequestRetry(db, j, actor, crossOwner, next).Commit?
    requires Inv(db)
    ensures Inv(RequestRetry(db, j, actor, crossOwner, next).db)
  {
    hide Core, Rest, Newest;
    var after := RequestRetry(db, j, actor, crossOwner, next).db;
    if after != db {
      var a := CoreNewest(db, j);
      ResultOf(db, a);
      RequeueKeepsInv(db, j, a, db.attempts[a], next, None, db.projections);
    }
  }

  // ---------------------------------------------------------------- lease

  lemma AcquireKeepsInv(db: Db, c: Config, j: Uuid, requested: Time, now: Time, locked: set<Uuid>, lease: Uuid)
    requires Acquire(db, c, j, requested, now, locked, lease).Commit?
    requires Inv(db)
    ensures Inv(Acquire(db, c, j, requested, now, locked, lease).db)
  {
    hide Core, Rest, Newest, WorkerRegistry.Choose, LeaseIds;
    var after := Acquire(db, c, j, requested, now, locked, lease).db;
    var a := CoreNewest(db, j);
    var held := after.attempts[a];
    var moved := Move(db, j, a, Leased, held, None);
    AdvanceKeepsInv(db, j, a, Leased, held, None);
    CoreIgnores(moved, after);
    CommandKeepsRest(moved, after.commands[|db.commands|]);
    RestIgnores(moved.(commands := after.commands), after);
  }

  lemma CommandKeepsRest(db: Db, command: LeaseCommand)
    requires CommandOk(command, db.jobs, db.attempts, db.catalog)
    requires Rest(db)
    ensures Rest(db.(commands := db.commands + [command]))
  {
    hide Projected, Promoted, Lettered, Keyed, Tracked, CommandOk;
  }

  lemma RenewKeepsInv(db: Db, c: Config, lease: Uuid, worker: Uuid, requested: Time, now: Time)
    requires Renew(db, c, lease, worker, requested, now).Commit?
    requires Inv(db)
    ensures Inv(Renew(db, c, lease, worker, requested, now).db)
  {
    hide Inv;
    var after := Renew(db, c, lease, worker, requested, now).db;
    var duration := NormalizeDuration(requested, c.renewalWindow).value;
    var a :| HoldsLease(db.attempts, a, lease, worker) && Extend(db, a, duration, now) == Commit(after);
    ExtendKeepsInv(db, a, duration, now);
  }

  lemma ExtendKeepsInv(db: Db, a: Uuid, duration: Time, now: Time)
    requires a in db.attempts && Extend(db, a, duration, now).Commit?
    requires Inv(db)
    ensures Inv(Extend(db, a, duration, now).db)
  {
    hide Core, Rest, Newest;
    var after := Extend(db, a, duration, now).db;
    var j, attempt := db.attempts[a].job, after.attempts[a];
    CoreUnsettled(db, a);
    ResultOf(db, a);
    DeadlineKeepsCore(db, a, attempt);
    RewriteKeepsRest(db, j, db.jobs[j], a, attempt, db.projections);
    assert db.jobs[j := db.jobs[j]] == db.jobs;
    RestIgnores(db.(jobs := db.jobs[j := db.jobs[j]], attempts := after.attempts, projections := db.projections), after);
  }

  lemma DeadlineKeepsCore(db: Db, a: Uuid, attempt: Attempt)
    requires a in db.attempts && db.attempts[a].job in db.jobs && LeaseOk(attempt)
    requires Newest(db.attempts, db.attempts[a].job) == Some(a) && IsHeld(db.attempts[a].state)
    requires Matches(db.jobs[db.attempts[a].job].state, db.attempts[a].state)
    requires attempt == db.attempts[a].(expiresAt := attempt.expiresAt)
    requires Core(db)
    ensures Core(db.(attempts := db.attempts[a := attempt]))
  {
    hide Chained, Leases, Counted, Recorded, Newest, InBudget, LeaseIds, LeaseOk, Settings;
    var j := db.attempts[a].job;
    assert db.jobs[j := db.jobs[j]] == db.jobs;
    ChainAfterRewrite(db.jobs, db.attempts, j, a, db.jobs[j], attempt);
    LeasesAfter(db.attempts, a, attempt);
    BudgetKept(db.jobs, db.attempts, db.history, a, attempt);
  }

  lemma BudgetKept(jobs: map<Uuid, Job>, attempts: map<Uuid, Attempt>, history: map<Uuid, seq<Transition>>, a: Uuid, attempt: Attempt)
    requires InBudget(jobs, attempts, history) && a in attempts
    requires attempt.job == attempts[a].job && attempt.number == attempts[a].number
    ensures InBudget(jobs, attempts[a := attempt], history)
  {
  }

  lemma ExpireKeepsInv(db: Db, c: Config, a: Uuid, now: Time, ids: NewIds)
    requires IsExpired(db, a, now) && Expire(db, c, a, now, ids).Commit?
    requires Inv(db)
    ensures Inv(Expire(db, c, a, now, ids).db)
  {
    hide Core, Rest, Newest, Move, RetryPolicy.Delay;
    var attempt := db.attempts[a];
    var j := attempt.job;
    CoreUnsettled(db, a);
    ResultOf(db, a);
    var over := attempt.(state := AttemptTimedOut, expiresAt := Some(now));
    if db.jobs[j].state == CancelRequested {
      CloseKeepsInv(db, j, a, Cancelled, over.(state := AttemptCancelled), ResultCancelled);
    } else if attempt.number + 1 <= db.jobs[j].maxAttempts {
      var delay := RetryPolicy.Delay(RetryPolicy.Widened(c.policy, db.jobs[j].maxAttempts), attempt.number + 1, Some(ids.draw));
      RequeueKeepsInv(db, j, a, over, ids.attempt, Some(now + delay.value), db.projections);
      RequeueFrame(db, j, a, over, ids.attempt, Some(now + delay.value));
    } else {
      ProjectCommutes(db, j, a, DeadLettered, over, None, ResultFailed);
      DeathKeepsInv(db, j, a, over, db.projections, ids.deadLetter,
                    DeadLetter(j, a, attempt.lease.value, attempt.worker.value, attempt.number, false));
    }
  }

  lemma {:induction false} ExpireAllKeepsInv(db: Db, c: Config, batch: seq<Uuid>, now: Time, ids: seq<NewIds>)
    requires |ids| == |batch| && ExpireAll(db, c, batch, now, ids).Commit?
    requires Inv(db)
    ensures Inv(ExpireAll(db, c, batch, now, ids).db)
    decreases |batch|
  {
    hide Inv;
    if batch != [] {
      ExpireKeepsInv(db, c, batch[0], now, ids[0]);
      ExpireAllKeepsInv(Expire(db, c, batch[0], now, ids[0]).db, c, batch[1..], now, ids[1..]);
    }
  }

  // ---------------------------------------------------------------- result

  lemma StartedKeepsInv(db: Db, e: Event)
    requires e.Started? && e.attempt in db.attempts && e.job in db.jobs && db.attempts[e.attempt].job == e.job
    requires Inv(db)
    ensures Inv(ApplyStarted(db, e).db)
  {
    hide Core, Rest, Newest;
    if ApplyStarted(db, e).status == Applied && db.jobs[e.job].state == Leased {
      CoreUnsettled(db, e.attempt);
      AdvanceKeepsInv(db, e.job, e.attempt, Running, db.attempts[e.attempt].(state := AttemptRunning),
                      db.jobs[e.job].nextAttemptAt);
    }
  }

  lemma ProgressedKeepsInv(db: Db, e: Event)
    requires e.Progressed? && e.attempt in db.attempts && e.job in db.jobs && db.attempts[e.attempt].job == e.job
    requires Inv(db)
    ensures Inv(ApplyProgressed(db, e).db)
  {
    hide Core, Rest, MatchesLease, Supersedes;
    MatchMeans(db.attempts[e.attempt], e.lease);
    var after := ApplyProgressed(db, e).db;
    CoreIgnores(db, after);
    if ApplyProgressed(db, e).status == Applied {
      ProgressKeepsRest(db, e.job, after.progress[e.job]);
    }
  }

  lemma MatchMeans(attempt: Attempt, lease: Uuid)
    ensures MatchesLease(attempt, lease, NIL) ==> attempt.lease == Some(lease)
  {
  }

  lemma ProgressKeepsRest(db: Db, j: Uuid, p: Progress)
    requires p.attempt in db.attempts && db.attempts[p.attempt].job == j
    requires db.attempts[p.attempt].lease == Some(p.lease)
    requires Rest(db)
    ensures Rest(db.(progress := db.progress[j := p]))
  {
    hide Projected, Promoted, Lettered, Sourced, Keyed;
  }

  lemma SucceededKeepsInv(db: Db, e: Event)
    requires e.SucceededEvent? && e.attempt in db.attempts && e.job in db.jobs
    requires db.attempts[e.attempt].job == e.job
    requires Inv(db)
    ensures Inv(ApplySucceeded(db, e).db)
  {
    hide Core, Rest, Newest, Promote;
    var after := ApplySucceeded(db, e).db;
    if ApplySucceeded(db, e).status == Applied {
      CoreUnsettled(db, e.attempt);
      var attempt := db.attempts[e.attempt].(state := AttemptSucceeded);
      var moved := Move(db, e.job, e.attempt, Succeeded, attempt, db.jobs[e.job].nextAttemptAt);
      MoveKeepsCore(db, e.job, e.attempt, Succeeded, attempt, db.jobs[e.job].nextAttemptAt);
      CoreIgnores(moved, after);
      SuccessKeepsRest(db, e.job, after.jobs[e.job], e.attempt, attempt, e.keys);
      RestIgnores(db.(jobs := after.jobs, attempts := after.attempts, projections := after.projections,
                      artifacts := after.artifacts), after);
    }
  }

  lemma SuccessKeepsRest(db: Db, j: Uuid, row: Job, a: Uuid, attempt: Attempt, keys: seq<string>)
    requires j in db.jobs && a in db.attempts && db.attempts[a].job == j
    requires row.owner == db.jobs[j].owner && row.version == db.jobs[j].version && row.operations == db.jobs[j].operations
    requires row.state == Succeeded && db.attempts[a].state == AttemptRunning
    requires attempt == db.attempts[a].(state := AttemptSucceeded)
    requires Rest(db)
    ensures Rest(db.(jobs := db.jobs[j := row], attempts := db.attempts[a := attempt],
                     projections := db.projections[(j, a) := Projection(ResultSucceeded, keys)],
                     artifacts := Promote(db.artifacts, j, a, keys)))
  {
    hide Lettered, Sourced, Projected, Promoted;
    var results := db.projections[(j, a) := Projection(ResultSucceeded, keys)];
    ResultOf(db, a);
    ProjectedAfter(db.attempts, db.projections, a, attempt, results);
    PromotedBySuccess(db.attempts, db.projections, db.artifacts, j, a, attempt, keys);
    LetteredAfter(db.jobs, db.attempts, db.deadLetters, j, row, a, attempt);
    SourcedAfter(db.jobs, db.attempts, db.catalog, db.commands, j, row, a, attempt);
  }

  /** Success makes exactly the listed artifacts of its attempt canonical. */
  lemma PromotedBySuccess(attempts: map<Uuid, Attempt>, before: map<(Uuid, Uuid), Projection>,
                          artifacts: map<(Uuid, Uuid, string), Artifact>, j: Uuid, a: Uuid, attempt: Attempt, keys: seq<string>)
    requires Promoted(attempts, before, artifacts) && a in attempts && attempts[a].job == j
    requires (j, a) !in before && attempt == attempts[a].(state := AttemptSucceeded)
    ensures Promoted(attempts[a := attempt], before[(j, a) := Projection(ResultSucceeded, keys)], Promote(artifacts, j, a, keys))
  {
  }

  lemma FailedKeepsInv(db: Db, e: Event, now: Time, ids: NewIds)
    requires e.FailedEvent? && e.attempt in db.attempts && e.job in db.jobs
    requires db.attempts[e.attempt].job == e.job && e.worker != NIL && ApplyFailed(db, e, now, ids).Effect?
    requires Inv(db)
    ensures Inv(ApplyFailed(db, e, now, ids).db)
  {
    hide Core, Rest, Newest, RetryPolicy.Delay, Move;
    var after := ApplyFailed(db, e, now, ids).db;
    if ApplyFailed(db, e, now, ids).status == Applied {
      var j, a := e.job, e.attempt;
      CoreUnsettled(db, a);
      var attempt := db.attempts[a];
      var over := attempt.(state := AttemptFailed);
      var results := db.projections[(j, a) := Projection(ResultFailed, [])];
      if e.retryable && attempt.number < db.jobs[j].maxAttempts {
        var delay := RetryPolicy.Delay(RetryPolicy.Widened(RetryPolicy.DEFAULT_POLICY, db.jobs[j].maxAttempts),
                                       attempt.number + 1, None).value;
        RequeueKeepsInv(db, j, a, over, ids.attempt, Some(now + delay), results);
        ProjectCommutes(db, j, a, Queued, over, Some(now + delay), ResultFailed);
      } else if !e.retryable {
        CloseKeepsInv(db, j, a, FailedPermanent, over, ResultFailed);
        ProjectCommutes(db, j, a, FailedPermanent, over, None, ResultFailed);
      } else {
        DeathKeepsInv(db, j, a, over, results, ids.deadLetter,
                      DeadLetter(j, a, e.lease, e.worker, attempt.number, false));
        ProjectCommutes(db, j, a, DeadLettered, over, None, ResultFailed);
      }
    }
  }

  lemma ProjectCommutes(db: Db, j: Uuid, a: Uuid, to: JobState, attempt: Attempt, at: Option<Time>, outcome: ResultOutcome)
    requires j in db.jobs
    ensures Move(Project(db, j, a, outcome, []), j, a, to, attempt, at)
         == Move(db, j, a, to, attempt, at).(projections := db.projections[(j, a) := Projection(outcome, [])])
    ensures Move(db, j, a, to, attempt, at).projections == db.projections
    ensures Move(db, j, a, to, attempt, at).deadLetters == db.deadLetters
  {
  }

  lemma CancelledKeepsInv(db: Db, e: Event)
    requires e.CancelledEvent? && e.attempt in db.attempts && e.job in db.jobs
    requires db.attempts[e.attempt].job == e.job
    requires Inv(db)
    ensures Inv(ApplyCancelled(db, e).db)
  {
    hide Core, Rest, Newest;
    if ApplyCancelled(db, e).status == Applied {
      CoreUnsettled(db, e.attempt);
      CloseKeepsInv(db, e.job, e.attempt, Cancelled, db.attempts[e.attempt].(state := AttemptCancelled), ResultCancelled);
    }
  }

  lemma ArtifactKeepsInv(db: Db, e: Event)
    requires e.ArtifactCreated? && e.attempt in db.attempts && e.job in db.jobs
    requires db.attempts[e.attempt].job == e.job && ApplyArtifact(db, e).Effect?
    requires Inv(db)
    ensures Inv(ApplyArtifact(db, e).db)
  {
    hide Core, Rest, IsListed, ArtifactIdTaken, Upserted;
    var r := (e.job, e.attempt, e.key);
    if ApplyArtifact(db, e).status == Applied {
      var incoming := Artifact(e.id, e.lease, IsListed(db.projections, e.job, e.attempt, e.key));
      UpsertKeepsRest(db, r, incoming);
      CoreIgnores(db, db.(artifacts := db.artifacts[r := Upserted(db.artifacts, r, incoming)]));
    }
  }

  lemma UpsertKeepsRest(db: Db, r: (Uuid, Uuid, string), incoming: Artifact)
    requires r.1 in db.attempts && db.attempts[r.1].job == r.0
    requires db.attempts[r.1].lease == Some(incoming.lease)
    requires incoming.canonical <==> IsListed(db.projections, r.0, r.1, r.2)
    requires Rest(db)
    ensures Rest(db.(artifacts := db.artifacts[r := Upserted(db.artifacts, r, incoming)]))
  {
    hide Rest, IsListed;
    if r in db.artifacts {
      KnownArtifact(db, r);
    }
    ArtifactKeepsRest(db, r, Upserted(db.artifacts, r, incoming));
  }

  lemma KnownArtifact(db: Db, r: (Uuid, Uuid, string))
    requires r in db.artifacts && r.1 in db.attempts
    requires Rest(db)
    ensures db.attempts[r.1].lease == Some(db.artifacts[r].lease)
    ensures db.artifacts[r].canonical <==> IsListed(db.projections, r.0, r.1, r.2)
  {
    hide Projected, Lettered, Sourced, Keyed, Tracked, IsListed;
  }

  lemma ArtifactKeepsRest(db: Db, r: (Uuid, Uuid, string), artifact: Artifact)
    requires r.1 in db.attempts && db.attempts[r.1].job == r.0
    requires db.attempts[r.1].lease == Some(artifact.lease)
    requires artifact.canonical <==> IsListed(db.projections, r.0, r.1, r.2)
    requires Rest(db)
    ensures Rest(db.(artifacts := db.artifacts[r := artifact]))
  {
    hide Projected, Lettered, Sourced, Keyed, Tracked, IsListed;
  }

  lemma ProcessKeepsInv(db: Db, message: Uuid, e: Event, now: Time, ids: NewIds)
    requires Process(db, message, e, now, ids).Commit?
    requires Inv(db)
    ensures Inv(Process(db, message, e, now, ids).db)
  {
    hide Core, Rest, ApplyStarted, ApplyProgressed, ApplySucceeded, ApplyFailed, ApplyCancelled, ApplyArtifact;
    var after := Process(db, message, e, now, ids).db;
    if message !in db.inbox {
      if e.attempt in db.attempts && db.attempts[e.attempt].job == e.job && e.job in db.jobs {
        match e
        case Started(_, _, _, _, _) => StartedKeepsInv(db, e);
        case Progressed(_, _, _, _, _, _) => ProgressedKeepsInv(db, e);
        case SucceededEvent(_, _, _, _, _) => SucceededKeepsInv(db, e);
        case FailedEvent(_, _, _, _, _) => FailedKeepsInv(db, e, now, ids);
        case CancelledEvent(_, _, _, _) => CancelledKeepsInv(db, e);
        case ArtifactCreated(_, _, _, _, _) => ArtifactKeepsInv(db, e);
      }
      var next := Apply(db, e, now, ids).db;
      CoreIgnores(next, after);
      RestIgnores(next, after);
    }
  }

  // ---------------------------------------------------------------- everything

  lemma CatalogKeepsInv(db: Db, change: CatalogOp)
    requires Datasets.Transact(db.catalog, change).Done?
    requires Inv(db)
    ensures Inv(db.(catalog := Datasets.Transact(db.catalog, change).catalog))
  {
    hide Core, Projected, Promoted, Lettered, Keyed, Tracked;
    var after := db.(catalog := Datasets.Transact(db.catalog, change).catalog);
    TransactKeeps(db.catalog, change);
    CoreIgnores(db, after);
    hide Datasets.Transact;
    forall i | 0 <= i < |db.commands| ensures CommandOk(db.commands[i], db.jobs, db.attempts, after.catalog) {
      assert CommandOk(db.commands[i], db.jobs, db.attempts, db.catalog);
    }
  }

  /** A replay lacks fields its own message type requires, so its transaction is always rolled back. */
  lemma ReplayNeverCommits(db: Db, record: Uuid, actor: Uuid, crossOwner: bool, next: Uuid)
    ensures Replay(db, record, actor, crossOwner, next).Rollback?
  {
    hide ReplayBody;
    assert "attemptId" in REQUESTED_FIELDS && "attemptId" !in REPLAY_FIELDS;
  }

  /** If its message were accepted, a replay would keep the invariant as well. */
  lemma ReplayBodyKeepsInv(db: Db, record: Uuid, actor: Uuid, crossOwner: bool, next: Uuid)
    requires ReplayBody(db, record, actor, crossOwner, next).Commit?
    requires Inv(db)
    ensures Inv(ReplayBody(db, record, actor, crossOwner, next).db)
  {
    hide Core, Rest, Newest, Requeue;
    var j := db.deadLetters[record].job;
    var a := CoreNewest(db, j);
    ResultOf(db, a);
    var queued := Requeue(db, j, a, db.attempts[a], next, None);
    RequeueKeepsInv(db, j, a, db.attempts[a], next, None, db.projections);
    RequeueFrame(db, j, a, db.attempts[a], next, None);
    MarkKeepsInv(queued, record);
  }

  lemma RequeueFrame(db: Db, j: Uuid, a: Uuid, attempt: Attempt, next: Uuid, at: Option<Time>)
    requires j in db.jobs
    ensures Requeue(db, j, a, attempt, next, at).deadLetters == db.deadLetters
    ensures Requeue(db, j, a, attempt, next, at).projections == db.projections
  {
    hide Transfer;
  }

  lemma MarkKeepsInv(db: Db, record: Uuid)
    requires record in db.deadLetters
    requires Inv(db)
    ensures Inv(db.(deadLetters := db.deadLetters[record := db.deadLetters[record].(replayed := true)]))
  {
    hide Core, Projected, Promoted, Lettered, Sourced, Keyed, Tracked;
    var after := db.(deadLetters := db.deadLetters[record := db.deadLetters[record].(replayed := true)]);
    CoreIgnores(db, after);
    LetteredAfterMark(db.jobs, db.attempts, db.deadLetters, record);
  }

  lemma LetteredAfterMark(jobs: map<Uuid, Job>, attempts: map<Uuid, Attempt>, letters: map<Uuid, DeadLetter>, record: Uuid)
    requires Lettered(jobs, attempts, letters) && record in letters
    ensures Lettered(jobs, attempts, letters[record := letters[record].(replayed := true)])
  {
    hide IsNewest;
    var after := letters[record := letters[record].(replayed := true)];
    forall j, a | HasLetter(letters, j, a) ensures HasLetter(after, j, a) {
      var d :| d in letters && letters[d].job == j && letters[d].attempt == a;
      assert after[d].job == j && after[d].attempt == a;
    }
  }

  /** One step of any kind keeps the invariant. */
  lemma StepKeepsInv(db: Db, c: Config, op: Op)
    requires Inv(db)
    ensures Inv(Step(db, c, op))
  {
    hide Core, Rest, Create, RequestCancel, RequestRetry, Acquire, Renew, Process, ReplayBody, Datasets.Transact, ExpireAll;
    if op.OpReplay? {
      ReplayNeverCommits(db, op.record, op.actor, op.crossOwner, op.next);
    } else if Perform(db, c, op).Commit? {
      match op
      case OpCreate(command, job, attempt) => CreateKeepsInv(db, command, job, attempt);
      case OpCancel(j, actor, crossOwner, reasonLength) => CancelKeepsInv(db, j, actor, crossOwner, reasonLength);
      case OpRetry(j, actor, crossOwner, next) => RetryKeepsInv(db, j, actor, crossOwner, next);
      case OpAcquire(j, requested, now, locked, lease) => AcquireKeepsInv(db, c, j, requested, now, locked, lease);
      case OpRenew(lease, worker, requested, now) => RenewKeepsInv(db, c, lease, worker, requested, now);
      case OpSweep(limit, batch, now, ids) =>
        if |ids| == |batch| && IsBatch(db, batch, now, SweepLimit(c, limit)) {
          ExpireAllKeepsInv(db, c, batch, now, ids);
        }
      case OpDeliver(message, event, now, id) => ProcessKeepsInv(db, message, event, now, id);
      case OpCatalog(change) =>
        if Datasets.Transact(db.catalog, change).Done? {
          CatalogKeepsInv(db, change);
        }
      case OpWorker(signal, now) =>
        CoreIgnores(db, Step(db, c, op));
        RestIgnores(db, Step(db, c, op));
    }
  }

  /** The invariant holds after every run from empty tables. */
  lemma {:induction false} RunKeepsInv(db: Db, c: Config, ops: seq<Op>)
    requires Inv(db)
    ensures Inv(Run(db, c, ops))
    decreases |ops|
  {
    hide Inv, Step;
    if ops != [] {
      StepKeepsInv(db, c, ops[0]);
      RunKeepsInv(Step(db, c, ops[0]), c, ops[1..]);
    }
  }

  lemma EmptyIsInv()
    ensures Inv(EMPTY)
  {
    hide Core, Rest;
    EmptyIsCore(EMPTY);
    EmptyIsRest(EMPTY);
  }

  lemma EmptyIsCore(db: Db)
    requires db.jobs == map[] && db.attempts == map[] && db.quotas == map[] && db.history == map[]
    ensures Core(db)
  {
    assert Topped(db.jobs, db.attempts, map[]);
    forall o ensures |QueuedJobs(db.jobs, o)| == 0 && |ActiveJobs(db.jobs, o)| == 0 {
    }
  }

  lemma EmptyIsRest(db: Db)
    requires db.jobs == map[] && db.attempts == map[] && db.projections == map[] && db.artifacts == map[]
    requires db.deadLetters == map[] && db.commands == [] && db.catalog == Catalog(map[], map[])
    requires db.idempotency == map[] && db.progress == map[]
    ensures Rest(db)
  {
  }
}
