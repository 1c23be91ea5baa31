/** What callers and workers can rely on: leases, sources, retries, idempotency and errors. */
module JobGuarantees {
  import opened Tables
  import opened JobLifecycle
  import opened JobTables
  import opened Datasets
  import opened JobSteps
  import opened JobInvariants
  import opened JobPreservation
  import opened JobTime
  import opened JobTheorems
  import RetryPolicy
  import WorkerRegistry

  // ---------------------------------------------------------------- sources

  /**
   * Over every run, all lease commands of a job name the same version, operations and source: its key,
   * content type, format and size never change from one attempt to the next.
   */
  lemma CommandsAgree(c: Config, ops: seq<Op>, i: nat, k: nat)
    requires i < |Reached(c, ops).commands| && k < |Reached(c, ops).commands|
    requires Reached(c, ops).commands[i].job == Reached(c, ops).commands[k].job
    ensures
      var x, y := Reached(c, ops).commands[i], Reached(c, ops).commands[k];
      && x.version == y.version && x.operations == y.operations && x.source == y.source
      && (x.attempt == y.attempt <==> x.number == y.number)
      && (x.attempt == y.attempt <==> x.lease == y.lease)
  {
    hide Run, Inv;
    ReachedInv(c, ops);
    CommandFacts(Reached(c, ops), i);
    CommandFacts(Reached(c, ops), k);
    var x, y := Reached(c, ops).commands[i], Reached(c, ops).commands[k];
    NumbersDiffer(Reached(c, ops), x.attempt, y.attempt);
    if x.lease == y.lease {
      LeaseIsUnique(Reached(c, ops), x.attempt, y.attempt);
    }
  }

  lemma CommandFacts(db: Db, i: nat)
    requires i < |db.commands|
    requires Inv(db)
    ensures CommandOk(db.commands[i], db.jobs, db.attempts, db.catalog)
  {
    hide Core, Projected, Promoted, Lettered, Keyed, Tracked, CommandOk, CatalogInv;
  }

  lemma NumbersDiffer(db: Db, a: Uuid, b: Uuid)
    requires a in db.attempts && b in db.attempts && db.attempts[a].job == db.attempts[b].job
    requires Inv(db)
    ensures a == b <==> db.attempts[a].number == db.attempts[b].number
  {
    hide Rest, Gapless, Topped, Leases, Counted, Recorded, InBudget, Settings;
  }

  /** A version that is available stays so, with the same size and checksum, whatever runs. */
  lemma AvailableIsFrozen(c: Config, before: seq<Op>, ops: seq<Op>, v: Uuid)
    requires v in Reached(c, before).catalog.versions && Reached(c, before).catalog.versions[v].state == VersionAvailable
    ensures v in Run(Reached(c, before), c, ops).catalog.versions
    ensures Run(Reached(c, before), c, ops).catalog.versions[v] == Reached(c, before).catalog.versions[v]
  {
    var db := Reached(c, before);
    ReachedInv(c, before);
    hide Inv, Run, AttemptsLater, JobsLater, HistoryLater, ArtifactsLater, ResultsLater, LettersLater, InboxLater, KeysLater,
         ProgressLater;
    RunLater(db, c, ops);
  }

  // ---------------------------------------------------------------- errors that cannot happen

  /** With a valid configuration, in every reachable state no operation lacks a retry delay or a source size. */
  lemma NoUnforeseenErrors(c: Config, ops: seq<Op>, op: Op)
    requires ValidConfig(c)
    ensures Perform(Reached(c, ops), c, op) != Rollback(RetryDelayUnavailable)
    ensures Perform(Reached(c, ops), c, op) != Rollback(SourceSizeMissing)
  {
    hide Inv, Run, Perform, ValidConfig;
    ReachedInv(c, ops);
    OnlyForeseenErrors(Reached(c, ops), c, op);
  }

  lemma OnlyForeseenErrors(db: Db, c: Config, op: Op)
    requires ValidConfig(c)
    requires Inv(db)
    ensures Perform(db, c, op) != Rollback(RetryDelayUnavailable)
    ensures Perform(db, c, op) != Rollback(SourceSizeMissing)
  {
    hide Inv, Newest, WorkerRegistry.Choose, Move, Requeue, LeaseIds, ReplayBody, Datasets.Transact, WorkerRegistry.Receive, Apply,
         ExpireAll, Create, RetryPolicy.Delay, RequestCancel, RequestRetry, Acquire, Renew;
    match op
    case OpCreate(command, job, attempt) => CreateErrors(db, command, job, attempt);
    case OpCancel(j, actor, crossOwner, reasonLength) => CommandErrors(db, j, actor, crossOwner, reasonLength, NIL);
    case OpRetry(j, actor, crossOwner, next) => CommandErrors(db, j, actor, crossOwner, 0, next);
    case OpAcquire(j, requested, now, locked, lease) => AcquireErrors(db, c, j, requested, now, locked, lease);
    case OpRenew(lease, worker, requested, now) => RenewErrors(db, c, lease, worker, requested, now);
    case OpSweep(limit, batch, now, ids) =>
      if |ids| == |batch| && IsBatch(db, batch, now, SweepLimit(c, limit)) {
        ExpireAllErrors(db, c, batch, now, ids);
      }
    case OpDeliver(message, event, now, id) => ApplyErrors(db, event, now, id);
    case OpReplay(record, actor, crossOwner, next) => ReplayErrors(db, record, actor, crossOwner, next);
    case _ =>
  }

  lemma CreateErrors(db: Db, c: CreateCommand, job: Uuid, attempt: Uuid)
    ensures Create(db, c, job, attempt) != Rollback(RetryDelayUnavailable)
    ensures Create(db, c, job, attempt) != Rollback(SourceSizeMissing)
  {
    hide Transfer, ValidCreate;
  }

  lemma CommandErrors(db: Db, j: Uuid, actor: Uuid, crossOwner: bool, reasonLength: nat, next: Uuid)
    ensures RequestCancel(db, j, actor, crossOwner, reasonLength) !in {Rollback(RetryDelayUnavailable), Rollback(SourceSizeMissing)}
    ensures RequestRetry(db, j, actor, crossOwner, next) !in {Rollback(RetryDelayUnavailable), Rollback(SourceSizeMissing)}
  {
    hide Move, Requeue;
  }

  lemma RenewErrors(db: Db, c: Config, lease: Uuid, worker: Uuid, requested: Time, now: Time)
    ensures Renew(db, c, lease, worker, requested, now) !in {Rollback(RetryDelayUnavailable), Rollback(SourceSizeMissing)}
  {
  }

  lemma ReplayErrors(db: Db, record: Uuid, actor: Uuid, crossOwner: bool, next: Uuid)
    ensures Replay(db, record, actor, crossOwner, next) !in {Rollback(RetryDelayUnavailable), Rollback(SourceSizeMissing)}
  {
    hide Requeue;
  }

  /** Every job's version is available, so an acquisition always knows the size of its source. */
  lemma AcquireErrors(db: Db, c: Config, j: Uuid, requested: Time, now: Time, locked: set<Uuid>, lease: Uuid)
    requires Inv(db)
    ensures Acquire(db, c, j, requested, now, locked, lease) !in {Rollback(RetryDelayUnavailable), Rollback(SourceSizeMissing)}
  {
    hide Core, Rest, Newest, WorkerRegistry.Choose, Move, LeaseIds;
    if j in db.jobs {
      var a := CoreNewest(db, j);
      SizeKnown(db, j);
    }
  }

  lemma SizeKnown(db: Db, j: Uuid)
    requires j in db.jobs
    requires Inv(db)
    ensures db.jobs[j].version in db.catalog.versions && db.catalog.versions[db.jobs[j].version].size.Some?
  {
    hide Core, Projected, Promoted, Lettered, Keyed, Tracked, CommandOk;
  }

  /** A retry within a job's limit always gets a delay. */
  lemma ExpireErrors(db: Db, c: Config, a: Uuid, now: Time, ids: NewIds)
    requires ValidConfig(c) && IsExpired(db, a, now)
    requires Inv(db)
    ensures Expire(db, c, a, now, ids) !in {Rollback(RetryDelayUnavailable), Rollback(SourceSizeMissing)}
  {
    hide Core, Rest, Newest, Move, Requeue, RetryPolicy.Delay, RetryPolicy.Widened;
    CoreUnsettled(db, a);
    var n, limit := db.attempts[a].number + 1, db.jobs[db.attempts[a].job].maxAttempts;
    if 2 <= n <= limit {
      RetryPolicy.DelayNeverErrs(c.policy, limit, n, Some(ids.draw));
    }
  }

  lemma {:induction false} ExpireAllErrors(db: Db, c: Config, batch: seq<Uuid>, now: Time, ids: seq<NewIds>)
    requires |ids| == |batch| && ValidConfig(c)
    requires Inv(db)
    ensures ExpireAll(db, c, batch, now, ids) !in {Rollback(RetryDelayUnavailable), Rollback(SourceSizeMissing)}
    decreases |batch|
  {
    hide Inv, Expire;
    if batch != [] && IsExpired(db, batch[0], now) {
      ExpireErrors(db, c, batch[0], now, ids[0]);
      if Expire(db, c, batch[0], now, ids[0]).Commit? {
        ExpireKeepsInv(db, c, batch[0], now, ids[0]);
        ExpireAllErrors(Expire(db, c, batch[0], now, ids[0]).db, c, batch[1..], now, ids[1..]);
      }
    }
  }

  lemma ApplyErrors(db: Db, e: Event, now: Time, ids: NewIds)
    requires Inv(db)
    ensures Apply(db, e, now, ids) !in {Abort(RetryDelayUnavailable), Abort(SourceSizeMissing)}
  {
    hide Core, Rest, Newest, Upserted, Promote, ArtifactIdTaken, IsListed, Requeue, Move, RetryPolicy.Delay, RetryPolicy.Widened;
    if e.FailedEvent? && e.attempt in db.attempts && db.attempts[e.attempt].state == AttemptRunning {
      CoreUnsettled(db, e.attempt);
      var n, limit := db.attempts[e.attempt].number + 1, db.jobs[db.attempts[e.attempt].job].maxAttempts;
      if n <= limit {
        RetryPolicy.DelayNeverErrs(RetryPolicy.DEFAULT_POLICY, limit, n, None);
      }
    }
  }

  /** A permitted request to cancel a job that is queued, leased or running always succeeds. */
  lemma CancelIsGranted(c: Config, ops: seq<Op>, j: Uuid, actor: Uuid, crossOwner: bool, reasonLength: nat)
    requires j != NIL && actor != NIL && reasonLength <= 500
    requires j in Reached(c, ops).jobs && (crossOwner || Reached(c, ops).jobs[j].owner == actor)
    ensures RequestCancel(Reached(c, ops), j, actor, crossOwner, reasonLength).Commit?
       <==> Reached(c, ops).jobs[j].state in {Queued, Leased, Running, CancelRequested, Cancelled}
  {
    hide Inv, Run, RequestCancel;
    ReachedInv(c, ops);
    CancelCommits(Reached(c, ops), j, actor, crossOwner, reasonLength);
  }

  lemma CancelCommits(db: Db, j: Uuid, actor: Uuid, crossOwner: bool, reasonLength: nat)
    requires j != NIL && actor != NIL && reasonLength <= 500
    requires j in db.jobs && (crossOwner || db.jobs[j].owner == actor)
    requires Inv(db)
    ensures RequestCancel(db, j, actor, crossOwner, reasonLength).Commit?
       <==> db.jobs[j].state in {Queued, Leased, Running, CancelRequested, Cancelled}
  {
    hide Core, Rest, Newest, Move;
    var a := CoreNewest(db, j);
  }

  // ---------------------------------------------------------------- acquisition

  /**
   * In every reachable state an acquisition gives the attempt to a worker that is eligible for all the
   * job's operations, is not locked by another transaction, and afterwards holds no more than it can run.
   */
  lemma AcquireRespectsCapacity(c: Config, ops: seq<Op>, j: Uuid, requested: Time, now: Time, locked: set<Uuid>, lease: Uuid)
    requires Acquire(Reached(c, ops), c, j, requested, now, locked, lease).Commit?
    ensures j in Reached(c, ops).jobs
    ensures
      var db := Reached(c, ops);
      var after := Acquire(db, c, j, requested, now, locked, lease).db;
      exists a, w ::
        && a in after.attempts && after.attempts[a].job == j && after.attempts[a].worker == Some(w)
        && after.attempts[a].lease == Some(lease) && after.attempts[a].state == AttemptLeased
        && w in db.workers && w !in locked
        && WorkerRegistry.IsEligible(db.workers[w], OperationSet(db.jobs[j].operations), now - c.heartbeatTtl)
        && |HeldBy(after.attempts, w)| <= db.workers[w].maxConcurrency
  {
    hide Inv, Run, HeldBy, WorkerRegistry.IsEligible;
    ReachedInv(c, ops);
    AcquireNeedsJob(Reached(c, ops), c, j, requested, now, locked, lease);
    hide Acquire;
    AcquireFits(Reached(c, ops), c, j, requested, now, locked, lease);
  }

  lemma AcquireNeedsJob(db: Db, c: Config, j: Uuid, requested: Time, now: Time, locked: set<Uuid>, lease: Uuid)
    requires Acquire(db, c, j, requested, now, locked, lease).Commit?
    ensures j in db.jobs
  {
    hide Move, Newest, WorkerRegistry.Choose;
  }

  lemma AcquireFits(db: Db, c: Config, j: Uuid, requested: Time, now: Time, locked: set<Uuid>, lease: Uuid)
    requires Acquire(db, c, j, requested, now, locked, lease).Commit?
    requires Inv(db)
    ensures
      var after := Acquire(db, c, j, requested, now, locked, lease).db;
      exists a, w ::
        && a in after.attempts && after.attempts[a].job == j && after.attempts[a].worker == Some(w)
        && after.attempts[a].lease == Some(lease) && after.attempts[a].state == AttemptLeased
        && w in db.workers && w !in locked
        && WorkerRegistry.IsEligible(db.workers[w], OperationSet(db.jobs[j].operations), now - c.heartbeatTtl)
        && |HeldBy(after.attempts, w)| <= db.workers[w].maxConcurrency
  {
    hide Core, Rest, Newest, WorkerRegistry.Choose, LeaseIds, Transfer, HeldBy, WorkerRegistry.IsEligible;
    var after := Acquire(db, c, j, requested, now, locked, lease).db;
    var a := CoreNewest(db, j);
    var w := after.attempts[a].worker.value;
    WorkerRegistry.ChooseIsComplete(db.workers, db.attempts, OperationSet(db.jobs[j].operations), now - c.heartbeatTtl, locked);
    HoldsOneMore(db.attempts, a, after.attempts[a], w);
  }

  lemma HoldsOneMore(attempts: map<Uuid, Attempt>, a: Uuid, attempt: Attempt, w: Uuid)
    ensures |HeldBy(attempts[a := attempt], w)| <= |HeldBy(attempts, w)| + 1
  {
    var after := HeldBy(attempts[a := attempt], w);
    assert after <= HeldBy(attempts, w) + {a};
    SubsetSize(after, HeldBy(attempts, w) + {a});
  }

  lemma {:induction false} SubsetSize(s: set<Uuid>, t: set<Uuid>)
    requires s <= t
    ensures |s| <= |t|
  {
    if x :| x in s {
      SubsetSize(s - {x}, t - {x});
    } else {
      assert s == {};
    }
  }

  /** A lease that was just acquired expires exactly when the requested time, or the configured one, is over. */
  lemma AcquiredLeaseLasts(c: Config, ops: seq<Op>, j: Uuid, requested: Time, now: Time, locked: set<Uuid>, lease: Uuid, a: Uuid, t: Time)
    requires Acquire(Reached(c, ops), c, j, requested, now, locked, lease).Commit?
    requires
      var after := Acquire(Reached(c, ops), c, j, requested, now, locked, lease).db;
      a in after.attempts && after.attempts[a].lease == Some(lease)
    ensures
      var after := Acquire(Reached(c, ops), c, j, requested, now, locked, lease).db;
      IsExpired(after, a, t) <==> t >= now + (if requested == 0 then c.leaseDuration else requested)
  {
    hide Core, Rest, Run, Newest, WorkerRegistry.Choose, Transfer;
    var db := Reached(c, ops);
    ReachedInv(c, ops);
    AcquireNeedsJob(db, c, j, requested, now, locked, lease);
    var top := CoreNewest(db, j);
  }

  /** So does a lease that was just renewed, whatever its previous deadline. */
  lemma RenewedLeaseLasts(c: Config, ops: seq<Op>, lease: Uuid, worker: Uuid, requested: Time, now: Time, a: Uuid, t: Time)
    requires Renew(Reached(c, ops), c, lease, worker, requested, now).Commit?
    requires HoldsLease(Reached(c, ops).attempts, a, lease, worker)
    ensures IsExpired(Renew(Reached(c, ops), c, lease, worker, requested, now).db, a, t)
       <==> t >= now + (if requested == 0 then c.renewalWindow else requested)
  {
    hide Inv, Run;
    var db := Reached(c, ops);
    ReachedInv(c, ops);
    forall b | HoldsLease(db.attempts, b, lease, worker) ensures b == a {
      LeaseIsUnique(db, a, b);
    }
    HeldIsActive(db, a);
  }

  lemma HeldIsActive(db: Db, a: Uuid)
    requires a in db.attempts
    requires Inv(db)
    ensures IsHeld(db.attempts[a].state) ==> db.attempts[a].job in db.jobs && IsActive(db.jobs[db.attempts[a].job].state)
  {
    hide Core, Rest, Newest;
    if IsHeld(db.attempts[a].state) {
      CoreUnsettled(db, a);
    }
  }

  /** After a lease expired and its job was retried, no acquisition succeeds before the policy's delay is over. */
  lemma SweptRetryBacksOff(c: Config, ops: seq<Op>, a: Uuid, now: Time, ids: NewIds,
                           requested: Time, t: Time, locked: set<Uuid>, lease: Uuid)
    requires
      var db := Reached(c, ops);
      && IsExpired(db, a, now) && Expire(db, c, a, now, ids).Commit?
      && var attempt, job := db.attempts[a], db.jobs[db.attempts[a].job];
         && job.state != CancelRequested && 1 <= attempt.number && attempt.number + 1 <= job.maxAttempts
         && |c.policy.delays| >= 1
         && t < now + (if attempt.number < |c.policy.delays| then c.policy.delays[attempt.number]
                       else c.policy.delays[|c.policy.delays| - 1])
    ensures
      var db := Reached(c, ops);
      Acquire(Expire(db, c, a, now, ids).db, c, db.attempts[a].job, requested, t, locked, lease).Rollback?
  {
    hide Run, Transfer, Newest, WorkerRegistry.Choose, RetryPolicy.Delay;
    var db := Reached(c, ops);
    var attempt, job := db.attempts[a], db.jobs[db.attempts[a].job];
    var policy := RetryPolicy.Widened(c.policy, job.maxAttempts);
    RetryPolicy.DelayBounds(policy, attempt.number + 1, Some(ids.draw));
    WaitingIsNotLeased(Expire(db, c, a, now, ids).db, c, attempt.job, requested, t, locked, lease);
  }

  /** Nor does one after a worker reported a retryable failure. */
  lemma FailedRetryBacksOff(c: Config, ops: seq<Op>, e: Event, now: Time, ids: NewIds,
                            requested: Time, t: Time, locked: set<Uuid>, lease: Uuid)
    requires e.FailedEvent?
    requires
      var db := Reached(c, ops);
      && e.attempt in db.attempts && e.job in db.jobs && ApplyFailed(db, e, now, ids).Effect?
      && ApplyFailed(db, e, now, ids).status == Applied
      && e.retryable && 1 <= db.attempts[e.attempt].number < db.jobs[e.job].maxAttempts
      && var delays, n := RetryPolicy.DEFAULT_POLICY.delays, db.attempts[e.attempt].number;
         t < now + (if n < |delays| then delays[n] else delays[|delays| - 1])
    ensures Acquire(ApplyFailed(Reached(c, ops), e, now, ids).db, c, e.job, requested, t, locked, lease).Rollback?
  {
    hide Run, Transfer, Newest, WorkerRegistry.Choose, RetryPolicy.Delay, MatchesLease;
    var db := Reached(c, ops);
    var policy := RetryPolicy.Widened(RetryPolicy.DEFAULT_POLICY, db.jobs[e.job].maxAttempts);
    RetryPolicy.DelayBounds(policy, db.attempts[e.attempt].number + 1, None);
    WaitingIsNotLeased(ApplyFailed(db, e, now, ids).db, c, e.job, requested, t, locked, lease);
  }

  /** The default back-off in nanoseconds: attempts 2, 3 and 4 wait 10, 30 and 120 seconds, and later ones 600. */
  function DefaultWait(number: int): Time {
    match number
    case 2 => 10_000_000_000
    case 3 => 30_000_000_000
    case 4 => 120_000_000_000
    case _ => 600_000_000_000
  }

  /** Under the default policy no acquisition succeeds before these times are over. */
  lemma DefaultSweepBackOff(c: Config, ops: seq<Op>, a: Uuid, now: Time, ids: NewIds,
                            requested: Time, t: Time, locked: set<Uuid>, lease: Uuid)
    requires c.policy == RetryPolicy.DEFAULT_POLICY
    requires
      var db := Reached(c, ops);
      && IsExpired(db, a, now) && Expire(db, c, a, now, ids).Commit?
      && var attempt, job := db.attempts[a], db.jobs[db.attempts[a].job];
         && job.state != CancelRequested && 1 <= attempt.number && attempt.number + 1 <= job.maxAttempts
         && t < now + DefaultWait(attempt.number + 1)
    ensures
      var db := Reached(c, ops);
      Acquire(Expire(db, c, a, now, ids).db, c, db.attempts[a].job, requested, t, locked, lease).Rollback?
  {
    hide Run, Acquire, Expire;
    SweptRetryBacksOff(c, ops, a, now, ids, requested, t, locked, lease);
  }

  lemma DefaultFailureBackOff(c: Config, ops: seq<Op>, e: Event, now: Time, ids: NewIds,
                              requested: Time, t: Time, locked: set<Uuid>, lease: Uuid)
    requires e.FailedEvent?
    requires
      var db := Reached(c, ops);
      && e.attempt in db.attempts && e.job in db.jobs && ApplyFailed(db, e, now, ids).Effect?
      && ApplyFailed(db, e, now, ids).status == Applied
      && e.retryable && 1 <= db.attempts[e.attempt].number < db.jobs[e.job].maxAttempts
      && t < now + DefaultWait(db.attempts[e.attempt].number + 1)
    ensures Acquire(ApplyFailed(Reached(c, ops), e, now, ids).db, c, e.job, requested, t, locked, lease).Rollback?
  {
    hide Run, Acquire, ApplyFailed;
    FailedRetryBacksOff(c, ops, e, now, ids, requested, t, locked, lease);
  }

  lemma WaitingIsNotLeased(db: Db, c: Config, j: Uuid, requested: Time, t: Time, locked: set<Uuid>, lease: Uuid)
    requires j in db.jobs && db.jobs[j].nextAttemptAt.Some? && db.jobs[j].nextAttemptAt.value > t
    ensures Acquire(db, c, j, requested, t, locked, lease).Rollback?
  {
    hide Newest, Move, WorkerRegistry.Choose;
  }

  /** No acquisition of job `j` in the run happens at or after `t`. */
  ghost predicate AcquiresBefore(ops: seq<Op>, j: Uuid, t: Time) {
    forall i | 0 <= i < |ops| && ops[i].OpAcquire? && ops[i].target == j :: ops[i].now < t
  }

  /** The job still waits as it did, unless it was cancelled meanwhile. */
  ghost predicate StillWaits(before: Db, after: Db, j: Uuid)
    requires j in before.jobs
  {
    && j in after.jobs
    && (after.jobs[j] == before.jobs[j] || after.jobs[j].state == Cancelled)
    && before.commands <= after.commands
    && forall i | |before.commands| <= i < |after.commands| :: after.commands[i].job != j
  }

  /**
   * A retry is never leased early: however the run goes on, as long as no acquisition of the job comes
   * at or after its next-attempt time, the job waits or is cancelled, and no lease command is sent for it.
   */
  lemma NoEarlyLease(c: Config, before: seq<Op>, ops: seq<Op>, j: Uuid, t: Time)
    requires j in Reached(c, before).jobs && Reached(c, before).jobs[j].state == Queued
    requires Reached(c, before).jobs[j].nextAttemptAt == Some(t) && AcquiresBefore(ops, j, t)
    ensures StillWaits(Reached(c, before), Run(Reached(c, before), c, ops), j)
  {
    hide Inv, Run, StillWaits;
    ReachedInv(c, before);
    WaitsThroughout(Reached(c, before), c, ops, j, t);
  }

  lemma {:induction false} WaitsThroughout(db: Db, c: Config, ops: seq<Op>, j: Uuid, t: Time)
    requires j in db.jobs && db.jobs[j].state in {Queued, Cancelled}
    requires db.jobs[j].state == Queued ==> db.jobs[j].nextAttemptAt == Some(t)
    requires AcquiresBefore(ops, j, t)
    requires Inv(db)
    ensures StillWaits(db, Run(db, c, ops), j)
    decreases |ops|
  {
    hide Inv, Step, StillWaits;
    if ops == [] {
      assert StillWaits(db, db, j) by { WaitsRefl(db, j); }
    } else {
      var next := Step(db, c, ops[0]);
      StepWaits(db, c, ops[0], j, t);
      StepKeepsInv(db, c, ops[0]);
      WaitsFacts(db, next, j);
      assert AcquiresBefore(ops[1..], j, t);
      WaitsThroughout(next, c, ops[1..], j, t);
      WaitsTrans(db, next, Run(db, c, ops), j);
    }
  }

  lemma WaitsRefl(db: Db, j: Uuid)
    requires j in db.jobs
    ensures StillWaits(db, db, j)
  {
  }

  lemma WaitsFacts(db: Db, next: Db, j: Uuid)
    requires j in db.jobs && StillWaits(db, next, j)
    ensures j in next.jobs && (next.jobs[j] == db.jobs[j] || next.jobs[j].state == Cancelled)
  {
  }

  lemma WaitsTrans(a: Db, b: Db, c: Db, j: Uuid)
    requires j in a.jobs && StillWaits(a, b, j) && StillWaits(b, c, j)
    ensures StillWaits(a, c, j)
  {
  }

  lemma StepWaits(db: Db, c: Config, op: Op, j: Uuid, t: Time)
    requires j in db.jobs && db.jobs[j].state in {Queued, Cancelled}
    requires db.jobs[j].state == Queued ==> db.jobs[j].nextAttemptAt == Some(t)
    requires op.OpAcquire? && op.target == j ==> op.now < t
    requires Inv(db)
    ensures StillWaits(db, Step(db, c, op), j)
  {
    hide Inv, StillWaits, Create, RequestCancel, RequestRetry, Acquire, Renew, Process, ReplayBody, Datasets.Transact, ExpireAll,
         WorkerRegistry.Receive;
    WaitsRefl(db, j);
    if op.OpReplay? {
      ReplayNeverCommits(db, op.record, op.actor, op.crossOwner, op.next);
    } else if Perform(db, c, op).Commit? {
      match op
      case OpCreate(command, job, attempt) => CreateWaits(db, command, job, attempt, j);
      case OpCancel(target, actor, crossOwner, reasonLength) => CancelWaits(db, target, actor, crossOwner, reasonLength, j);
      case OpRetry(target, actor, crossOwner, next) => RetryWaits(db, target, actor, crossOwner, next, j);
      case OpAcquire(target, requested, now, locked, lease) => AcquireWaits(db, c, target, requested, now, locked, lease, j, t);
      case OpRenew(lease, worker, requested, now) => RenewWaits(db, c, lease, worker, requested, now, j);
      case OpSweep(limit, batch, now, ids) =>
        if |ids| == |batch| && IsBatch(db, batch, now, SweepLimit(c, limit)) {
          ExpireAllWaits(db, c, batch, now, ids, j);
        }
      case OpDeliver(message, event, now, id) => ProcessWaits(db, message, event, now, id, j);
      case OpCatalog(_) => ElsewhereWaits(db, c, op, j);
      case OpWorker(_, _) => ElsewhereWaits(db, c, op, j);
    }
  }

  lemma ElsewhereWaits(db: Db, c: Config, op: Op, j: Uuid)
    requires j in db.jobs && (op.OpCatalog? || op.OpWorker?)
    ensures StillWaits(db, Step(db, c, op), j)
  {
    hide StillWaits, Datasets.Transact, WorkerRegistry.Receive;
    SameRowWaits(db, Step(db, c, op), j);
  }

  lemma SameRowWaits(db: Db, after: Db, j: Uuid)
    requires j in db.jobs && j in after.jobs && after.jobs[j] == db.jobs[j] && after.commands == db.commands
    ensures StillWaits(db, after, j)
  {
  }

  lemma CreateWaits(db: Db, c: CreateCommand, job: Uuid, attempt: Uuid, j: Uuid)
    requires Create(db, c, job, attempt).Commit? && j in db.jobs
    ensures StillWaits(db, Create(db, c, job, attempt).db, j)
  {
    hide ValidCreate, Transfer;
    SameRowWaits(db, Create(db, c, job, attempt).db, j);
  }

  lemma CancelWaits(db: Db, target: Uuid, actor: Uuid, crossOwner: bool, reasonLength: nat, j: Uuid)
    requires RequestCancel(db, target, actor, crossOwner, reasonLength).Commit?
    requires j in db.jobs && db.jobs[j].state in {Queued, Cancelled}
    requires Inv(db)
    ensures StillWaits(db, RequestCancel(db, target, actor, crossOwner, reasonLength).db, j)
  {
    hide Core, Rest, Newest, Move, LeaseOk, StillWaits;
    WaitsRefl(db, j);
    if db.jobs[target].state !in {CancelRequested, Cancelled} {
      var a := CoreNewest(db, target);
      var gone := db.attempts[a].(state := AttemptCancelled);
      if target == j {
        GoneWaits(db, j, a, gone);
      } else if db.jobs[target].state == Queued {
        MoveElsewhere(db, target, a, Cancelled, gone, None, j);
        SameRowWaits(db, RequestCancel(db, target, actor, crossOwner, reasonLength).db, j);
      } else {
        MoveElsewhere(db, target, a, CancelRequested, db.attempts[a], db.jobs[target].nextAttemptAt, j);
        SameRowWaits(db, RequestCancel(db, target, actor, crossOwner, reasonLength).db, j);
      }
    }
  }

  lemma GoneWaits(db: Db, j: Uuid, a: Uuid, gone: Attempt)
    requires j in db.jobs
    ensures StillWaits(db, Project(Move(db, j, a, Cancelled, gone, None), j, a, ResultCancelled, []), j)
  {
    hide Transfer;
  }

  lemma RetryWaits(db: Db, target: Uuid, actor: Uuid, crossOwner: bool, next: Uuid, j: Uuid)
    requires RequestRetry(db, target, actor, crossOwner, next).Commit?
    requires j in db.jobs && db.jobs[j].state in {Queued, Cancelled}
    requires Inv(db)
    ensures StillWaits(db, RequestRetry(db, target, actor, crossOwner, next).db, j)
  {
    hide Core, Rest, Newest, Transfer;
    var a := CoreNewest(db, target);
    SameRowWaits(db, RequestRetry(db, target, actor, crossOwner, next).db, j);
  }

  lemma AcquireWaits(db: Db, c: Config, target: Uuid, requested: Time, now: Time, locked: set<Uuid>, lease: Uuid, j: Uuid, t: Time)
    requires Acquire(db, c, target, requested, now, locked, lease).Commit?
    requires j in db.jobs && db.jobs[j].state in {Queued, Cancelled}
    requires db.jobs[j].state == Queued ==> db.jobs[j].nextAttemptAt == Some(t)
    requires target == j ==> now < t
    requires Inv(db)
    ensures StillWaits(db, Acquire(db, c, target, requested, now, locked, lease).db, j)
  {
    hide Core, Rest, Newest, Transfer, LeaseIds, WorkerRegistry.Choose;
    var a := CoreNewest(db, target);
  }

  lemma RenewWaits(db: Db, c: Config, lease: Uuid, worker: Uuid, requested: Time, now: Time, j: Uuid)
    requires Renew(db, c, lease, worker, requested, now).Commit? && j in db.jobs
    ensures StillWaits(db, Renew(db, c, lease, worker, requested, now).db, j)
  {
    SameRowWaits(db, Renew(db, c, lease, worker, requested, now).db, j);
  }

  lemma {:induction false} ExpireAllWaits(db: Db, c: Config, batch: seq<Uuid>, now: Time, ids: seq<NewIds>, j: Uuid)
    requires |ids| == |batch| && ExpireAll(db, c, batch, now, ids).Commit?
    requires j in db.jobs && db.jobs[j].state in {Queued, Cancelled}
    ensures StillWaits(db, ExpireAll(db, c, batch, now, ids).db, j)
    decreases |batch|
  {
    hide StillWaits, Expire;
    if batch == [] {
      WaitsRefl(db, j);
    } else {
      ExpireWaits(db, c, batch[0], now, ids[0], j);
      var next := Expire(db, c, batch[0], now, ids[0]).db;
      ExpireAllWaits(next, c, batch[1..], now, ids[1..], j);
      SameRowWaits(db, next, j);
      WaitsTrans(db, next, ExpireAll(db, c, batch, now, ids).db, j);
    }
  }

  lemma ExpireWaits(db: Db, c: Config, a: Uuid, now: Time, ids: NewIds, j: Uuid)
    requires IsExpired(db, a, now) && Expire(db, c, a, now, ids).Commit?
    requires j in db.jobs && db.jobs[j].state in {Queued, Cancelled}
    ensures SameRowAndCommands(db, Expire(db, c, a, now, ids).db, j)
  {
    hide Move, RetryPolicy.Delay;
    var attempt := db.attempts[a];
    var k := attempt.job;
    var over := attempt.(state := AttemptTimedOut, expiresAt := Some(now));
    if db.jobs[k].state == CancelRequested {
      MoveElsewhere(db, k, a, Cancelled, over.(state := AttemptCancelled), None, j);
    } else if 1 <= attempt.number && attempt.number + 1 <= db.jobs[k].maxAttempts {
      var delay := RetryPolicy.Delay(RetryPolicy.Widened(c.policy, db.jobs[k].maxAttempts), attempt.number + 1, Some(ids.draw));
      MoveElsewhere(db, k, a, Queued, over, Some(now + delay.value), j);
    } else {
      MoveElsewhere(db, k, a, DeadLettered, over, None, j);
    }
  }

  lemma ProcessWaits(db: Db, message: Uuid, e: Event, now: Time, ids: NewIds, j: Uuid)
    requires Process(db, message, e, now, ids).Commit?
    requires j in db.jobs && db.jobs[j].state in {Queued, Cancelled}
    ensures StillWaits(db, Process(db, message, e, now, ids).db, j)
  {
    hide StillWaits, Apply;
    if message in db.inbox {
      WaitsRefl(db, j);
    } else {
      ApplyWaits(db, e, now, ids, j);
      SameRowWaits(db, Process(db, message, e, now, ids).db, j);
    }
  }

  lemma ApplyWaits(db: Db, e: Event, now: Time, ids: NewIds, j: Uuid)
    requires Apply(db, e, now, ids).Effect? && j in db.jobs && db.jobs[j].state in {Queued, Cancelled}
    ensures SameRowAndCommands(db, Apply(db, e, now, ids).db, j)
  {
    hide Upserted, Promote, ArtifactIdTaken, IsListed, Move, Requeue, ApplyFailed, MatchesLease;
    if e.attempt in db.attempts && db.attempts[e.attempt].job == e.job && e.job in db.jobs {
      var attempt, at := db.attempts[e.attempt], db.jobs[e.job].nextAttemptAt;
      match e
      case FailedEvent(_, _, _, _, _) => FailedWaits(db, e, now, ids, j);
      case Started(_, _, _, _, _) =>
        if e.job != j { MoveElsewhere(db, e.job, e.attempt, Running, attempt.(state := AttemptRunning), at, j); }
      case SucceededEvent(_, _, _, _, _) =>
        if e.job != j { MoveElsewhere(db, e.job, e.attempt, Succeeded, attempt.(state := AttemptSucceeded), at, j); }
      case CancelledEvent(_, _, _, _) =>
        if e.job != j { MoveElsewhere(db, e.job, e.attempt, Cancelled, attempt.(state := AttemptCancelled), at, j); }
      case _ =>
    }
  }

  lemma FailedWaits(db: Db, e: Event, now: Time, ids: NewIds, j: Uuid)
    requires e.FailedEvent? && e.attempt in db.attempts && e.job in db.jobs && ApplyFailed(db, e, now, ids).Effect?
    requires j in db.jobs && db.jobs[j].state in {Queued, Cancelled}
    ensures SameRowAndCommands(db, ApplyFailed(db, e, now, ids).db, j)
  {
    hide Move, RetryPolicy.Delay, MatchesLease;
    var attempt := db.attempts[e.attempt];
    var over := attempt.(state := AttemptFailed);
    var failed := Project(db, e.job, e.attempt, ResultFailed, []);
    if e.job != j {
      var delay := RetryPolicy.Delay(RetryPolicy.Widened(RetryPolicy.DEFAULT_POLICY, db.jobs[e.job].maxAttempts),
                                     attempt.number + 1, None);
      if delay.Some? {
        MoveElsewhere(failed, e.job, e.attempt, Queued, over, Some(now + delay.value), j);
      }
      MoveElsewhere(failed, e.job, e.attempt, FailedPermanent, over, None, j);
      MoveElsewhere(failed, e.job, e.attempt, DeadLettered, over, None, j);
    }
  }

  ghost predicate SameRowAndCommands(db: Db, after: Db, j: Uuid) {
    j in db.jobs && j in after.jobs && after.jobs[j] == db.jobs[j] && after.commands == db.commands
  }

  /** Moving one job leaves every other job's row and the commands alone. */
  lemma MoveElsewhere(db: Db, k: Uuid, a: Uuid, to: JobState, attempt: Attempt, at: Option<Time>, j: Uuid)
    requires k in db.jobs && j in db.jobs && j != k
    ensures SameRowAndCommands(db, Move(db, k, a, to, attempt, at), j)
  {
    hide Transfer;
  }

  // ---------------------------------------------------------------- idempotency

  /**
   * A keyed creation that committed is remembered over every run: the same request changes nothing
   * and still names a job of its owner, and a different request under the same key is refused.
   */
  lemma CreateIsIdempotent(c: Config, before: seq<Op>, ops: seq<Op>, x: CreateCommand, y: CreateCommand,
                           job: Uuid, attempt: Uuid, job': Uuid, attempt': Uuid)
    requires x.key != "" && Create(Reached(c, before), x, job, attempt).Commit?
    requires y.owner == x.owner && y.key == x.key && ValidCreate(y)
    ensures
      var db := Reached(c, before);
      var later := Run(Create(db, x, job, attempt).db, c, ops);
      && Create(later, y, job', attempt') == (if y.fingerprint == x.fingerprint then Commit(later) else Rollback(IdempotencyConflict))
      && (x.owner, x.key) in later.idempotency
      && (job !in db.jobs && job in Create(db, x, job, attempt).db.jobs ==> later.idempotency[(x.owner, x.key)].job == job)
  {
    hide Inv, Run, Create, ValidCreate;
    ReachedInv(c, before);
    CreateIsRemembered(Reached(c, before), c, ops, x, y, job, attempt, job', attempt');
  }

  lemma CreateIsRemembered(db: Db, c: Config, ops: seq<Op>, x: CreateCommand, y: CreateCommand,
                           job: Uuid, attempt: Uuid, job': Uuid, attempt': Uuid)
    requires x.key != "" && Create(db, x, job, attempt).Commit?
    requires y.owner == x.owner && y.key == x.key && ValidCreate(y)
    requires Inv(db)
    ensures
      var later := Run(Create(db, x, job, attempt).db, c, ops);
      && Create(later, y, job', attempt') == (if y.fingerprint == x.fingerprint then Commit(later) else Rollback(IdempotencyConflict))
      && (x.owner, x.key) in later.idempotency
      && (job !in db.jobs && job in Create(db, x, job, attempt).db.jobs ==> later.idempotency[(x.owner, x.key)].job == job)
  {
    hide Core, Rest, Run, Transfer, KnownOperation, AttemptsLater, JobsLater, HistoryLater, ArtifactsLater, ResultsLater, LettersLater,
         InboxLater, ProgressLater, CatalogLater;
    CreateKeepsInv(db, x, job, attempt);
    RunLater(Create(db, x, job, attempt).db, c, ops);
  }
}
