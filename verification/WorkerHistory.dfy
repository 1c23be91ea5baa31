/** Where a worker's row comes from, over whole runs, and how assignments rotate. */
module WorkerHistory {
  import opened Tables
  import opened JobLifecycle
  import opened JobTables
  import opened Datasets
  import opened JobSteps
  import opened JobInvariants
  import opened JobPreservation
  import opened JobTheorems
  import opened JobGuarantees
  import RetryPolicy
  import WorkerRegistry

  // ---------------------------------------------------------------- which operations touch the workers

  lemma MoveKeepsWorkers(db: Db, j: Uuid, a: Uuid, to: JobState, attempt: Attempt, at: Option<Time>)
    requires j in db.jobs
    ensures Move(db, j, a, to, attempt, at).workers == db.workers
  {
    hide Transfer;
  }

  lemma ExpireKeepsWorkers(db: Db, c: Config, a: Uuid, now: Time, ids: NewIds)
    requires IsExpired(db, a, now) && Expire(db, c, a, now, ids).Commit?
    ensures Expire(db, c, a, now, ids).db.workers == db.workers
  {
    hide Move, RetryPolicy.Delay;
    var attempt := db.attempts[a];
    var j := attempt.job;
    var over := attempt.(state := AttemptTimedOut, expiresAt := Some(now));
    if db.jobs[j].state == CancelRequested {
      MoveKeepsWorkers(db, j, a, Cancelled, over.(state := AttemptCancelled), None);
    } else if 1 <= attempt.number && attempt.number + 1 <= db.jobs[j].maxAttempts {
      var delay := RetryPolicy.Delay(RetryPolicy.Widened(c.policy, db.jobs[j].maxAttempts), attempt.number + 1, Some(ids.draw));
      MoveKeepsWorkers(db, j, a, Queued, over, Some(now + delay.value));
    } else {
      MoveKeepsWorkers(db, j, a, DeadLettered, over, None);
    }
  }

  lemma {:induction false} ExpireAllKeepsWorkers(db: Db, c: Config, batch: seq<Uuid>, now: Time, ids: seq<NewIds>)
    requires |ids| == |batch| && ExpireAll(db, c, batch, now, ids).Commit?
    ensures ExpireAll(db, c, batch, now, ids).db.workers == db.workers
    decreases |batch|
  {
    hide Expire;
    if batch != [] {
      ExpireKeepsWorkers(db, c, batch[0], now, ids[0]);
      ExpireAllKeepsWorkers(Expire(db, c, batch[0], now, ids[0]).db, c, batch[1..], now, ids[1..]);
    }
  }

  lemma FailedKeepsWorkers(db: Db, e: Event, now: Time, ids: NewIds)
    requires e.FailedEvent? && e.attempt in db.attempts && e.job in db.jobs && ApplyFailed(db, e, now, ids).Effect?
    ensures ApplyFailed(db, e, now, ids).db.workers == db.workers
  {
    hide Move, RetryPolicy.Delay, MatchesLease;
    var attempt := db.attempts[e.attempt];
    var over := attempt.(state := AttemptFailed);
    var failed := Project(db, e.job, e.attempt, ResultFailed, []);
    var delay := RetryPolicy.Delay(RetryPolicy.Widened(RetryPolicy.DEFAULT_POLICY, db.jobs[e.job].maxAttempts),
                                   attempt.number + 1, None);
    if delay.Some? {
      MoveKeepsWorkers(failed, e.job, e.attempt, Queued, over, Some(now + delay.value));
    }
    MoveKeepsWorkers(failed, e.job, e.attempt, FailedPermanent, over, None);
    MoveKeepsWorkers(failed, e.job, e.attempt, DeadLettered, over, None);
  }

  lemma ApplyKeepsWorkers(db: Db, e: Event, now: Time, ids: NewIds)
    requires Apply(db, e, now, ids).Effect?
    ensures Apply(db, e, now, ids).db.workers == db.workers
  {
    hide Upserted, Promote, ArtifactIdTaken, IsListed, Move, Requeue, ApplyFailed, MatchesLease;
    if e.attempt in db.attempts && db.attempts[e.attempt].job == e.job && e.job in db.jobs {
      var attempt, at := db.attempts[e.attempt], db.jobs[e.job].nextAttemptAt;
      match e
      case FailedEvent(_, _, _, _, _) => FailedKeepsWorkers(db, e, now, ids);
      case Started(_, _, _, _, _) => MoveKeepsWorkers(db, e.job, e.attempt, Running, attempt.(state := AttemptRunning), at);
      case SucceededEvent(_, _, _, _, _) =>
        MoveKeepsWorkers(db, e.job, e.attempt, Succeeded, attempt.(state := AttemptSucceeded), at);
      case CancelledEvent(_, _, _, _) =>
        MoveKeepsWorkers(db, e.job, e.attempt, Cancelled, attempt.(state := AttemptCancelled), at);
      case _ =>
    }
  }

  lemma CommandsKeepWorkers(db: Db, j: Uuid, actor: Uuid, crossOwner: bool, reasonLength: nat, next: Uuid)
    requires Inv(db)
    ensures
      var cancel, retry := RequestCancel(db, j, actor, crossOwner, reasonLength), RequestRetry(db, j, actor, crossOwner, next);
      && (cancel.Commit? ==> cancel.db.workers == db.workers)
      && (retry.Commit? ==> retry.db.workers == db.workers)
  {
    hide Core, Rest, Newest, Move;
    if j in db.jobs {
      var a := CoreNewest(db, j);
      MoveKeepsWorkers(db, j, a, Cancelled, db.attempts[a].(state := AttemptCancelled), None);
      MoveKeepsWorkers(db, j, a, CancelRequested, db.attempts[a], db.jobs[j].nextAttemptAt);
      MoveKeepsWorkers(db, j, a, Queued, db.attempts[a], None);
    }
  }

  lemma AcquireAssigns(db: Db, c: Config, j: Uuid, requested: Time, now: Time, locked: set<Uuid>, lease: Uuid)
    requires Acquire(db, c, j, requested, now, locked, lease).Commit?
    requires Inv(db)
    ensures
      var after := Acquire(db, c, j, requested, now, locked, lease).db;
      OnlyStamps(db.workers, after.workers)
  {
    hide Core, Rest, Newest, WorkerRegistry.Choose, LeaseIds, Move;
    var a := CoreNewest(db, j);
    WorkerRegistry.ChooseIsComplete(db.workers, db.attempts, OperationSet(db.jobs[j].operations), now - c.heartbeatTtl, locked);
  }

  /** A worker's row is only ever rewritten by its own messages; an acquisition stamps the time. */
  ghost predicate OnlyStamps(before: map<Uuid, Worker>, after: map<Uuid, Worker>) {
    after.Keys == before.Keys && forall w | w in before :: after[w] == before[w].(lastAssignedAt := after[w].lastAssignedAt)
  }

  lemma StepKeepsStamps(db: Db, c: Config, op: Op)
    requires !op.OpWorker? && !op.OpAcquire?
    requires Inv(db)
    ensures Step(db, c, op).workers == db.workers
  {
    hide Inv, Create, RequestCancel, RequestRetry, Acquire, Renew, Process, ReplayBody, Datasets.Transact, ExpireAll;
    if op.OpReplay? {
      ReplayNeverCommits(db, op.record, op.actor, op.crossOwner, op.next);
    } else if Perform(db, c, op).Commit? {
      match op
      case OpCreate(command, job, attempt) => CreateKeepsWorkers(db, command, job, attempt);
      case OpCancel(j, actor, crossOwner, reasonLength) => CommandsKeepWorkers(db, j, actor, crossOwner, reasonLength, NIL);
      case OpRetry(j, actor, crossOwner, next) => CommandsKeepWorkers(db, j, actor, crossOwner, 0, next);
      case OpRenew(lease, worker, requested, now) => RenewKeepsWorkers(db, c, lease, worker, requested, now);
      case OpSweep(limit, batch, now, ids) =>
        if |ids| == |batch| && IsBatch(db, batch, now, SweepLimit(c, limit)) {
          ExpireAllKeepsWorkers(db, c, batch, now, ids);
        }
      case OpDeliver(message, event, now, id) => ProcessKeepsWorkers(db, message, event, now, id);
      case OpCatalog(_) => CatalogKeepsWorkers(db, c, op);
    }
  }

  lemma StepStamps(db: Db, c: Config, op: Op)
    requires !op.OpWorker?
    requires Inv(db)
    ensures OnlyStamps(db.workers, Step(db, c, op).workers)
  {
    hide Inv, OnlyStamps, Acquire;
    SameIsStamped(db.workers);
    if op.OpAcquire? {
      if Acquire(db, c, op.target, op.requested, op.now, op.locked, op.lease).Commit? {
        AcquireAssigns(db, c, op.target, op.requested, op.now, op.locked, op.lease);
      }
    } else {
      hide Step;
      StepKeepsStamps(db, c, op);
    }
  }

  lemma SameIsStamped(workers: map<Uuid, Worker>)
    ensures OnlyStamps(workers, workers)
  {
  }

  lemma ProcessKeepsWorkers(db: Db, message: Uuid, e: Event, now: Time, ids: NewIds)
    requires Process(db, message, e, now, ids).Commit?
    ensures Process(db, message, e, now, ids).db.workers == db.workers
  {
    hide Apply, ValidEvent;
    if message !in db.inbox {
      ApplyKeepsWorkers(db, e, now, ids);
    }
  }

  lemma CatalogKeepsWorkers(db: Db, c: Config, op: Op)
    requires op.OpCatalog?
    ensures Step(db, c, op).workers == db.workers
  {
    hide Datasets.Transact;
  }

  lemma CreateKeepsWorkers(db: Db, c: CreateCommand, job: Uuid, attempt: Uuid)
    requires Create(db, c, job, attempt).Commit?
    ensures Create(db, c, job, attempt).db.workers == db.workers
  {
    hide ValidCreate, Transfer;
  }

  lemma RenewKeepsWorkers(db: Db, c: Config, lease: Uuid, worker: Uuid, requested: Time, now: Time)
    requires Renew(db, c, lease, worker, requested, now).Commit?
    ensures Renew(db, c, lease, worker, requested, now).db.workers == db.workers
  {
  }

  // ---------------------------------------------------------------- heartbeats

  /** The message that a worker's current status, operations and capacity come from. */
  predicate IsSource(op: Op, w: Uuid, row: Worker) {
    && op.OpWorker? && op.signal.Heartbeat? && op.signal.worker == w
    && op.signal.instance == row.instance && op.signal.status == row.status
    && op.signal.operations == row.operations && op.signal.maxConcurrency == row.maxConcurrency
    && op.signal.observedAt == row.observedAt && row.lastHeartbeatAt == Some(op.now)
  }

  /** Every row that counts as alive was last written by a heartbeat of its current incarnation. */
  ghost predicate Traced(workers: map<Uuid, Worker>, ops: seq<Op>) {
    forall w | w in workers ::
      && workers[w].startedAt <= workers[w].observedAt
      && (workers[w].lastHeartbeatAt.Some? ==> HasSource(ops, w, workers[w]))
  }

  ghost predicate HasSource(ops: seq<Op>, w: Uuid, row: Worker) {
    exists i | 0 <= i < |ops| :: IsSource(ops[i], w, row)
  }

  lemma SourceStays(ops: seq<Op>, op: Op, w: Uuid, row: Worker, later: Worker)
    requires HasSource(ops, w, row) && later == row.(lastAssignedAt := later.lastAssignedAt)
    ensures HasSource(ops + [op], w, later)
  {
    var i :| 0 <= i < |ops| && IsSource(ops[i], w, row);
    assert (ops + [op])[i] == ops[i];
    assert IsSource((ops + [op])[i], w, later);
  }

  lemma StepKeepsTraced(db: Db, c: Config, ops: seq<Op>, op: Op)
    requires Traced(db.workers, ops)
    requires Inv(db)
    ensures Traced(Step(db, c, op).workers, ops + [op])
  {
    hide Inv, IsSource, HasSource;
    var after := Step(db, c, op).workers;
    if op.OpWorker? {
      assert (ops + [op])[|ops|] == op;
      assert after == WorkerRegistry.Receive(db.workers, op.signal, op.now);
      ReceiveKeepsTraced(db.workers, ops, op);
    } else {
      StepStamps(db, c, op);
      hide Step;
      forall w | w in after
        ensures after[w].startedAt <= after[w].observedAt && (after[w].lastHeartbeatAt.Some? ==> HasSource(ops + [op], w, after[w]))
      {
        if after[w].lastHeartbeatAt.Some? {
          SourceStays(ops, op, w, db.workers[w], after[w]);
        }
      }
    }
  }

  lemma ReceiveKeepsTraced(workers: map<Uuid, Worker>, ops: seq<Op>, op: Op)
    requires Traced(workers, ops) && op.OpWorker?
    ensures Traced(WorkerRegistry.Receive(workers, op.signal, op.now), ops + [op])
  {
    var after := WorkerRegistry.Receive(workers, op.signal, op.now);
    assert (ops + [op])[|ops|] == op;
    forall w | w in after && after[w].lastHeartbeatAt.Some? ensures HasSource(ops + [op], w, after[w]) {
      if w in workers && after[w] == workers[w] {
        SourceStays(ops, op, w, workers[w], after[w]);
      } else {
        assert IsSource((ops + [op])[|ops|], w, after[w]);
      }
    }
  }

  lemma {:induction false} RunKeepsTraced(c: Config, ops: seq<Op>)
    ensures Traced(Reached(c, ops).workers, ops)
    decreases |ops|
  {
    hide Inv, Step, Traced;
    if ops == [] {
      NobodyYet();
    } else {
      var front, last := ops[..|ops| - 1], ops[|ops| - 1];
      RunKeepsTraced(c, front);
      ReachedInv(c, front);
      StepKeepsTraced(Reached(c, front), c, front, last);
      RunSplits(EMPTY, c, front, last);
      assert ops == front + [last];
    }
  }

  lemma NobodyYet()
    ensures Traced(EMPTY.workers, [])
  {
  }

  lemma {:induction false} RunSplits(db: Db, c: Config, ops: seq<Op>, op: Op)
    ensures Run(db, c, ops + [op]) == Step(Run(db, c, ops), c, op)
    decreases |ops|
  {
    hide Step;
    if ops == [] {
      assert ([] + [op])[0] == op && ([] + [op])[1..] == [];
      assert Run(db, c, [] + [op]) == Run(Step(db, c, op), c, []);
    } else {
      RunSplits(Step(db, c, ops[0]), c, ops[1..], op);
      assert (ops + [op])[0] == ops[0] && (ops + [op])[1..] == ops[1..] + [op];
    }
  }

  /**
   * Over every run, an acquisition goes to a worker whose current incarnation sent a heartbeat, observed
   * since it started and no older than the lifetime allows, saying it was ready or busy and covers all the job's operations.
   */
  lemma ChosenWorkerIsAlive(c: Config, ops: seq<Op>, j: Uuid, requested: Time, now: Time, locked: set<Uuid>, lease: Uuid)
    requires Acquire(Reached(c, ops), c, j, requested, now, locked, lease).Commit?
    ensures j in Reached(c, ops).jobs
    ensures
      var db := Reached(c, ops);
      exists w, i ::
        && w in db.workers && 0 <= i < |ops| && IsSource(ops[i], w, db.workers[w])
        && db.workers[w].startedAt <= ops[i].signal.observedAt && ops[i].now >= now - c.heartbeatTtl
        && (ops[i].signal.status == Ready || ops[i].signal.status == Busy)
        && OperationSet(db.jobs[j].operations) <= ops[i].signal.operations
        && exists a :: a in Acquire(db, c, j, requested, now, locked, lease).db.attempts
                       && Acquire(db, c, j, requested, now, locked, lease).db.attempts[a].lease == Some(lease)
                       && Acquire(db, c, j, requested, now, locked, lease).db.attempts[a].worker == Some(w)
  {
    hide Inv, Run, Newest, Move, WorkerRegistry.Choose;
    var db := Reached(c, ops);
    ReachedInv(c, ops);
    RunKeepsTraced(c, ops);
    AcquireNeedsJob(db, c, j, requested, now, locked, lease);
    AcquireRespectsCapacity(c, ops, j, requested, now, locked, lease);
    hide Acquire;
    var after := Acquire(db, c, j, requested, now, locked, lease).db;
    var a, w :| a in after.attempts && after.attempts[a].worker == Some(w) && after.attempts[a].lease == Some(lease)
      && w in db.workers
      && WorkerRegistry.IsEligible(db.workers[w], OperationSet(db.jobs[j].operations), now - c.heartbeatTtl);
    EligibleMeans(db.workers[w], OperationSet(db.jobs[j].operations), now - c.heartbeatTtl);
    assert HasSource(ops, w, db.workers[w]);
    var i :| 0 <= i < |ops| && IsSource(ops[i], w, db.workers[w]);
  }

  lemma EligibleMeans(row: Worker, required: set<string>, cutoff: Time)
    requires WorkerRegistry.IsEligible(row, required, cutoff)
    ensures (row.status == Ready || row.status == Busy) && required <= row.operations
    ensures row.lastHeartbeatAt.Some? && row.lastHeartbeatAt.value >= cutoff
  {
  }

  // ---------------------------------------------------------------- rotation

  /** A worker that could take the job: eligible, not locked, and with room. */
  ghost predicate IsFree(workers: map<Uuid, Worker>, attempts: map<Uuid, Attempt>, required: set<string>, cutoff: Time,
                         locked: set<Uuid>, w: Uuid)
  {
    WorkerRegistry.IsCandidate(workers, required, cutoff, locked, w) && WorkerRegistry.HasRoom(workers, attempts, w)
  }

  /** No worker was assigned at or after `t`. */
  ghost predicate AssignedBelow(workers: map<Uuid, Worker>, t: Time) {
    forall w | w in workers && workers[w].lastAssignedAt.Some? :: workers[w].lastAssignedAt.value < t
  }

  ghost predicate AcquiresBelow(ops: seq<Op>, t: Time) {
    forall i | 0 <= i < |ops| && ops[i].OpAcquire? :: ops[i].now < t
  }

  ghost predicate AcquiresAbove(ops: seq<Op>, t: Time) {
    forall i | 0 <= i < |ops| && ops[i].OpAcquire? :: ops[i].now > t
  }

  /** What a step does to assignment times: an acquisition stamps its own, anything else keeps them. */
  lemma StepAssigns(db: Db, c: Config, op: Op, w: Uuid)
    requires w in Step(db, c, op).workers
    requires Inv(db)
    ensures
      var at := Step(db, c, op).workers[w].lastAssignedAt;
      || (if w in db.workers then at == db.workers[w].lastAssignedAt else at.None?)
      || (op.OpAcquire? && at == Some(op.now))
  {
    hide Inv, OnlyStamps, Acquire;
    if op.OpAcquire? {
      if Acquire(db, c, op.target, op.requested, op.now, op.locked, op.lease).Commit? {
        AcquireStamps(db, c, op.target, op.requested, op.now, op.locked, op.lease);
      }
    } else if !op.OpWorker? {
      hide Step;
      StepKeepsStamps(db, c, op);
    } else {
      assert Step(db, c, op).workers == WorkerRegistry.Receive(db.workers, op.signal, op.now);
    }
  }

  lemma AcquireStamps(db: Db, c: Config, j: Uuid, requested: Time, now: Time, locked: set<Uuid>, lease: Uuid)
    requires Acquire(db, c, j, requested, now, locked, lease).Commit?
    requires Inv(db)
    ensures
      var after := Acquire(db, c, j, requested, now, locked, lease).db.workers;
      && after.Keys == db.workers.Keys
      && forall w | w in after :: after[w].lastAssignedAt == db.workers[w].lastAssignedAt || after[w].lastAssignedAt == Some(now)
  {
    hide Core, Rest, Newest, WorkerRegistry.Choose, LeaseIds, Move;
    var a := CoreNewest(db, j);
    WorkerRegistry.ChooseIsComplete(db.workers, db.attempts, OperationSet(db.jobs[j].operations), now - c.heartbeatTtl, locked);
  }

  lemma {:induction false} StampsStayBelow(db: Db, c: Config, ops: seq<Op>, t: Time)
    requires AssignedBelow(db.workers, t) && AcquiresBelow(ops, t)
    requires Inv(db)
    ensures AssignedBelow(Run(db, c, ops).workers, t)
    decreases |ops|
  {
    hide Inv, Step;
    if ops != [] {
      var next := Step(db, c, ops[0]);
      StepKeepsInv(db, c, ops[0]);
      forall w | w in next.workers && next.workers[w].lastAssignedAt.Some? ensures next.workers[w].lastAssignedAt.value < t {
        StepAssigns(db, c, ops[0], w);
      }
      StampsStayBelow(next, c, ops[1..], t);
    }
  }

  lemma {:induction false} StampStaysAbove(db: Db, c: Config, ops: seq<Op>, w: Uuid, t: Time)
    requires w in db.workers && db.workers[w].lastAssignedAt.Some? && db.workers[w].lastAssignedAt.value >= t
    requires AcquiresAbove(ops, t)
    requires Inv(db)
    ensures
      var row := Run(db, c, ops).workers;
      w in row && row[w].lastAssignedAt.Some? && row[w].lastAssignedAt.value >= t
    decreases |ops|
  {
    hide Inv, Step;
    if ops != [] {
      var next := Step(db, c, ops[0]);
      StepKeepsInv(db, c, ops[0]);
      WorkersStay(db, c, ops[0], w);
      StepAssigns(db, c, ops[0], w);
      StampStaysAbove(next, c, ops[1..], w, t);
    }
  }

  lemma WorkersStay(db: Db, c: Config, op: Op, w: Uuid)
    requires w in db.workers
    requires Inv(db)
    ensures w in Step(db, c, op).workers
  {
    hide Inv;
    if !op.OpWorker? {
      hide Step;
      StepStamps(db, c, op);
    }
  }

  /**
   * With growing assignment times no worker is picked twice while another stays free and unpicked: after
   * worker `w` was assigned, then whatever runs in between, a further choice does not fall on `w` as
   * long as some worker is free that has not been assigned since before.
   */
  lemma RotationIsFair(c: Config, before: seq<Op>, op: Op, between: seq<Op>, w: Uuid, v: Uuid,
                       required: set<string>, cutoff: Time, locked: set<Uuid>)
    requires op.OpAcquire? && AcquiresBelow(before, op.now) && AcquiresAbove(between, op.now)
    requires
      var first := Step(Reached(c, before), c, op).workers;
      w in first && first[w].lastAssignedAt == Some(op.now)
    requires
      var earlier, later := Reached(c, before), Run(Step(Reached(c, before), c, op), c, between);
      && v != w && v in earlier.workers && v in later.workers
      && later.workers[v].lastAssignedAt == earlier.workers[v].lastAssignedAt
      && IsFree(later.workers, later.attempts, required, cutoff, locked, v)
    ensures
      var later := Run(Step(Reached(c, before), c, op), c, between);
      WorkerRegistry.Choose(later.workers, later.attempts, required, cutoff, locked) != Some(w)
  {
    hide Inv, Step, Run;
    var db := Reached(c, before);
    EmptyIsInv();
    ReachedInv(c, before);
    StampsStayBelow(EMPTY, c, before, op.now);
    StepKeepsInv(db, c, op);
    StampStaysAbove(Step(db, c, op), c, between, w, op.now);
    var later := Run(Step(db, c, op), c, between);
    OlderGoesFirst(later.workers, later.attempts, required, cutoff, locked, w, v);
  }

  lemma OlderGoesFirst(workers: map<Uuid, Worker>, attempts: map<Uuid, Attempt>, required: set<string>, cutoff: Time,
                       locked: set<Uuid>, w: Uuid, v: Uuid)
    requires w in workers && v in workers && v != w && IsFree(workers, attempts, required, cutoff, locked, v)
    requires workers[w].lastAssignedAt.Some?
    requires workers[v].lastAssignedAt.Some? ==> workers[v].lastAssignedAt.value < workers[w].lastAssignedAt.value
    ensures WorkerRegistry.Choose(workers, attempts, required, cutoff, locked) != Some(w)
  {
    assert !WorkerRegistry.AssignedBefore(workers, w, v);
    assert !WorkerRegistry.IsChoice(workers, attempts, required, cutoff, locked, w);
  }
}
