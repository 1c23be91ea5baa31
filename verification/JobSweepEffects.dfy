/** What a sweep of expired leases does in every reachable state, written out on the rows. */
module JobSweepEffects {
  import opened Tables
  import opened JobLifecycle
  import opened JobTables
  import opened Datasets
  import opened JobSteps
  import opened JobInvariants
  import opened JobPreservation
  import opened JobTheorems
  import opened JobGuarantees
  import opened JobEffects
  import RetryPolicy

  /** The policy may let attempt `next` wait for `d`: what its list says, and at most the jitter's share more. */
  predicate IsWait(p: RetryPolicy.Policy, next: int, d: int) {
    && |p.delays| >= 1 && next >= 2
    && var listed := if next <= |p.delays| then p.delays[next - 1] else p.delays[|p.delays| - 1];
       listed <= d && (d - listed) as real <= listed as real * p.jitter
  }

  /**
   * Attempt `a` is over and its job went on as its own row calls for: cancelled if that was requested, queued again
   * after the policy's delay if an attempt is left, and otherwise dead-lettered. Its history has one entry more.
   */
  ghost predicate Settled(db: Db, after: Db, c: Config, a: Uuid, now: Time, id: NewIds) {
    && a in db.attempts && a in after.attempts
    && var attempt := db.attempts[a];
       var j := attempt.job;
       && j in db.jobs && j in db.history && j in after.jobs && j in after.history
       && var job := db.jobs[j];
          && after.history[j] == db.history[j] + [Transition(Some(job.state), after.jobs[j].state)]
          && if job.state == CancelRequested then
               && after.jobs[j] == job.(state := Cancelled, nextAttemptAt := None)
               && after.attempts[a] == attempt.(state := AttemptCancelled, expiresAt := Some(now))
               && (j, a) in after.projections && after.projections[(j, a)] == Projection(ResultCancelled, [])
             else if attempt.number < job.maxAttempts then
               && after.jobs[j] == job.(state := Queued, nextAttemptAt := after.jobs[j].nextAttemptAt)
               && after.jobs[j].nextAttemptAt.Some? && IsWait(c.policy, attempt.number + 1, after.jobs[j].nextAttemptAt.value - now)
               && after.attempts[a] == attempt.(state := AttemptTimedOut, expiresAt := Some(now))
               && id.attempt !in db.attempts && id.attempt in after.attempts && after.attempts[id.attempt] == Fresh(j, attempt.number + 1)
             else
               && after.jobs[j] == job.(state := DeadLettered, nextAttemptAt := None)
               && after.attempts[a] == attempt.(state := AttemptTimedOut, expiresAt := Some(now))
               && attempt.lease.Some? && attempt.worker.Some?
               && id.deadLetter !in db.deadLetters && id.deadLetter in after.deadLetters
               && after.deadLetters[id.deadLetter] == DeadLetter(j, a, attempt.lease.value, attempt.worker.value, attempt.number, false)
  }

  /** One of the leases is of job `j`. */
  ghost predicate Concerns(db: Db, batch: seq<Uuid>, j: Uuid) {
    exists i :: 0 <= i < |batch| && batch[i] in db.attempts && db.attempts[batch[i]].job == j
  }

  ghost predicate SparesJobs(db: Db, after: Db, batch: seq<Uuid>) {
    && after.jobs.Keys == db.jobs.Keys && after.history.Keys == db.history.Keys
    && (forall j | j in db.jobs && !Concerns(db, batch, j) :: after.jobs[j] == db.jobs[j])
    && (forall j | j in db.history && !Concerns(db, batch, j) :: after.history[j] == db.history[j])
  }

  ghost predicate SparesAttempts(db: Db, after: Db, batch: seq<Uuid>, ids: seq<NewIds>) {
    && (forall b | b in db.attempts :: b in after.attempts && (b !in batch ==> after.attempts[b] == db.attempts[b]))
    && (forall b | b in after.attempts && b !in db.attempts :: exists i :: 0 <= i < |ids| && ids[i].attempt == b)
  }

  ghost predicate SparesRecords(db: Db, after: Db) {
    && (forall p | p in db.projections :: p in after.projections && after.projections[p] == db.projections[p])
    && (forall d | d in db.deadLetters :: d in after.deadLetters && after.deadLetters[d] == db.deadLetters[d])
    && after == db.(jobs := after.jobs, attempts := after.attempts, quotas := after.quotas, history := after.history,
                    projections := after.projections, deadLetters := after.deadLetters)
  }

  /** Nothing else changed: no job without a lease in the batch, no other attempt, no result, letter or other table. */
  ghost predicate Spares(db: Db, after: Db, batch: seq<Uuid>, ids: seq<NewIds>) {
    SparesJobs(db, after, batch) && SparesAttempts(db, after, batch, ids) && SparesRecords(db, after)
  }

  /** A sweep that commits settles every lease of its batch as that lease's own rows call for, and nothing else. */
  lemma SweepOutcome(c: Config, ops: seq<Op>, limit: int, batch: seq<Uuid>, now: Time, ids: seq<NewIds>)
    requires |ids| == |batch| && IsBatch(Reached(c, ops), batch, now, SweepLimit(c, limit))
    requires Sweep(Reached(c, ops), c, limit, batch, now, ids).Commit?
    ensures
      var db := Reached(c, ops);
      var after := Sweep(db, c, limit, batch, now, ids).db;
      && (forall i | 0 <= i < |batch| :: Settled(db, after, c, batch[i], now, ids[i]))
      && Spares(db, after, batch, ids)
  {
    hide Inv, Run, ExpireAll, Settled, Spares, IsExpired;
    ReachedInv(c, ops);
    BatchIsSettled(Reached(c, ops), c, batch, now, ids);
  }

  // ---------------------------------------------------------------- one lease

  lemma WaitIsListed(c: Config, limit: int, next: int, draw: nat, d: int)
    requires RetryPolicy.Delay(RetryPolicy.Widened(c.policy, limit), next, Some(draw)) == Some(d)
    ensures IsWait(c.policy, next, d)
  {
    hide RetryPolicy.Delay;
    RetryPolicy.DelayBounds(RetryPolicy.Widened(c.policy, limit), next, Some(draw));
  }

  /** The attempts after one lease: the expired one, and perhaps a further one. */
  ghost predicate OneAttempt(db: Db, after: Db, a: Uuid, id: NewIds) {
    && (forall b | b in db.attempts && b != a :: b in after.attempts && after.attempts[b] == db.attempts[b])
    && (forall b | b in after.attempts && b !in db.attempts :: b == id.attempt)
    && a in after.attempts
  }

  ghost predicate OneJob(db: Db, after: Db, j: Uuid) {
    && after.jobs.Keys == db.jobs.Keys && after.history.Keys == db.history.Keys
    && (forall k | k in db.jobs && k != j :: after.jobs[k] == db.jobs[k])
    && (forall k | k in db.history && k != j :: after.history[k] == db.history[k])
  }

  /** What expiring one lease leaves alone. */
  ghost predicate OneLease(db: Db, after: Db, a: Uuid, id: NewIds) {
    a in db.attempts && OneJob(db, after, db.attempts[a].job) && OneAttempt(db, after, a, id) && SparesRecords(db, after)
  }

  lemma ExpireSettles(db: Db, c: Config, a: Uuid, now: Time, id: NewIds)
    requires IsExpired(db, a, now) && Expire(db, c, a, now, id).Commit?
    requires Inv(db)
    ensures Settled(db, Expire(db, c, a, now, id).db, c, a, now, id)
    ensures OneLease(db, Expire(db, c, a, now, id).db, a, id)
  {
    hide Inv, Move, RetryPolicy.Delay, RetryPolicy.Widened, IsWait, Settled, OneLease;
    var attempt := db.attempts[a];
    var job := db.jobs[attempt.job];
    HeldRow(db, a);
    if job.state == CancelRequested {
      ExpiryCancels(db, c, a, now, id);
    } else if attempt.number < job.maxAttempts {
      var delay := RetryPolicy.Delay(RetryPolicy.Widened(c.policy, job.maxAttempts), attempt.number + 1, Some(id.draw));
      WaitIsListed(c, job.maxAttempts, attempt.number + 1, id.draw, delay.value);
      ExpiryRetries(db, c, a, now, id, delay.value);
    } else {
      ExpiryBuries(db, c, a, now, id);
    }
  }

  lemma HeldRow(db: Db, a: Uuid)
    requires a in db.attempts && IsHeld(db.attempts[a].state)
    requires Inv(db)
    ensures db.attempts[a].number >= 1 && (db.attempts[a].job, a) !in db.projections && db.attempts[a].job in db.history
  {
    hide Core, Rest, Newest;
    CoreUnsettled(db, a);
    ResultOf(db, a);
    RowsExist(db, db.attempts[a].job);
  }

  lemma ExpiryCancels(db: Db, c: Config, a: Uuid, now: Time, id: NewIds)
    requires IsExpired(db, a, now) && db.jobs[db.attempts[a].job].state == CancelRequested
    requires db.attempts[a].job in db.history && (db.attempts[a].job, a) !in db.projections
    ensures
      var over := db.attempts[a].(state := AttemptCancelled, expiresAt := Some(now));
      var after := Project(Move(db, db.attempts[a].job, a, Cancelled, over, None), db.attempts[a].job, a, ResultCancelled, []);
      Settled(db, after, c, a, now, id) && OneLease(db, after, a, id)
  {
    hide Transfer;
  }

  lemma ExpiryRetries(db: Db, c: Config, a: Uuid, now: Time, id: NewIds, delay: Time)
    requires IsExpired(db, a, now) && db.jobs[db.attempts[a].job].state != CancelRequested
    requires db.attempts[a].number < db.jobs[db.attempts[a].job].maxAttempts && IsWait(c.policy, db.attempts[a].number + 1, delay)
    requires db.attempts[a].job in db.history && id.attempt !in db.attempts
    ensures
      var over := db.attempts[a].(state := AttemptTimedOut, expiresAt := Some(now));
      var after := Requeue(db, db.attempts[a].job, a, over, id.attempt, Some(now + delay));
      Settled(db, after, c, a, now, id) && OneLease(db, after, a, id)
  {
    hide Transfer, IsWait;
  }

  lemma ExpiryBuries(db: Db, c: Config, a: Uuid, now: Time, id: NewIds)
    requires IsExpired(db, a, now) && db.jobs[db.attempts[a].job].state != CancelRequested
    requires db.attempts[a].number >= db.jobs[db.attempts[a].job].maxAttempts && id.deadLetter !in db.deadLetters
    requires db.attempts[a].job in db.history && db.attempts[a].lease.Some? && db.attempts[a].worker.Some?
    ensures
      var attempt := db.attempts[a];
      var over := attempt.(state := AttemptTimedOut, expiresAt := Some(now));
      var after := Move(db, attempt.job, a, DeadLettered, over, None).(
        deadLetters := db.deadLetters[id.deadLetter :=
          DeadLetter(attempt.job, a, attempt.lease.value, attempt.worker.value, attempt.number, false)]);
      Settled(db, after, c, a, now, id) && OneLease(db, after, a, id)
  {
    hide Transfer;
  }

  // ---------------------------------------------------------------- a batch

  lemma {:induction false} BatchIsSettled(db: Db, c: Config, batch: seq<Uuid>, now: Time, ids: seq<NewIds>)
    requires |ids| == |batch| && IsBatch(db, batch, now, |batch|) && ExpireAll(db, c, batch, now, ids).Commit?
    requires Inv(db)
    ensures forall i | 0 <= i < |batch| :: Settled(db, ExpireAll(db, c, batch, now, ids).db, c, batch[i], now, ids[i])
    ensures Spares(db, ExpireAll(db, c, batch, now, ids).db, batch, ids)
    decreases |batch|
  {
    hide Inv, Expire, Settled, Spares, OneLease;
    if batch == [] {
      NothingSpares(db, ids);
    } else {
      var next := Expire(db, c, batch[0], now, ids[0]).db;
      var after := ExpireAll(db, c, batch, now, ids).db;
      var rest, restIds := batch[1..], ids[1..];
      ExpireSettles(db, c, batch[0], now, ids[0]);
      ExpireKeepsInv(db, c, batch[0], now, ids[0]);
      RestStaysExpired(db, next, batch, now, ids[0]);
      BatchIsSettled(next, c, rest, now, restIds);
      forall i | 0 <= i < |batch| ensures Settled(db, after, c, batch[i], now, ids[i]) {
        if i == 0 {
          FirstStaysSettled(db, next, after, c, batch, now, ids);
        } else {
          assert batch[i] == rest[i - 1] && ids[i] == restIds[i - 1];
          OtherIsSettled(db, next, after, c, batch, i, now, ids[0], ids[i]);
        }
      }
      SparesTrans(db, next, after, batch, now, ids);
    }
  }

  lemma NothingSpares(db: Db, ids: seq<NewIds>)
    ensures Spares(db, db, [], ids)
  {
  }

  /** The jobs of a batch differ, so expiring the first lease leaves the others' rows alone. */
  lemma OtherRows(db: Db, next: Db, batch: seq<Uuid>, i: nat, now: Time, id: NewIds)
    requires 0 < i < |batch| && IsBatch(db, batch, now, |batch|) && OneLease(db, next, batch[0], id)
    requires Inv(db)
    ensures batch[i] in db.attempts && batch[i] in next.attempts && next.attempts[batch[i]] == db.attempts[batch[i]]
    ensures
      var j := db.attempts[batch[i]].job;
      && j != db.attempts[batch[0]].job && j in db.jobs && j in next.jobs && next.jobs[j] == db.jobs[j]
      && j in db.history && j in next.history && next.history[j] == db.history[j]
  {
    hide Inv, SparesRecords;
    SweptJobsDiffer(db, batch, now, |batch|);
    RowsExist(db, db.attempts[batch[i]].job);
  }

  lemma RestStaysExpired(db: Db, next: Db, batch: seq<Uuid>, now: Time, id: NewIds)
    requires |batch| > 0 && IsBatch(db, batch, now, |batch|) && OneLease(db, next, batch[0], id)
    requires Inv(db)
    ensures IsBatch(next, batch[1..], now, |batch| - 1)
  {
    hide Inv, OneLease;
    forall i | 0 < i < |batch| ensures IsExpired(next, batch[i], now) {
      OtherRows(db, next, batch, i, now, id);
    }
  }

  lemma OtherIsSettled(db: Db, next: Db, after: Db, c: Config, batch: seq<Uuid>, i: nat, now: Time, first: NewIds, id: NewIds)
    requires 0 < i < |batch| && IsBatch(db, batch, now, |batch|) && OneLease(db, next, batch[0], first)
    requires Settled(next, after, c, batch[i], now, id)
    requires Inv(db)
    ensures Settled(db, after, c, batch[i], now, id)
  {
    hide Inv, OneLease, IsWait, IsExpired;
    OtherRows(db, next, batch, i, now, first);
    OneLeaseGrows(db, next, batch[0], first);
  }

  lemma OneLeaseGrows(db: Db, next: Db, a: Uuid, id: NewIds)
    requires OneLease(db, next, a, id)
    ensures forall b | b in db.attempts :: b in next.attempts
    ensures forall d | d in db.deadLetters :: d in next.deadLetters
  {
  }

  lemma NotConcerned(db: Db, next: Db, batch: seq<Uuid>, now: Time, id: NewIds, j: Uuid)
    requires |batch| > 0 && IsBatch(db, batch, now, |batch|) && OneLease(db, next, batch[0], id)
    requires j == db.attempts[batch[0]].job || !Concerns(db, batch, j)
    requires Inv(db)
    ensures !Concerns(next, batch[1..], j)
  {
    hide Inv, OneLease;
    if Concerns(next, batch[1..], j) {
      var i :| 0 <= i < |batch| - 1 && batch[1..][i] in next.attempts && next.attempts[batch[1..][i]].job == j;
      OtherRows(db, next, batch, i + 1, now, id);
      assert false;
    }
  }

  lemma FirstStaysSettled(db: Db, next: Db, after: Db, c: Config, batch: seq<Uuid>, now: Time, ids: seq<NewIds>)
    requires |ids| == |batch| > 0 && IsBatch(db, batch, now, |batch|) && OneLease(db, next, batch[0], ids[0])
    requires Settled(db, next, c, batch[0], now, ids[0]) && Spares(next, after, batch[1..], ids[1..])
    requires Inv(db)
    ensures Settled(db, after, c, batch[0], now, ids[0])
  {
    hide Inv, OneLease, IsWait, Concerns;
    NotConcerned(db, next, batch, now, ids[0], db.attempts[batch[0]].job);
    assert forall b | b in batch[1..] :: b in db.attempts && b != batch[0];
  }

  lemma SparesTrans(db: Db, next: Db, after: Db, batch: seq<Uuid>, now: Time, ids: seq<NewIds>)
    requires |ids| == |batch| > 0 && IsBatch(db, batch, now, |batch|)
    requires OneLease(db, next, batch[0], ids[0]) && Spares(next, after, batch[1..], ids[1..])
    requires Inv(db)
    ensures Spares(db, after, batch, ids)
  {
    hide Inv, SparesJobs, SparesAttempts, SparesRecords, OneJob, OneAttempt, IsExpired;
    SparesJobsTrans(db, next, after, batch, now, ids);
    SparesAttemptsTrans(db, next, after, batch, ids);
    SparesRecordsTrans(db, next, after);
  }

  lemma SparesJobsTrans(db: Db, next: Db, after: Db, batch: seq<Uuid>, now: Time, ids: seq<NewIds>)
    requires |ids| == |batch| > 0 && IsBatch(db, batch, now, |batch|)
    requires OneLease(db, next, batch[0], ids[0]) && SparesJobs(next, after, batch[1..])
    requires Inv(db)
    ensures SparesJobs(db, after, batch)
  {
    hide Inv, OneAttempt, SparesRecords;
    forall j | !Concerns(db, batch, j) ensures !Concerns(next, batch[1..], j) && j != db.attempts[batch[0]].job {
      NotConcerned(db, next, batch, now, ids[0], j);
    }
  }

  lemma SparesAttemptsTrans(db: Db, next: Db, after: Db, batch: seq<Uuid>, ids: seq<NewIds>)
    requires |ids| == |batch| > 0
    requires OneLease(db, next, batch[0], ids[0]) && SparesAttempts(next, after, batch[1..], ids[1..])
    ensures SparesAttempts(db, after, batch, ids)
  {
    hide OneJob, SparesRecords;
    forall b | b in after.attempts && b !in db.attempts ensures exists i :: 0 <= i < |ids| && ids[i].attempt == b {
      if b in next.attempts {
        assert ids[0].attempt == b;
      } else {
        var i :| 0 <= i < |ids[1..]| && ids[1..][i].attempt == b;
        assert ids[i + 1].attempt == b;
      }
    }
  }

  lemma SparesRecordsTrans(db: Db, next: Db, after: Db)
    requires SparesRecords(db, next) && SparesRecords(next, after)
    ensures SparesRecords(db, after)
  {
  }

  // ---------------------------------------------------------------- when a sweep commits

  /** The job of attempt `a` goes on with a further attempt. */
  predicate IsRetried(db: Db, a: Uuid) {
    && a in db.attempts && db.attempts[a].job in db.jobs
    && db.jobs[db.attempts[a].job].state != CancelRequested
    && db.attempts[a].number < db.jobs[db.attempts[a].job].maxAttempts
  }

  /** The job of attempt `a` has no attempt left. */
  predicate IsBuried(db: Db, a: Uuid) {
    && a in db.attempts && db.attempts[a].job in db.jobs
    && db.jobs[db.attempts[a].job].state != CancelRequested
    && db.attempts[a].number >= db.jobs[db.attempts[a].job].maxAttempts
  }

  /** The identifiers this lease needs are not in use. */
  predicate IsUnused(db: Db, a: Uuid, id: NewIds) {
    && (IsRetried(db, a) ==> id.attempt != NIL && id.attempt !in db.attempts)
    && (IsBuried(db, a) ==> id.deadLetter !in db.deadLetters)
  }

  /** No two leases need the same identifier. */
  predicate NoClash(db: Db, a: Uuid, b: Uuid, x: NewIds, y: NewIds) {
    && (IsRetried(db, a) && IsRetried(db, b) ==> x.attempt != y.attempt)
    && (IsBuried(db, a) && IsBuried(db, b) ==> x.deadLetter != y.deadLetter)
  }

  ghost predicate HasIds(db: Db, batch: seq<Uuid>, ids: seq<NewIds>)
    requires |ids| == |batch|
  {
    && (forall i | 0 <= i < |batch| :: IsUnused(db, batch[i], ids[i]))
    && (forall i, k | 0 <= i < k < |batch| :: NoClash(db, batch[i], batch[k], ids[i], ids[k]))
  }

  /** Under a valid configuration a sweep fails only for its limit or for an identifier in use. */
  lemma SweepCommitsExactly(c: Config, ops: seq<Op>, limit: int, batch: seq<Uuid>, now: Time, ids: seq<NewIds>)
    requires ValidConfig(c) && |ids| == |batch| && IsBatch(Reached(c, ops), batch, now, SweepLimit(c, limit))
    ensures Sweep(Reached(c, ops), c, limit, batch, now, ids).Commit?
       <==> 0 <= limit <= 1000 && HasIds(Reached(c, ops), batch, ids)
  {
    hide Inv, Run, ExpireAll, HasIds, IsExpired;
    ReachedInv(c, ops);
    BatchCommits(Reached(c, ops), c, batch, now, ids);
  }

  lemma {:induction false} BatchCommits(db: Db, c: Config, batch: seq<Uuid>, now: Time, ids: seq<NewIds>)
    requires ValidConfig(c) && |ids| == |batch| && IsBatch(db, batch, now, |batch|)
    requires Inv(db)
    ensures ExpireAll(db, c, batch, now, ids).Commit? <==> HasIds(db, batch, ids)
    decreases |batch|
  {
    hide Inv, Expire, OneLease, ValidConfig, IsUnused, NoClash, Settled, Adds, SameRow;
    if batch != [] {
      ExpireCommits(db, c, batch[0], now, ids[0]);
      if Expire(db, c, batch[0], now, ids[0]).Commit? {
        var next := Expire(db, c, batch[0], now, ids[0]).db;
        ExpireSettles(db, c, batch[0], now, ids[0]);
        ExpireKeepsInv(db, c, batch[0], now, ids[0]);
        RestStaysExpired(db, next, batch, now, ids[0]);
        BatchCommits(next, c, batch[1..], now, ids[1..]);
        ExpireAdds(db, c, batch[0], now, ids[0]);
        RestIsSame(db, next, batch, now, ids[0]);
        IdsSplit(db, next, batch, ids);
      }
    }
  }

  /** What expiring one lease adds. */
  predicate Adds(db: Db, next: Db, a: Uuid, id: NewIds) {
    && next.attempts.Keys == db.attempts.Keys + (if IsRetried(db, a) then {id.attempt} else {})
    && next.deadLetters.Keys == db.deadLetters.Keys + (if IsBuried(db, a) then {id.deadLetter} else {})
  }

  lemma ExpireCommits(db: Db, c: Config, a: Uuid, now: Time, id: NewIds)
    requires ValidConfig(c) && IsExpired(db, a, now)
    requires Inv(db)
    ensures Expire(db, c, a, now, id).Commit? <==> IsUnused(db, a, id)
    ensures db.attempts[a].number >= 1
  {
    hide Core, Rest, Newest, Move, Requeue, RetryPolicy.Delay, RetryPolicy.Widened, RetryPolicy.Valid;
    CoreUnsettled(db, a);
    var n, limit := db.attempts[a].number + 1, db.jobs[db.attempts[a].job].maxAttempts;
    if n <= limit {
      RetryPolicy.DelayNeverErrs(c.policy, limit, n, Some(id.draw));
    }
  }

  lemma ExpireAdds(db: Db, c: Config, a: Uuid, now: Time, id: NewIds)
    requires IsExpired(db, a, now) && Expire(db, c, a, now, id).Commit? && db.attempts[a].number >= 1
    ensures Adds(db, Expire(db, c, a, now, id).db, a, id)
  {
    hide Move, RetryPolicy.Delay, RetryPolicy.Widened;
    var attempt := db.attempts[a];
    var j := attempt.job;
    var over := attempt.(state := AttemptTimedOut, expiresAt := Some(now));
    if db.jobs[j].state == CancelRequested {
      MoveAddsNothing(db, j, a, Cancelled, over.(state := AttemptCancelled), None);
    } else if attempt.number + 1 <= db.jobs[j].maxAttempts {
      var delay := RetryPolicy.Delay(RetryPolicy.Widened(c.policy, db.jobs[j].maxAttempts), attempt.number + 1, Some(id.draw));
      MoveAddsNothing(db, j, a, Queued, over, Some(now + delay.value));
    } else {
      MoveAddsNothing(db, j, a, DeadLettered, over, None);
    }
  }

  lemma MoveAddsNothing(db: Db, j: Uuid, a: Uuid, to: JobState, attempt: Attempt, at: Option<Time>)
    requires j in db.jobs && a in db.attempts
    ensures Move(db, j, a, to, attempt, at).attempts.Keys == db.attempts.Keys
    ensures Move(db, j, a, to, attempt, at).deadLetters == db.deadLetters
  {
    hide Transfer;
  }

  lemma IdsSplit(db: Db, next: Db, batch: seq<Uuid>, ids: seq<NewIds>)
    requires |ids| == |batch| > 0
    requires forall i | 0 < i < |batch| :: SameRow(db, next, batch[i])
    requires Adds(db, next, batch[0], ids[0]) && IsUnused(db, batch[0], ids[0])
    ensures HasIds(db, batch, ids) <==> HasIds(next, batch[1..], ids[1..])
  {
    hide IsUnused, NoClash, Adds, SameRow;
    var rest, restIds := batch[1..], ids[1..];
    forall i | 0 < i < |batch|
      ensures IsUnused(next, batch[i], ids[i]) <==> IsUnused(db, batch[i], ids[i]) && NoClash(db, batch[0], batch[i], ids[0], ids[i])
    {
      UnusedNext(db, next, batch[0], batch[i], ids[0], ids[i]);
    }
    forall i, k | 0 < i < k < |batch|
      ensures NoClash(next, batch[i], batch[k], ids[i], ids[k]) <==> NoClash(db, batch[i], batch[k], ids[i], ids[k])
    {
      ClashNext(db, next, batch[i], batch[k], ids[i], ids[k]);
    }
    if HasIds(next, rest, restIds) {
      forall i, k | 0 <= i < k < |batch|
        ensures IsUnused(db, batch[k], ids[k]) && NoClash(db, batch[i], batch[k], ids[i], ids[k])
      {
        assert IsUnused(next, rest[k - 1], restIds[k - 1]);
        if i > 0 {
          assert NoClash(next, rest[i - 1], rest[k - 1], restIds[i - 1], restIds[k - 1]);
        }
      }
      forall i | 0 <= i < |batch| ensures IsUnused(db, batch[i], ids[i]) {
      }
    }
  }

  /** The rows of attempt `a` and its job are the same. */
  predicate SameRow(db: Db, next: Db, a: Uuid) {
    && a in db.attempts && a in next.attempts && next.attempts[a] == db.attempts[a]
    && db.attempts[a].job in db.jobs && db.attempts[a].job in next.jobs
    && next.jobs[db.attempts[a].job] == db.jobs[db.attempts[a].job]
  }

  lemma RestIsSame(db: Db, next: Db, batch: seq<Uuid>, now: Time, id: NewIds)
    requires |batch| > 0 && IsBatch(db, batch, now, |batch|) && OneLease(db, next, batch[0], id)
    requires Inv(db)
    ensures forall i | 0 < i < |batch| :: SameRow(db, next, batch[i])
  {
    hide Inv, OneLease, IsExpired;
    forall i | 0 < i < |batch| ensures SameRow(db, next, batch[i]) {
      OtherRows(db, next, batch, i, now, id);
    }
  }

  lemma UnusedNext(db: Db, next: Db, a: Uuid, b: Uuid, x: NewIds, y: NewIds)
    requires Adds(db, next, a, x) && SameRow(db, next, b)
    ensures IsUnused(next, b, y) <==> IsUnused(db, b, y) && NoClash(db, a, b, x, y)
  {
  }

  lemma ClashNext(db: Db, next: Db, a: Uuid, b: Uuid, x: NewIds, y: NewIds)
    requires SameRow(db, next, a) && SameRow(db, next, b)
    ensures NoClash(next, a, b, x, y) <==> NoClash(db, a, b, x, y)
  {
  }
}
