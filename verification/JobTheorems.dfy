/** What the job protocol promises over every run, in terms of the tables alone. */
module JobTheorems {
  import opened Tables
  import opened JobLifecycle
  import opened JobTables
  import opened Datasets
  import opened JobSteps
  import opened JobInvariants
  import opened JobPreservation
  import opened JobTime
  import RetryPolicy
  import WorkerRegistry

  /** The tables after a run of the whole system from empty ones. */
  ghost function Reached(c: Config, ops: seq<Op>): Db {
    Run(EMPTY, c, ops)
  }

  lemma ReachedInv(c: Config, ops: seq<Op>)
    ensures Inv(Reached(c, ops))
  {
    hide Inv;
    EmptyIsInv();
    RunKeepsInv(EMPTY, c, ops);
  }

  // ---------------------------------------------------------------- attempts

  /**
   * Job `j` has exactly one attempt for each number from 1 to `n`; all but the last are over, and the
   * last one's state is the one its job's state calls for.
   */
  ghost predicate HasAttempts(db: Db, j: Uuid, n: int)
    requires j in db.jobs
  {
    && (forall k :: HasNumber(db.attempts, j, k) <==> 1 <= k <= n)
    && (forall a, b | a in db.attempts && b in db.attempts && db.attempts[a].job == j && db.attempts[b].job == j
                      && db.attempts[a].number == db.attempts[b].number :: a == b)
    && (forall a | a in db.attempts && db.attempts[a].job == j ::
          if db.attempts[a].number < n then db.attempts[a].state in {AttemptFailed, AttemptTimedOut}
          else Matches(db.jobs[j].state, db.attempts[a].state))
  }

  /**
   * In every reachable state a job's attempts are numbered without gaps and agree with the job, their
   * number stays within the job's limit plus its dead-letter retries, and the job is in neither of the
   * two states that nothing sets.
   */
  lemma AttemptsAgreeWithJob(c: Config, ops: seq<Op>, j: Uuid)
    requires j in Reached(c, ops).jobs
    ensures
      var db := Reached(c, ops);
      && db.jobs[j].state != Created && db.jobs[j].state != FailedRetryable
      && j in db.history
      && exists n :: HasAttempts(db, j, n) && 1 <= n <= db.jobs[j].maxAttempts + Revivals(db.history[j])
  {
    hide Inv, Run, Revivals;
    var db := Reached(c, ops);
    ReachedInv(c, ops);
    AttemptsAgree(db, j);
  }

  lemma AttemptsAgree(db: Db, j: Uuid)
    requires j in db.jobs
    requires Inv(db)
    ensures db.jobs[j].state != Created && db.jobs[j].state != FailedRetryable && j in db.history
    ensures exists n :: HasAttempts(db, j, n) && 1 <= n <= db.jobs[j].maxAttempts + Revivals(db.history[j])
  {
    hide Core, Rest, Newest, Revivals, Unique, Gapless;
    var a := CoreNewest(db, j);
    CoreFacts(db, a);
    NumbersFill(db.attempts, j, a);
    assert HasAttempts(db, j, db.attempts[a].number) by { AttemptsFill(db, j, a); }
  }

  lemma CoreFacts(db: Db, a: Uuid)
    requires a in db.attempts
    requires Core(db)
    ensures Unique(db.attempts) && Gapless(db.attempts)
    ensures
      var j := db.attempts[a].job;
      j in db.jobs && j in db.history && db.attempts[a].number <= db.jobs[j].maxAttempts + Revivals(db.history[j])
  {
    hide Unique, Gapless, Topped, Leases, Counted, IsPath, Settings, Revivals;
  }

  lemma AttemptsFill(db: Db, j: Uuid, a: Uuid)
    requires j in db.jobs && IsTop(db.jobs[j], j, db.attempts, a) && Unique(db.attempts)
    requires forall k :: HasNumber(db.attempts, j, k) <==> 1 <= k <= db.attempts[a].number
    ensures HasAttempts(db, j, db.attempts[a].number)
  {
    hide HasNumber;
  }

  lemma NumbersFill(attempts: map<Uuid, Attempt>, j: Uuid, a: Uuid)
    requires Gapless(attempts) && a in attempts && attempts[a].job == j
    requires forall b | b in attempts && attempts[b].job == j :: 1 <= attempts[b].number <= attempts[a].number
    ensures forall k :: HasNumber(attempts, j, k) <==> 1 <= k <= attempts[a].number
  {
    forall k ensures HasNumber(attempts, j, k) <==> 1 <= k <= attempts[a].number {
      if 1 <= k <= attempts[a].number {
        assert HasNumber(attempts, attempts[a].job, k);
      }
    }
  }

  /** In every reachable state a job has at most one held attempt, so no sweep sees a job twice. */
  lemma SweptJobsAreDistinct(c: Config, ops: seq<Op>, batch: seq<Uuid>, now: Time, limit: int)
    requires IsBatch(Reached(c, ops), batch, now, limit)
    ensures forall i, k | 0 <= i < k < |batch| ::
      Reached(c, ops).attempts[batch[i]].job != Reached(c, ops).attempts[batch[k]].job
  {
    hide Inv, Run;
    ReachedInv(c, ops);
    SweptJobsDiffer(Reached(c, ops), batch, now, limit);
  }

  lemma SweptJobsDiffer(db: Db, batch: seq<Uuid>, now: Time, limit: int)
    requires IsBatch(db, batch, now, limit)
    requires Inv(db)
    ensures forall i, k | 0 <= i < k < |batch| :: db.attempts[batch[i]].job != db.attempts[batch[k]].job
  {
    hide Core, Rest, Newest, IsTop;
    forall i, k | 0 <= i < k < |batch| ensures db.attempts[batch[i]].job != db.attempts[batch[k]].job {
      CoreUnsettled(db, batch[i]);
      CoreUnsettled(db, batch[k]);
    }
  }

  // ---------------------------------------------------------------- quotas and history

  /** For every owner and every run the counters equal the number of queued and of active jobs. */
  lemma QuotasAreExact(c: Config, ops: seq<Op>, owner: Uuid)
    ensures
      var db := Reached(c, ops);
      && QuotaOf(db.quotas, owner).queued == |set j | j in db.jobs && db.jobs[j].owner == owner && db.jobs[j].state == Queued|
      && QuotaOf(db.quotas, owner).active
           == |set j | j in db.jobs && db.jobs[j].owner == owner && db.jobs[j].state in {Leased, Running, CancelRequested}|
  {
    hide Run, Rest, Chained, Leases, Counted, Recorded, InBudget, Settings, QuotaOf;
    ReachedInv(c, ops);
    CountersAreSizes(Reached(c, ops).jobs, Reached(c, ops).quotas, owner);
  }

  lemma CountersAreSizes(jobs: map<Uuid, Job>, quotas: map<Uuid, Quota>, owner: Uuid)
    requires Counted(jobs, quotas)
    ensures QuotaOf(quotas, owner).queued == |set j | j in jobs && jobs[j].owner == owner && jobs[j].state == Queued|
    ensures QuotaOf(quotas, owner).active
         == |set j | j in jobs && jobs[j].owner == owner && jobs[j].state in {Leased, Running, CancelRequested}|
  {
    assert QuotaOf(quotas, owner) == Quota(|QueuedJobs(jobs, owner)|, |ActiveJobs(jobs, owner)|);
    assert QueuedJobs(jobs, owner) == set j | j in jobs && jobs[j].owner == owner && jobs[j].state == Queued;
    assert ActiveJobs(jobs, owner)
        == set j | j in jobs && jobs[j].owner == owner && jobs[j].state in {Leased, Running, CancelRequested};
  }

  /** A job's history is one legal path that starts in the queue and ends in its current state. */
  lemma HistoryIsAPath(c: Config, ops: seq<Op>, j: Uuid)
    requires j in Reached(c, ops).jobs
    ensures
      var db := Reached(c, ops);
      && j in db.history && |db.history[j]| >= 1
      && db.history[j][0] == Transition(None, Queued)
      && (forall i | 0 < i < |db.history[j]| ::
            && db.history[j][i].from == Some(db.history[j][i - 1].to)
            && ValidTransition(db.history[j][i - 1].to, db.history[j][i].to))
      && db.history[j][|db.history[j]| - 1].to == db.jobs[j].state
  {
    hide Run, Rest, Chained, Leases, Counted, InBudget, Settings;
    ReachedInv(c, ops);
  }

  /**
   * SUCCEEDED and CANCELLED are never left, and CANCEL_REQUESTED leads only to CANCELLED, over every run;
   * the history only grows.
   */
  lemma FinalStatesStay(c: Config, before: seq<Op>, ops: seq<Op>, j: Uuid)
    requires j in Reached(c, before).jobs
    ensures
      var db := Reached(c, before);
      var later := Run(db, c, ops);
      && j in later.jobs && j in db.history && j in later.history && db.history[j] <= later.history[j]
      && (db.jobs[j].state in {Succeeded, Cancelled} ==> later.jobs[j].state == db.jobs[j].state)
      && (db.jobs[j].state == CancelRequested ==> later.jobs[j].state in {CancelRequested, Cancelled})
  {
    hide Inv, Run, AttemptsLater, ResultsLater, ArtifactsLater, LettersLater, InboxLater, KeysLater, ProgressLater, CatalogLater,
         Recorded;
    var db := Reached(c, before);
    ReachedInv(c, before);
    RunLater(db, c, ops);
    InvRecorded(db);
    HistoryKeys(db);
    assert JobLater(db.jobs[j], Run(db, c, ops).jobs[j]);
  }

  /** A finished attempt never changes again, so it left its lease once and for all. */
  lemma FinishedAttemptsStay(c: Config, before: seq<Op>, ops: seq<Op>, a: Uuid)
    requires a in Reached(c, before).attempts
    requires Reached(c, before).attempts[a].state in {AttemptSucceeded, AttemptFailed, AttemptTimedOut, AttemptCancelled}
    ensures
      var later := Run(Reached(c, before), c, ops);
      a in later.attempts && later.attempts[a] == Reached(c, before).attempts[a]
  {
    hide Inv, Run, Later;
    ReachedInv(c, before);
    RunLater(Reached(c, before), c, ops);
    FrozenAttempt(Reached(c, before), Run(Reached(c, before), c, ops), a);
  }

  // ---------------------------------------------------------------- fencing

  /** The only trace a finished attempt's lease can still leave: its own artifacts, and inbox rows. */
  ghost predicate OnlyStages(before: Db, after: Db, j: Uuid, a: Uuid) {
    && after == before.(inbox := after.inbox, artifacts := after.artifacts)
    && (forall r | r in before.artifacts ::
          && r in after.artifacts && after.artifacts[r].id == before.artifacts[r].id
          && after.artifacts[r].canonical == before.artifacts[r].canonical)
    && (forall r | r in after.artifacts && r !in before.artifacts :: r.0 == j && r.1 == a && !after.artifacts[r].canonical)
  }

  /** The attempt is over without success. */
  predicate IsOver(s: AttemptState) {
    s == AttemptFailed || s == AttemptTimedOut || s == AttemptCancelled
  }

  /**
   * Once an attempt has timed out, failed or been cancelled, then in every later state of every run its
   * lease, if it ever had one, cannot be renewed by anyone, and no message that names its lease does more
   * than stage an artifact of that attempt.
   */
  lemma StaleLeaseIsFenced(c: Config, before: seq<Op>, ops: seq<Op>, a: Uuid)
    requires a in Reached(c, before).attempts && IsOver(Reached(c, before).attempts[a].state)
    ensures Reached(c, before).attempts[a].lease.None? ==> Reached(c, before).attempts[a].state == AttemptCancelled
    ensures
      var attempt, later := Reached(c, before).attempts[a], Run(Reached(c, before), c, ops);
      attempt.lease.Some? ==>
      && (forall w, d, now :: Renew(later, c, attempt.lease.value, w, d, now).Rollback?)
      && (forall m, e: Event, now, ids | e.lease == attempt.lease.value ::
            OnlyStages(later, Process(later, m, e, now, ids).Settle(later), attempt.job, a))
  {
    hide Inv, Run, Renew, Process, OnlyStages;
    ReachedInv(c, before);
    OverHadLease(Reached(c, before), a);
    if Reached(c, before).attempts[a].lease.Some? {
      FencedFrom(Reached(c, before), c, ops, a);
    }
  }

  lemma FencedFrom(db: Db, c: Config, ops: seq<Op>, a: Uuid)
    requires a in db.attempts && IsOver(db.attempts[a].state) && db.attempts[a].lease.Some?
    requires Inv(db)
    ensures
      var later := Run(db, c, ops);
      var lease := db.attempts[a].lease.value;
      && (forall w, d, now :: Renew(later, c, lease, w, d, now).Rollback?)
      && (forall m, e: Event, now, ids | e.lease == lease ::
            OnlyStages(later, Process(later, m, e, now, ids).Settle(later), db.attempts[a].job, a))
  {
    hide Core, Rest, Run, Later, Renew, Process;
    RunLater(db, c, ops);
    var later := Run(db, c, ops);
    FrozenAttempt(db, later, a);
    var lease := later.attempts[a].lease.value;
    forall w, d, now ensures Renew(later, c, lease, w, d, now).Rollback? {
      CannotRenew(later, c, a, w, d, now);
    }
    forall m, e: Event, now, ids | e.lease == lease
      ensures OnlyStages(later, Process(later, m, e, now, ids).Settle(later), db.attempts[a].job, a)
    {
      CannotReport(later, db.attempts[a].job, a, m, e, now, ids);
    }
  }

  lemma FrozenAttempt(before: Db, after: Db, a: Uuid)
    requires a in before.attempts && AttemptRank(before.attempts[a].state) == 3
    requires Later(before, after)
    ensures a in after.attempts && after.attempts[a] == before.attempts[a]
  {
    assert AttemptLater(before.attempts[a], after.attempts[a]);
  }

  lemma OverHadLease(db: Db, a: Uuid)
    requires a in db.attempts && IsOver(db.attempts[a].state)
    requires Inv(db)
    ensures db.attempts[a].lease.None? ==> db.attempts[a].state == AttemptCancelled
  {
    hide Rest, Chained, Counted, Recorded, InBudget, Settings;
  }

  /** Two attempts never carry the same lease. */
  lemma LeaseIsUnique(db: Db, a: Uuid, b: Uuid)
    requires a in db.attempts && b in db.attempts && db.attempts[a].lease.Some? && db.attempts[a].lease == db.attempts[b].lease
    requires Inv(db)
    ensures a == b
  {
    hide Rest, Chained, Counted, Recorded, InBudget, Settings;
  }

  lemma CannotRenew(db: Db, c: Config, a: Uuid, w: Uuid, d: Time, now: Time)
    requires a in db.attempts && IsOver(db.attempts[a].state) && db.attempts[a].lease.Some?
    requires Inv(db)
    ensures Renew(db, c, db.attempts[a].lease.value, w, d, now).Rollback?
  {
    hide Inv;
    forall b | HoldsLease(db.attempts, b, db.attempts[a].lease.value, w) ensures b == a {
      LeaseIsUnique(db, a, b);
    }
  }

  lemma CannotReport(db: Db, j: Uuid, a: Uuid, m: Uuid, e: Event, now: Time, ids: NewIds)
    requires a in db.attempts && IsOver(db.attempts[a].state) && db.attempts[a].lease == Some(e.lease)
    requires j == db.attempts[a].job
    requires Inv(db)
    ensures OnlyStages(db, Process(db, m, e, now, ids).Settle(db), j, a)
  {
    hide Inv, Apply, ValidEvent, OnlyStages;
    NothingStaged(db, j, a);
    if m !in db.inbox && ValidEvent(e) {
      if e.ArtifactCreated? && e.attempt == a && e.job == j {
        StaleArtifact(db, a, e, now, ids);
      } else {
        StaleIsIgnored(db, a, e, now, ids);
      }
      if Apply(db, e, now, ids).Effect? {
        InboxIsNoStaging(db, Apply(db, e, now, ids).db, j, a, m, Apply(db, e, now, ids).status);
      }
    }
  }

  lemma NothingStaged(db: Db, j: Uuid, a: Uuid)
    ensures OnlyStages(db, db, j, a)
  {
  }

  lemma InboxIsNoStaging(db: Db, after: Db, j: Uuid, a: Uuid, m: Uuid, status: InboxStatus)
    requires OnlyStages(db, after, j, a)
    ensures OnlyStages(db, after.(inbox := after.inbox[m := status]), j, a)
  {
  }

  lemma StaleIsIgnored(db: Db, a: Uuid, e: Event, now: Time, ids: NewIds)
    requires a in db.attempts && IsOver(db.attempts[a].state) && db.attempts[a].lease == Some(e.lease)
    requires !(e.ArtifactCreated? && e.attempt == a && e.job == db.attempts[a].job)
    requires Inv(db)
    ensures Apply(db, e, now, ids) == Effect(db, Ignored)
  {
    hide Inv, RetryPolicy.Delay, Requeue, Move, Promote, ArtifactIdTaken, IsListed, Upserted;
    if e.attempt in db.attempts && db.attempts[e.attempt].lease == Some(e.lease) {
      LeaseIsUnique(db, a, e.attempt);
    }
  }

  /** An artifact of such an attempt is at most staged. */
  lemma StaleArtifact(db: Db, a: Uuid, e: Event, now: Time, ids: NewIds)
    requires a in db.attempts && IsOver(db.attempts[a].state)
    requires e.ArtifactCreated? && e.attempt == a && e.job == db.attempts[a].job
    requires Inv(db)
    ensures Apply(db, e, now, ids).Effect? ==> OnlyStages(db, Apply(db, e, now, ids).db, e.job, a)
  {
    hide Core, Rest, ArtifactIdTaken, ApplyStarted, ApplyProgressed, ApplySucceeded, ApplyFailed, ApplyCancelled, MatchesLease;
    ResultOf(db, a);
    assert !IsListed(db.projections, e.job, a, e.key);
    hide IsListed, ResultOk;
  }

  /** A message id that has taken effect changes nothing in any later state. */
  lemma RedeliveryIsInert(c: Config, before: seq<Op>, ops: seq<Op>, m: Uuid, e: Event, now: Time, ids: NewIds)
    requires m in Reached(c, before).inbox
    ensures
      var later := Run(Reached(c, before), c, ops);
      Process(later, m, e, now, ids).Settle(later) == later
  {
    var db := Reached(c, before);
    ReachedInv(c, before);
    hide Inv, AttemptsLater, JobsLater, HistoryLater, ArtifactsLater, ResultsLater, LettersLater, KeysLater, ProgressLater,
         CatalogLater, Run, Apply;
    RunLater(db, c, ops);
  }

  /** A result, once recorded, is the only one its attempt ever has. */
  lemma ResultIsFinal(c: Config, before: seq<Op>, ops: seq<Op>, a: Uuid)
    requires a in Reached(c, before).attempts
    requires (Reached(c, before).attempts[a].job, a) in Reached(c, before).projections
    ensures
      var db := Reached(c, before);
      var later := Run(db, c, ops);
      var row := (db.attempts[a].job, a);
      && row in later.projections && later.projections[row] == db.projections[row]
      && a in later.attempts && later.attempts[a] == db.attempts[a]
  {
    hide Core, Rest, Run;
    var db := Reached(c, before);
    ReachedInv(c, before);
    ResultOf(db, a);
    RunLater(db, c, ops);
    FrozenAttempt(db, Run(db, c, ops), a);
    hide AttemptsLater, JobsLater, HistoryLater, ArtifactsLater, LettersLater, InboxLater, KeysLater, ProgressLater, CatalogLater;
  }

  // ---------------------------------------------------------------- artifact promotion

  /** In every reachable state an artifact is canonical exactly when its attempt succeeded and lists it. */
  lemma CanonicalMeansListed(c: Config, ops: seq<Op>, r: (Uuid, Uuid, string))
    requires r in Reached(c, ops).artifacts
    ensures
      var db := Reached(c, ops);
      db.artifacts[r].canonical <==>
        && (r.0, r.1) in db.projections
        && db.projections[(r.0, r.1)].outcome == ResultSucceeded
        && r.2 in db.projections[(r.0, r.1)].keys
  {
    hide Run, Core, Projected, Lettered, Sourced, Keyed, Tracked;
    ReachedInv(c, ops);
  }

  ghost function Canonical(artifacts: map<(Uuid, Uuid, string), Artifact>): map<(Uuid, Uuid, string), Artifact> {
    map r | r in artifacts && artifacts[r].canonical :: artifacts[r]
  }

  ghost function Deliver(db: Db, m: Uuid, e: Event, now: Time, ids: NewIds): Db {
    Process(db, m, e, now, ids).Settle(db)
  }

  predicate SameRow(x: Artifact, y: Artifact) {
    x.id == y.id && x.lease == y.lease
  }

  /** The artifact message adds or confirms its row. */
  predicate Stages(db: Db, n: Uuid, t: Event)
    requires t.ArtifactCreated?
  {
    && ValidEvent(t) && n !in db.inbox
    && t.attempt in db.attempts && db.attempts[t.attempt].job == t.job && t.job in db.jobs
    && MatchesLease(db.attempts[t.attempt], t.lease, NIL)
    && (|| db.jobs[t.job].state == Leased || db.jobs[t.job].state == Running
        || (db.jobs[t.job].state == Succeeded && IsListed(db.projections, t.job, t.attempt, t.key)))
    && !ArtifactIdTaken(db.artifacts, t.id)
  }

  /** Rows stay the same artifacts, and only `row` may be new. */
  ghost predicate Gains(before: map<(Uuid, Uuid, string), Artifact>, after: map<(Uuid, Uuid, string), Artifact>,
                        row: (Uuid, Uuid, string), id: Uuid, lease: Uuid)
  {
    && (forall r | r in before :: r in after && SameRow(before[r], after[r]))
    && (forall r | r in after && r !in before :: r == row && after[r].id == id && after[r].lease == lease)
  }

  lemma UpsertGains(artifacts: map<(Uuid, Uuid, string), Artifact>, row: (Uuid, Uuid, string), id: Uuid, lease: Uuid, listed: bool)
    ensures Gains(artifacts, artifacts[row := Upserted(artifacts, row, Artifact(id, lease, listed))], row, id, lease)
    ensures Gains(artifacts, artifacts, row, id, lease)
  {
  }

  /** The things an artifact message can do. */
  lemma ArtifactOutcomes(db: Db, t: Event, now: Time, ids: NewIds, n: Uuid)
    requires t.ArtifactCreated? && ValidEvent(t) && n !in db.inbox
    ensures
      var row := (t.job, t.attempt, t.key);
      match Apply(db, t, now, ids)
      case Abort(_) => !Stages(db, n, t)
      case Effect(after, _) =>
        && after == db.(artifacts := after.artifacts)
        && Gains(db.artifacts, after.artifacts, row, t.id, t.lease)
        && (row in after.artifacts <==> row in db.artifacts || Stages(db, n, t))
  {
    hide ArtifactIdTaken, IsListed, Upserted, Gains, ApplyStarted, ApplyProgressed, ApplySucceeded, ApplyFailed, ApplyCancelled;
    UpsertGains(db.artifacts, (t.job, t.attempt, t.key), t.id, t.lease, IsListed(db.projections, t.job, t.attempt, t.key));
  }

  /** What an artifact message leaves behind, whatever its fate. */
  ghost predicate ArtifactDelivered(db: Db, after: Db, n: Uuid, t: Event)
    requires t.ArtifactCreated?
  {
    var row := (t.job, t.attempt, t.key);
    && after == db.(artifacts := after.artifacts, inbox := after.inbox)
    && (forall k | k != n :: k in after.inbox <==> k in db.inbox)
    && Gains(db.artifacts, after.artifacts, row, t.id, t.lease)
    && (row in after.artifacts <==> row in db.artifacts || Stages(db, n, t))
  }

  lemma RecordIsDelivered(db: Db, n: Uuid, t: Event, status: InboxStatus, artifacts: map<(Uuid, Uuid, string), Artifact>)
    requires t.ArtifactCreated?
    requires Gains(db.artifacts, artifacts, (t.job, t.attempt, t.key), t.id, t.lease)
    requires var row := (t.job, t.attempt, t.key); row in artifacts <==> row in db.artifacts || Stages(db, n, t)
    ensures ArtifactDelivered(db, db.(artifacts := artifacts, inbox := db.inbox[n := status]), n, t)
  {
    hide Gains, Stages;
  }

  lemma NothingIsDelivered(db: Db, n: Uuid, t: Event)
    requires t.ArtifactCreated? && (!Stages(db, n, t) || (t.job, t.attempt, t.key) in db.artifacts)
    ensures ArtifactDelivered(db, db, n, t)
  {
    hide Stages;
  }

  lemma DeliverArtifact(db: Db, n: Uuid, t: Event, now: Time, ids: NewIds)
    requires t.ArtifactCreated?
    ensures ArtifactDelivered(db, Deliver(db, n, t, now, ids), n, t)
  {
    hide Apply, Gains, Upserted, Stages, ValidEvent, ArtifactDelivered, IsListed, Process, Deliver;
    DeliverUnfolds(db, n, t, now, ids);
    if ValidEvent(t) && n !in db.inbox {
      ArtifactOutcomes(db, t, now, ids, n);
      if Apply(db, t, now, ids).Effect? {
        var next := Apply(db, t, now, ids).db;
        RecordIsDelivered(db, n, t, Apply(db, t, now, ids).status, next.artifacts);
        assert next.(inbox := next.inbox[n := Apply(db, t, now, ids).status])
            == db.(artifacts := next.artifacts, inbox := db.inbox[n := Apply(db, t, now, ids).status]);
      } else {
        NothingIsDelivered(db, n, t);
      }
    } else {
      if Stages(db, n, t) { StagesNeeds(db, n, t); }
      NothingIsDelivered(db, n, t);
    }
  }

  lemma DeliverUnfolds(db: Db, n: Uuid, t: Event, now: Time, ids: NewIds)
    ensures Deliver(db, n, t, now, ids)
         == if ValidEvent(t) && n !in db.inbox && Apply(db, t, now, ids).Effect?
            then Apply(db, t, now, ids).db.(inbox := Apply(db, t, now, ids).db.inbox[n := Apply(db, t, now, ids).status])
            else db
  {
    hide Apply, ValidEvent;
  }

  lemma StagesNeeds(db: Db, n: Uuid, t: Event)
    requires t.ArtifactCreated? && Stages(db, n, t)
    ensures ValidEvent(t) && n !in db.inbox
  {
  }

  /** The success message is accepted. */
  predicate Succeeds(db: Db, m: Uuid, s: Event)
    requires s.SucceededEvent?
  {
    && ValidEvent(s) && m !in db.inbox
    && s.attempt in db.attempts && db.attempts[s.attempt].job == s.job && s.job in db.jobs
    && MatchesLease(db.attempts[s.attempt], s.lease, s.worker)
    && db.jobs[s.job].state == Running && db.attempts[s.attempt].state == AttemptRunning
  }

  /** What a success message leaves behind, whatever its fate. */
  ghost predicate SuccessDelivered(db: Db, after: Db, m: Uuid, s: Event)
    requires s.SucceededEvent?
  {
    && (forall k | k != m :: k in after.inbox <==> k in db.inbox)
    && after.artifacts.Keys == db.artifacts.Keys
    && (forall r | r in db.artifacts :: SameRow(db.artifacts[r], after.artifacts[r]))
    && if Succeeds(db, m, s) then
         && after.jobs == db.jobs[s.job := db.jobs[s.job].(state := Succeeded)]
         && after.attempts == db.attempts[s.attempt := db.attempts[s.attempt].(state := AttemptSucceeded)]
         && after.projections == db.projections[(s.job, s.attempt) := Projection(ResultSucceeded, s.keys)]
       else after == db.(inbox := after.inbox)
  }

  lemma DeliverSuccess(db: Db, m: Uuid, s: Event, now: Time, ids: NewIds)
    requires s.SucceededEvent?
    ensures SuccessDelivered(db, Deliver(db, m, s, now, ids), m, s)
  {
    if Succeeds(db, m, s) {
      AcceptedSuccess(db, m, s, now, ids);
    } else {
      hide Move, Promote;
      var after := Deliver(db, m, s, now, ids);
      assert after == db.(inbox := after.inbox);
    }
  }

  lemma AcceptedSuccess(db: Db, m: Uuid, s: Event, now: Time, ids: NewIds)
    requires s.SucceededEvent? && Succeeds(db, m, s)
    ensures SuccessDelivered(db, Deliver(db, m, s, now, ids), m, s)
  {
    hide Transfer, MatchesLease;
  }

  lemma MoveIgnores(db: Db, db': Db, j: Uuid, a: Uuid, to: JobState, attempt: Attempt, at: Option<Time>)
    requires j in db.jobs && db' == db.(artifacts := db'.artifacts, inbox := db'.inbox)
    ensures Move(db', j, a, to, attempt, at) == Move(db, j, a, to, attempt, at).(artifacts := db'.artifacts, inbox := db'.inbox)
  {
  }

  /** What a success does to the other tables does not depend on the artifacts or the inbox. */
  lemma SuccessIgnoresArtifacts(db: Db, db': Db, m: Uuid, s: Event, now: Time, ids: NewIds)
    requires s.SucceededEvent? && db' == db.(artifacts := db'.artifacts, inbox := db'.inbox)
    requires m in db.inbox <==> m in db'.inbox
    ensures
      var x, y := Deliver(db, m, s, now, ids), Deliver(db', m, s, now, ids);
      y == x.(artifacts := y.artifacts, inbox := y.inbox)
  {
    hide Move, Promote;
    if Succeeds(db, m, s) {
      MoveIgnores(db, db', s.job, s.attempt, Succeeded, db.attempts[s.attempt].(state := AttemptSucceeded),
                  db.jobs[s.job].nextAttemptAt);
    }
  }

  /**
   * In every reachable state a success and an artifact message may arrive in either order: the canonical
   * artifacts are the same, and so is every other table except the inbox and the artifacts only staged.
   */
  lemma PromotionIgnoresOrder(c: Config, ops: seq<Op>, s: Event, t: Event, m: Uuid, n: Uuid, now: Time, ids: NewIds)
    requires s.SucceededEvent? && t.ArtifactCreated? && m != n
    ensures
      var db := Reached(c, ops);
      var x := Deliver(Deliver(db, m, s, now, ids), n, t, now, ids);
      var y := Deliver(Deliver(db, n, t, now, ids), m, s, now, ids);
      && Canonical(x.artifacts) == Canonical(y.artifacts)
      && y == x.(artifacts := y.artifacts, inbox := y.inbox)
  {
    hide Inv, Run, Deliver, Canonical;
    ReachedInv(c, ops);
    PromotionCommutes(Reached(c, ops), s, t, m, n, now, ids);
  }

  lemma PromotionCommutes(db: Db, s: Event, t: Event, m: Uuid, n: Uuid, now: Time, ids: NewIds)
    requires s.SucceededEvent? && t.ArtifactCreated? && m != n
    requires Inv(db)
    ensures
      var x := Deliver(Deliver(db, m, s, now, ids), n, t, now, ids);
      var y := Deliver(Deliver(db, n, t, now, ids), m, s, now, ids);
      && Canonical(x.artifacts) == Canonical(y.artifacts)
      && y == x.(artifacts := y.artifacts, inbox := y.inbox)
  {
    hide Inv, Process, SuccessDelivered, Canonical;
    var done, staged := Deliver(db, m, s, now, ids), Deliver(db, n, t, now, ids);
    var x, y := Deliver(done, n, t, now, ids), Deliver(staged, m, s, now, ids);
    DeliverArtifact(db, n, t, now, ids);
    DeliverArtifact(done, n, t, now, ids);
    DeliverSuccess(db, m, s, now, ids);
    DeliverSuccess(staged, m, s, now, ids);
    SuccessIgnoresArtifacts(db, staged, m, s, now, ids);
    assert y == done.(artifacts := y.artifacts, inbox := y.inbox);
    hide Deliver;
    DeliverKeepsInv(db, m, s, now, ids);
    DeliverKeepsInv(db, n, t, now, ids);
    DeliverKeepsInv(done, n, t, now, ids);
    DeliverKeepsInv(staged, m, s, now, ids);
    SameCanonical(db, done, staged, x, y, s, t, m, n);
  }

  lemma DeliverKeepsInv(db: Db, m: Uuid, e: Event, now: Time, ids: NewIds)
    requires Inv(db)
    ensures Inv(Deliver(db, m, e, now, ids))
  {
    hide Inv;
    if Process(db, m, e, now, ids).Commit? {
      ProcessKeepsInv(db, m, e, now, ids);
    }
  }

  /** Both orders end with the same listed rows. */
  lemma SameCanonical(db: Db, done: Db, staged: Db, x: Db, y: Db, s: Event, t: Event, m: Uuid, n: Uuid)
    requires s.SucceededEvent? && t.ArtifactCreated? && m != n
    requires SuccessDelivered(db, done, m, s) && ArtifactDelivered(done, x, n, t)
    requires ArtifactDelivered(db, staged, n, t) && SuccessDelivered(staged, y, m, s)
    requires x.projections == y.projections
    requires Inv(db) && Inv(x) && Inv(y)
    ensures Canonical(x.artifacts) == Canonical(y.artifacts)
  {
    hide Inv, IsListed, Stages, Succeeds, Canonical;
    SameStaging(db, done, s, t, m, n);
    CanonicalFrom(x, y, (t.job, t.attempt, t.key));
  }

  /** Two states with the same results agree on what is canonical if they agree on which listed rows exist. */
  lemma CanonicalFrom(x: Db, y: Db, row: (Uuid, Uuid, string))
    requires x.projections == y.projections
    requires forall r | r != row :: r in x.artifacts <==> r in y.artifacts
    requires IsListed(x.projections, row.0, row.1, row.2) ==> (row in x.artifacts <==> row in y.artifacts)
    requires forall r | r in x.artifacts && r in y.artifacts :: SameRow(x.artifacts[r], y.artifacts[r])
    requires Inv(x) && Inv(y)
    ensures Canonical(x.artifacts) == Canonical(y.artifacts)
  {
    hide Inv, IsListed;
    forall r | r in x.artifacts || r in y.artifacts
      ensures r in x.artifacts && x.artifacts[r].canonical <==> r in y.artifacts && y.artifacts[r].canonical
    {
      if r in x.artifacts { InvPromoted(x, r); }
      if r in y.artifacts { InvPromoted(y, r); }
    }
  }

  lemma InvPromoted(db: Db, r: (Uuid, Uuid, string))
    requires r in db.artifacts
    requires Inv(db)
    ensures db.artifacts[r].canonical <==> IsListed(db.projections, r.0, r.1, r.2)
  {
    hide Core, Projected, Lettered, Sourced, Keyed, Tracked, IsListed;
  }

  /** If the artifact ends up listed, it is accepted before the success exactly when it is after it. */
  lemma SameStaging(db: Db, done: Db, s: Event, t: Event, m: Uuid, n: Uuid)
    requires s.SucceededEvent? && t.ArtifactCreated?
    requires SuccessDelivered(db, done, m, s) && m != n
    requires Inv(db)
    ensures IsListed(done.projections, t.job, t.attempt, t.key) ==> (Stages(done, n, t) <==> Stages(db, n, t))
  {
    hide Core, Rest, Newest;
    assert ArtifactIdTaken(done.artifacts, t.id) <==> ArtifactIdTaken(db.artifacts, t.id) by {
      hide Inv;
      assert forall r | r in db.artifacts :: done.artifacts[r].id == db.artifacts[r].id;
      if ArtifactIdTaken(db.artifacts, t.id) {
        var r :| r in db.artifacts && db.artifacts[r].id == t.id;
        assert done.artifacts[r].id == t.id;
      }
    }
    hide ArtifactIdTaken;
    if t.attempt in db.attempts && db.attempts[t.attempt].job == t.job && t.job in db.jobs {
      ResultOf(db, t.attempt);
      if db.attempts[t.attempt].state == AttemptSucceeded {
        CoreUnsettled(db, t.attempt);
      }
    }
  }
}
