/** What holds of the tables in every reachable state. */
module JobInvariants {
  import opened Tables
  import opened JobLifecycle
  import opened JobTables
  import opened Datasets
  import opened JobSteps
  import RetryPolicy
  import WorkerRegistry

  // ---------------------------------------------------------------- attempts

  ghost predicate HasNumber(attempts: map<Uuid, Attempt>, j: Uuid, n: int) {
    exists a :: a in attempts && attempts[a].job == j && attempts[a].number == n
  }

  /** No two attempts of a job share a number. */
  ghost predicate Unique(attempts: map<Uuid, Attempt>) {
    forall a, b | a in attempts && b in attempts && attempts[a].job == attempts[b].job
                  && attempts[a].number == attempts[b].number :: a == b
  }

  /** The attempts of a job are numbered from 1 without gaps. */
  ghost predicate Gapless(attempts: map<Uuid, Attempt>) {
    forall a, n | a in attempts && 1 <= n <= attempts[a].number :: HasNumber(attempts, attempts[a].job, n)
  }

  /** `top` is the newest attempt of job `j`, and the only one that may be unsettled. */
  ghost predicate IsTop(job: Job, j: Uuid, attempts: map<Uuid, Attempt>, top: Uuid) {
    && top in attempts && attempts[top].job == j && attempts[top].number >= 1
    && Matches(job.state, attempts[top].state)
    && forall a | a in attempts && attempts[a].job == j && a != top ::
         1 <= attempts[a].number < attempts[top].number && IsSettled(attempts[a].state)
  }

  /** `newest` names the newest attempt of each job. */
  ghost predicate Topped(jobs: map<Uuid, Job>, attempts: map<Uuid, Attempt>, newest: map<Uuid, Uuid>) {
    && newest.Keys == jobs.Keys
    && (forall j {:trigger newest[j]} | j in jobs :: IsTop(jobs[j], j, attempts, newest[j]))
    && (forall a | a in attempts :: attempts[a].job in jobs)
  }

  /** Every job's attempts form one chain that ends in an attempt matching the job. */
  ghost predicate Chained(jobs: map<Uuid, Job>, attempts: map<Uuid, Attempt>) {
    && Unique(attempts)
    && Gapless(attempts)
    && exists newest :: Topped(jobs, attempts, newest)
  }

  /** A held attempt names its lease, its worker and its deadline; a finished one still names its lease. */
  predicate LeaseOk(a: Attempt) {
    && (a.state == AttemptCreated ==> a.lease.None? && a.worker.None?)
    && (IsHeld(a.state) ==> a.expiresAt.Some?)
    && (a.state != AttemptCreated && a.state != AttemptCancelled ==>
          && a.lease.Some? && a.lease.value != NIL
          && a.worker.Some? && a.worker.value != NIL)
  }

  ghost predicate Leases(attempts: map<Uuid, Attempt>) {
    && (forall a | a in attempts :: LeaseOk(attempts[a]))
    && (forall a, b | a in attempts && b in attempts && attempts[a].lease.Some? && attempts[a].lease == attempts[b].lease ::
          a == b)
  }

  // ---------------------------------------------------------------- quotas

  ghost function QueuedJobs(jobs: map<Uuid, Job>, owner: Uuid): set<Uuid> {
    set j | j in jobs && jobs[j].owner == owner && jobs[j].state == Queued
  }

  ghost function ActiveJobs(jobs: map<Uuid, Job>, owner: Uuid): set<Uuid> {
    set j | j in jobs && jobs[j].owner == owner && IsActive(jobs[j].state)
  }

  /** The counters say exactly how many jobs of the owner are queued and how many are active. */
  ghost predicate Counted(jobs: map<Uuid, Job>, quotas: map<Uuid, Quota>) {
    && (forall j | j in jobs :: jobs[j].owner in quotas)
    && (forall o :: QuotaOf(quotas, o) == Quota(|QueuedJobs(jobs, o)|, |ActiveJobs(jobs, o)|))
  }

  // ---------------------------------------------------------------- history and retry budget

  /** A connected, legal path from creation to state `s`. */
  ghost predicate IsPath(h: seq<Transition>, s: JobState) {
    && |h| >= 1
    && h[0] == Transition(None, Queued)
    && (forall i | 0 < i < |h| :: h[i].from == Some(h[i - 1].to) && ValidTransition(h[i - 1].to, h[i].to))
    && h[|h| - 1].to == s
  }

  ghost predicate Recorded(jobs: map<Uuid, Job>, history: map<Uuid, seq<Transition>>) {
    && history.Keys == jobs.Keys
    && forall j | j in jobs :: IsPath(history[j], jobs[j].state)
  }

  /** How often the job was taken back from the dead-letter state. */
  ghost function Revivals(h: seq<Transition>): nat {
    if h == [] then 0
    else Revivals(h[..|h| - 1]) + (if h[|h| - 1] == Transition(Some(DeadLettered), Queued) then 1 else 0)
  }

  ghost predicate InBudget(jobs: map<Uuid, Job>, attempts: map<Uuid, Attempt>, history: map<Uuid, seq<Transition>>) {
    && (forall j | j in jobs :: 1 <= jobs[j].maxAttempts <= MAX_ATTEMPTS)
    && (forall a | a in attempts ::
          && attempts[a].job in jobs
          && attempts[a].number <= jobs[attempts[a].job].maxAttempts + Revivals(HistoryOf(history, attempts[a].job)))
  }

  /** Only a queued job waits for a time, and every job has operations to select a worker by. */
  ghost predicate Settings(jobs: map<Uuid, Job>) {
    forall j | j in jobs ::
      && (jobs[j].nextAttemptAt.Some? ==> jobs[j].state == Queued)
      && jobs[j].operations != [] && "" !in jobs[j].operations
  }

  // ---------------------------------------------------------------- results

  /** An attempt has a result exactly when it succeeded, failed or was cancelled, and it says so. */
  ghost predicate ResultOk(attempt: Attempt, a: Uuid, projections: map<(Uuid, Uuid), Projection>) {
    var row := (attempt.job, a);
    match attempt.state
    case AttemptSucceeded => row in projections && projections[row].outcome == ResultSucceeded
    case AttemptFailed => row in projections && projections[row].outcome == ResultFailed
    case AttemptCancelled => row in projections && projections[row].outcome == ResultCancelled
    case _ => row !in projections
  }

  ghost predicate Projected(attempts: map<Uuid, Attempt>, projections: map<(Uuid, Uuid), Projection>) {
    && (forall a | a in attempts :: ResultOk(attempts[a], a, projections))
    && (forall p | p in projections :: p.1 in attempts && attempts[p.1].job == p.0)
  }

  /** An artifact is canonical exactly when its attempt succeeded and listed it. */
  ghost predicate Promoted(attempts: map<Uuid, Attempt>, projections: map<(Uuid, Uuid), Projection>,
                           artifacts: map<(Uuid, Uuid, string), Artifact>)
  {
    forall r | r in artifacts ::
      && r.1 in attempts && attempts[r.1].job == r.0
      && attempts[r.1].lease == Some(artifacts[r].lease)
      && (artifacts[r].canonical <==> IsListed(projections, r.0, r.1, r.2))
  }

  ghost predicate HasLetter(deadLetters: map<Uuid, DeadLetter>, j: Uuid, a: Uuid) {
    exists d :: d in deadLetters && deadLetters[d].job == j && deadLetters[d].attempt == a
  }

  /** Dead letters describe settled attempts, one each, and every dead-lettered job has its own. */
  ghost predicate Lettered(jobs: map<Uuid, Job>, attempts: map<Uuid, Attempt>, deadLetters: map<Uuid, DeadLetter>) {
    && (forall d | d in deadLetters ::
          && deadLetters[d].attempt in attempts
          && attempts[deadLetters[d].attempt].job == deadLetters[d].job
          && IsSettled(attempts[deadLetters[d].attempt].state)
          && attempts[deadLetters[d].attempt].lease == Some(deadLetters[d].lease)
          && attempts[deadLetters[d].attempt].number == deadLetters[d].number)
    && (forall d, e | d in deadLetters && e in deadLetters && deadLetters[d].attempt == deadLetters[e].attempt :: d == e)
    && (forall a | a in attempts && attempts[a].job in jobs && jobs[attempts[a].job].state == DeadLettered
                   && IsNewest(attempts, attempts[a].job, a) ::
          HasLetter(deadLetters, attempts[a].job, a))
  }

  // ---------------------------------------------------------------- sources, idempotency, progress

  /** A command agrees with its job, its attempt and its job's dataset version. */
  ghost predicate CommandOk(c: LeaseCommand, jobs: map<Uuid, Job>, attempts: map<Uuid, Attempt>, catalog: Catalog) {
    && c.job in jobs && c.attempt in attempts
    && jobs[c.job].version == c.version && jobs[c.job].operations == c.operations
    && attempts[c.attempt].job == c.job && attempts[c.attempt].number == c.number
    && attempts[c.attempt].lease == Some(c.lease) && attempts[c.attempt].worker == Some(c.worker)
    && c.version in catalog.versions && catalog.versions[c.version].size.Some?
    && c.source == SourceOf(c.version, catalog.versions[c.version])
  }

  ghost predicate Sourced(jobs: map<Uuid, Job>, attempts: map<Uuid, Attempt>, catalog: Catalog, commands: seq<LeaseCommand>) {
    && CatalogInv(catalog)
    && (forall j | j in jobs ::
          jobs[j].version in catalog.versions && catalog.versions[jobs[j].version].state == VersionAvailable)
    && (forall i | 0 <= i < |commands| :: CommandOk(commands[i], jobs, attempts, catalog))
  }

  ghost predicate Keyed(jobs: map<Uuid, Job>, idempotency: map<(Uuid, string), IdempotencyRecord>) {
    && (forall s | s in idempotency :: idempotency[s].job in jobs && jobs[idempotency[s].job].owner == s.0)
    && (forall s, t | s in idempotency && t in idempotency && idempotency[s].job == idempotency[t].job :: s == t)
  }

  ghost predicate Tracked(attempts: map<Uuid, Attempt>, progress: map<Uuid, Progress>) {
    forall j | j in progress ::
      && progress[j].attempt in attempts && attempts[progress[j].attempt].job == j
      && attempts[progress[j].attempt].lease == Some(progress[j].lease)
  }

  /** The part of the invariant that is about jobs, attempts, counters and history. */
  ghost predicate Core(db: Db) {
    && Chained(db.jobs, db.attempts)
    && Leases(db.attempts)
    && Counted(db.jobs, db.quotas)
    && Recorded(db.jobs, db.history)
    && InBudget(db.jobs, db.attempts, db.history)
    && Settings(db.jobs)
  }

  /** The part that is about what attempts leave behind. */
  ghost predicate Rest(db: Db) {
    && Projected(db.attempts, db.projections)
    && Promoted(db.attempts, db.projections, db.artifacts)
    && Lettered(db.jobs, db.attempts, db.deadLetters)
    && Sourced(db.jobs, db.attempts, db.catalog, db.commands)
    && Keyed(db.jobs, db.idempotency)
    && Tracked(db.attempts, db.progress)
  }

  ghost predicate Inv(db: Db) {
    Core(db) && Rest(db)
  }

  // ---------------------------------------------------------------- consequences of a chain

  lemma NewestIsTop(job: Job, j: Uuid, attempts: map<Uuid, Attempt>, top: Uuid)
    requires IsTop(job, j, attempts, top)
    ensures Newest(attempts, j) == Some(top)
  {
    assert IsNewest(attempts, j, top);
  }

  /** A job's newest attempt exists and matches the job's state; all others of the job are settled. */
  lemma NewestMatches(jobs: map<Uuid, Job>, attempts: map<Uuid, Attempt>, j: Uuid) returns (a: Uuid)
    requires Chained(jobs, attempts) && j in jobs
    ensures Newest(attempts, j) == Some(a) && IsTop(jobs[j], j, attempts, a)
  {
    var newest :| Topped(jobs, attempts, newest);
    a := newest[j];
    NewestIsTop(jobs[j], j, attempts, a);
  }

  /** An attempt that is not settled is its job's newest. */
  lemma UnsettledIsNewest(jobs: map<Uuid, Job>, attempts: map<Uuid, Attempt>, a: Uuid)
    requires Chained(jobs, attempts) && a in attempts && !IsSettled(attempts[a].state)
    ensures attempts[a].job in jobs && Newest(attempts, attempts[a].job) == Some(a)
    ensures IsTop(jobs[attempts[a].job], attempts[a].job, attempts, a)
  {
    var newest :| Topped(jobs, attempts, newest);
    var top := NewestMatches(jobs, attempts, attempts[a].job);
  }

  lemma ToppedAfterRewrite(jobs: map<Uuid, Job>, attempts: map<Uuid, Attempt>, newest: map<Uuid, Uuid>,
                           j: Uuid, row: Job, attempt: Attempt)
    requires Topped(jobs, attempts, newest) && j in jobs
    requires attempt.job == j && attempt.number == attempts[newest[j]].number && Matches(row.state, attempt.state)
    ensures Topped(jobs[j := row], attempts[newest[j] := attempt], newest)
  {
    var after := attempts[newest[j] := attempt];
    forall k | k in jobs ensures IsTop(jobs[j := row][k], k, after, newest[k]) {
      assert IsTop(jobs[k], k, attempts, newest[k]);
    }
  }

  lemma ToppedAfterInsert(jobs: map<Uuid, Job>, attempts: map<Uuid, Attempt>, newest: map<Uuid, Uuid>,
                          j: Uuid, row: Job, attempt: Attempt, next: Uuid, added: Attempt)
    requires Topped(jobs, attempts, newest) && j in jobs && next !in attempts
    requires attempt.job == j && attempt.number == attempts[newest[j]].number && IsSettled(attempt.state)
    requires added.job == j && added.number == attempt.number + 1 && Matches(row.state, added.state)
    ensures Topped(jobs[j := row], attempts[newest[j] := attempt][next := added], newest[j := next])
  {
    var after := attempts[newest[j] := attempt][next := added];
    forall k | k in jobs ensures IsTop(jobs[j := row][k], k, after, newest[j := next][k]) {
      assert IsTop(jobs[k], k, attempts, newest[k]);
    }
  }

  lemma SameNumbers(attempts: map<Uuid, Attempt>, a: Uuid, attempt: Attempt)
    requires Unique(attempts) && Gapless(attempts) && a in attempts
    requires attempt.job == attempts[a].job && attempt.number == attempts[a].number
    ensures Unique(attempts[a := attempt]) && Gapless(attempts[a := attempt])
  {
    var after := attempts[a := attempt];
    forall b, n | b in after && 1 <= n <= after[b].number ensures HasNumber(after, after[b].job, n) {
      assert HasNumber(attempts, attempts[b].job, n);
      var c :| c in attempts && attempts[c].job == attempts[b].job && attempts[c].number == n;
      assert after[c].job == after[b].job && after[c].number == n;
    }
  }

  lemma NextNumber(attempts: map<Uuid, Attempt>, a: Uuid, next: Uuid, added: Attempt)
    requires Unique(attempts) && Gapless(attempts) && a in attempts && next !in attempts
    requires forall b | b in attempts && attempts[b].job == attempts[a].job :: attempts[b].number <= attempts[a].number
    requires added.job == attempts[a].job && added.number == attempts[a].number + 1
    ensures Unique(attempts[next := added]) && Gapless(attempts[next := added])
  {
    var after := attempts[next := added];
    forall b, n | b in after && 1 <= n <= after[b].number ensures HasNumber(after, after[b].job, n) {
      if b == next && n == added.number {
        assert after[next].number == n;
      } else {
        var b' := if b == next then a else b;
        assert HasNumber(attempts, attempts[b'].job, n);
        var c :| c in attempts && attempts[c].job == attempts[b'].job && attempts[c].number == n;
        assert after[c] == attempts[c];
      }
    }
  }

  /** Rewriting the newest attempt in place keeps the chain. */
  lemma ChainAfterRewrite(jobs: map<Uuid, Job>, attempts: map<Uuid, Attempt>, j: Uuid, a: Uuid, row: Job, attempt: Attempt)
    requires Chained(jobs, attempts) && j in jobs && Newest(attempts, j) == Some(a)
    requires a in attempts && attempts[a].job == j
    requires attempt.job == j && attempt.number == attempts[a].number && Matches(row.state, attempt.state)
    ensures Chained(jobs[j := row], attempts[a := attempt])
  {
    var newest :| Topped(jobs, attempts, newest);
    NewestIsTop(jobs[j], j, attempts, newest[j]);
    SameNumbers(attempts, a, attempt);
    ToppedAfterRewrite(jobs, attempts, newest, j, row, attempt);
  }

  /** Adding the next attempt of a job whose newest is settled keeps the chain. */
  lemma ChainAfterInsert(jobs: map<Uuid, Job>, attempts: map<Uuid, Attempt>, j: Uuid, a: Uuid, row: Job, attempt: Attempt,
                         next: Uuid, added: Attempt)
    requires Chained(jobs, attempts) && j in jobs && Newest(attempts, j) == Some(a) && next !in attempts
    requires a in attempts && attempts[a].job == j
    requires attempt.job == j && attempt.number == attempts[a].number && IsSettled(attempt.state)
    requires added.job == j && added.number == attempt.number + 1 && Matches(row.state, added.state)
    ensures Chained(jobs[j := row], attempts[a := attempt][next := added])
  {
    hide Unique, Gapless, Newest;
    var newest :| Topped(jobs, attempts, newest);
    NewestIsTop(jobs[j], j, attempts, newest[j]);
    SameNumbers(attempts, a, attempt);
    NextNumber(attempts[a := attempt], a, next, added);
    ToppedAfterInsert(jobs, attempts, newest, j, row, attempt, next, added);
  }

  // ---------------------------------------------------------------- counting

  lemma QueuedAfter(jobs: map<Uuid, Job>, j: Uuid, row: Job, o: Uuid)
    ensures |QueuedJobs(jobs[j := row], o)|
         == |QueuedJobs(jobs, o)| - Bit(j in QueuedJobs(jobs, o)) + Bit(row.owner == o && row.state == Queued)
  {
    var before, after := QueuedJobs(jobs, o), QueuedJobs(jobs[j := row], o);
    assert after - {j} == before - {j};
    assert |after| == |after - {j}| + Bit(j in after);
    assert |before| == |before - {j}| + Bit(j in before);
  }

  lemma ActiveAfter(jobs: map<Uuid, Job>, j: Uuid, row: Job, o: Uuid)
    ensures |ActiveJobs(jobs[j := row], o)|
         == |ActiveJobs(jobs, o)| - Bit(j in ActiveJobs(jobs, o)) + Bit(row.owner == o && IsActive(row.state))
  {
    var before, after := ActiveJobs(jobs, o), ActiveJobs(jobs[j := row], o);
    assert after - {j} == before - {j};
    assert |after| == |after - {j}| + Bit(j in after);
    assert |before| == |before - {j}| + Bit(j in before);
  }

  /** Moving the counters by one job's change of state keeps them exact. */
  lemma CountedAfter(jobs: map<Uuid, Job>, quotas: map<Uuid, Quota>, j: Uuid, row: Job)
    requires Counted(jobs, quotas)
    requires j in jobs ==> jobs[j].owner == row.owner
    ensures Counted(jobs[j := row], Transfer(quotas, row.owner, if j in jobs then jobs[j].state else Created, row.state))
  {
    var from := if j in jobs then jobs[j].state else Created;
    var moved := Transfer(quotas, row.owner, from, row.state);
    forall o ensures QuotaOf(moved, o) == Quota(|QueuedJobs(jobs[j := row], o)|, |ActiveJobs(jobs[j := row], o)|) {
      QueuedAfter(jobs, j, row, o);
      ActiveAfter(jobs, j, row, o);
      assert QuotaOf(quotas, o) == Quota(|QueuedJobs(jobs, o)|, |ActiveJobs(jobs, o)|);
    }
  }

  // ---------------------------------------------------------------- leases and history

  lemma LeasesAfter(attempts: map<Uuid, Attempt>, a: Uuid, attempt: Attempt)
    requires Leases(attempts) && LeaseOk(attempt)
    requires
      || attempt.lease.None?
      || (a in attempts && attempt.lease == attempts[a].lease)
      || attempt.lease.value !in LeaseIds(attempts)
    ensures Leases(attempts[a := attempt])
  {
  }

  /** Appending a legal transition extends the path; `Revivals` grows only out of the dead-letter state. */
  lemma PathGrows(h: seq<Transition>, from: JobState, to: JobState)
    requires IsPath(h, from) && ValidTransition(from, to)
    ensures IsPath(h + [Transition(Some(from), to)], to)
    ensures Revivals(h + [Transition(Some(from), to)]) == Revivals(h) + (if from == DeadLettered && to == Queued then 1 else 0)
  {
    var grown := h + [Transition(Some(from), to)];
    assert grown[..|grown| - 1] == h;
  }

  /** A longer path never shrinks the budget, and may pay for one more attempt. */
  lemma BudgetAfter(jobs: map<Uuid, Job>, attempts: map<Uuid, Attempt>, history: map<Uuid, seq<Transition>>,
                    j: Uuid, row: Job, h: seq<Transition>, a: Uuid, attempt: Attempt)
    requires InBudget(jobs, attempts, history) && j in jobs && row.maxAttempts == jobs[j].maxAttempts
    requires Revivals(HistoryOf(history, j)) <= Revivals(h)
    requires attempt.job == j && attempt.number <= row.maxAttempts + Revivals(h)
    ensures InBudget(jobs[j := row], attempts[a := attempt], history[j := h])
  {
  }

  // ---------------------------------------------------------------- the two ways a job moves

  lemma WithinBudget(db: Db, a: Uuid)
    requires InBudget(db.jobs, db.attempts, db.history) && a in db.attempts
    ensures
      var attempt := db.attempts[a];
      && attempt.job in db.jobs && 1 <= db.jobs[attempt.job].maxAttempts <= MAX_ATTEMPTS
      && attempt.number <= db.jobs[attempt.job].maxAttempts + Revivals(HistoryOf(db.history, attempt.job))
  {
  }

  /** `Move` keeps the core when the transition is legal and the attempt's new state fits it. */
  lemma MoveKeepsCore(db: Db, j: Uuid, a: Uuid, to: JobState, attempt: Attempt, nextAttemptAt: Option<Time>)
    requires Core(db) && j in db.jobs && Newest(db.attempts, j) == Some(a)
    requires ValidTransition(db.jobs[j].state, to) && Matches(to, attempt.state)
    requires a in db.attempts && db.attempts[a].job == j && attempt.job == j && attempt.number == db.attempts[a].number && LeaseOk(attempt)
    requires attempt.lease == db.attempts[a].lease || (attempt.lease.Some? && attempt.lease.value !in LeaseIds(db.attempts))
    requires nextAttemptAt.Some? ==> to == Queued
    ensures Core(Move(db, j, a, to, attempt, nextAttemptAt))
  {
    hide Chained, Leases, Counted, IsPath, InBudget, Newest, Matches, LeaseOk, LeaseIds, Transfer;
    WithinBudget(db, a);
    var next := Move(db, j, a, to, attempt, nextAttemptAt);
    ChainAfterRewrite(db.jobs, db.attempts, j, a, next.jobs[j], attempt);
    LeasesAfter(db.attempts, a, attempt);
    CountedAfter(db.jobs, db.quotas, j, next.jobs[j]);
    PathGrows(db.history[j], db.jobs[j].state, to);
    BudgetAfter(db.jobs, db.attempts, db.history, j, next.jobs[j], next.history[j], a, attempt);
  }

  /** `Requeue` keeps the core when the old attempt is settled and the budget allows another. */
  lemma RequeueKeepsCore(db: Db, j: Uuid, a: Uuid, attempt: Attempt, next: Uuid, nextAttemptAt: Option<Time>)
    requires Core(db) && j in db.jobs && Newest(db.attempts, j) == Some(a)
    requires ValidTransition(db.jobs[j].state, Queued)
    requires a in db.attempts && db.attempts[a].job == j && attempt.job == j && attempt.number == db.attempts[a].number && LeaseOk(attempt)
    requires attempt.lease == db.attempts[a].lease && IsSettled(attempt.state)
    requires next !in db.attempts
    requires attempt.number + 1 <= db.jobs[j].maxAttempts || db.jobs[j].state == DeadLettered
    ensures Core(Requeue(db, j, a, attempt, next, nextAttemptAt))
  {
    hide Chained, Leases, Counted, IsPath, InBudget, Newest, LeaseIds, Transfer;
    WithinBudget(db, a);
    var after := Requeue(db, j, a, attempt, next, nextAttemptAt);
    var added := after.attempts[next];
    ChainAfterInsert(db.jobs, db.attempts, j, a, after.jobs[j], attempt, next, added);
    LeasesAfter(db.attempts, a, attempt);
    LeasesAfter(db.attempts[a := attempt], next, added);
    CountedAfter(db.jobs, db.quotas, j, after.jobs[j]);
    PathGrows(db.history[j], db.jobs[j].state, Queued);
    BudgetAfter(db.jobs, db.attempts, db.history, j, after.jobs[j], after.history[j], a, attempt);
    BudgetAfter(after.jobs, db.attempts[a := attempt], after.history, j, after.jobs[j], after.history[j], next, added);
    assert after.jobs[j := after.jobs[j]] == after.jobs && after.history[j := after.history[j]] == after.history;
  }

  // ---------------------------------------------------------------- what a rewritten attempt leaves behind

  /** `after` is the same attempt later on: its identity stays, and so does a lease once given. */
  predicate Continues(before: Attempt, after: Attempt) {
    && after.job == before.job && after.number == before.number
    && (before.lease.Some? ==> after.lease == before.lease && after.worker == before.worker)
  }

  ghost predicate SameResultsBut(before: map<(Uuid, Uuid), Projection>, after: map<(Uuid, Uuid), Projection>, row: (Uuid, Uuid)) {
    && (forall p | p in before && p != row :: p in after && after[p] == before[p])
    && (forall p | p in after && p != row :: p in before)
  }

  lemma ProjectedAfter(attempts: map<Uuid, Attempt>, before: map<(Uuid, Uuid), Projection>, a: Uuid, attempt: Attempt,
                       after: map<(Uuid, Uuid), Projection>)
    requires Projected(attempts, before) && a in attempts && attempt.job == attempts[a].job
    requires SameResultsBut(before, after, (attempt.job, a)) && ResultOk(attempt, a, after)
    ensures Projected(attempts[a := attempt], after)
  {
    forall b | b in attempts && b != a ensures ResultOk(attempts[b], b, after) {
      assert ResultOk(attempts[b], b, before);
    }
  }

  lemma PromotedAfter(attempts: map<Uuid, Attempt>, before: map<(Uuid, Uuid), Projection>,
                      artifacts: map<(Uuid, Uuid, string), Artifact>, a: Uuid, attempt: Attempt,
                      after: map<(Uuid, Uuid), Projection>)
    requires Promoted(attempts, before, artifacts) && Projected(attempts, before)
    requires a in attempts && Continues(attempts[a], attempt)
    requires attempts[a].state != AttemptSucceeded && attempt.state != AttemptSucceeded
    requires SameResultsBut(before, after, (attempt.job, a)) && ResultOk(attempt, a, after)
    ensures Promoted(attempts[a := attempt], after, artifacts)
  {
    assert ResultOk(attempts[a], a, before);
    forall r | r in artifacts ensures IsListed(after, r.0, r.1, r.2) <==> IsListed(before, r.0, r.1, r.2) {
    }
  }

  lemma NewestElsewhere(attempts: map<Uuid, Attempt>, a: Uuid, attempt: Attempt, k: Uuid, b: Uuid)
    requires a in attempts ==> attempt.job == attempts[a].job
    requires k != attempt.job && IsNewest(attempts[a := attempt], k, b)
    ensures IsNewest(attempts, k, b)
  {
    var after := attempts[a := attempt];
    forall x | x in attempts && attempts[x].job == k ensures attempts[x].number <= attempts[b].number {
      assert after[x] == attempts[x];
    }
  }

  lemma LetteredAfter(jobs: map<Uuid, Job>, attempts: map<Uuid, Attempt>, letters: map<Uuid, DeadLetter>,
                      j: Uuid, row: Job, a: Uuid, attempt: Attempt)
    requires Lettered(jobs, attempts, letters) && row.state != DeadLettered
    requires a in attempts && attempts[a].job == j && Continues(attempts[a], attempt)
    requires IsSettled(attempts[a].state) ==> IsSettled(attempt.state)
    ensures Lettered(jobs[j := row], attempts[a := attempt], letters)
  {
    var after := attempts[a := attempt];
    forall b | b in after && after[b].job in jobs && jobs[j := row][after[b].job].state == DeadLettered
               && IsNewest(after, after[b].job, b)
      ensures HasLetter(letters, after[b].job, b)
    {
      NewestElsewhere(attempts, a, attempt, after[b].job, b);
    }
  }

  lemma LetteredAfterDeath(jobs: map<Uuid, Job>, attempts: map<Uuid, Attempt>, letters: map<Uuid, DeadLetter>,
                           j: Uuid, row: Job, a: Uuid, attempt: Attempt, d: Uuid, letter: DeadLetter)
    requires Lettered(jobs, attempts, letters) && j in jobs && IsTop(jobs[j], j, attempts, a)
    requires Continues(attempts[a], attempt) && !IsSettled(attempts[a].state) && IsSettled(attempt.state)
    requires d !in letters && letter.job == j && letter.attempt == a
    requires attempt.lease == Some(letter.lease) && attempt.number == letter.number
    ensures Lettered(jobs[j := row], attempts[a := attempt], letters[d := letter])
  {
    var after := attempts[a := attempt];
    var grown := letters[d := letter];
    assert grown[d] == letter;
    forall b | b in after && after[b].job in jobs && jobs[j := row][after[b].job].state == DeadLettered
               && IsNewest(after, after[b].job, b)
      ensures HasLetter(grown, after[b].job, b)
    {
      if after[b].job == j {
        assert after[a].number <= after[b].number;
        assert b == a;
      } else {
        NewestElsewhere(attempts, a, attempt, after[b].job, b);
        assert HasLetter(letters, after[b].job, b);
        var e :| e in letters && letters[e].job == after[b].job && letters[e].attempt == b;
        assert grown[e] == letters[e];
      }
    }
  }

  lemma SourcedAfter(jobs: map<Uuid, Job>, attempts: map<Uuid, Attempt>, catalog: Catalog, commands: seq<LeaseCommand>,
                     j: Uuid, row: Job, a: Uuid, attempt: Attempt)
    requires Sourced(jobs, attempts, catalog, commands) && j in jobs
    requires row.version == jobs[j].version && row.operations == jobs[j].operations
    requires a in attempts && Continues(attempts[a], attempt)
    ensures Sourced(jobs[j := row], attempts[a := attempt], catalog, commands)
  {
    forall i | 0 <= i < |commands| ensures CommandOk(commands[i], jobs[j := row], attempts[a := attempt], catalog) {
      assert CommandOk(commands[i], jobs, attempts, catalog);
    }
  }

  /** All of the above for one rewritten attempt, unless it is the one that succeeds or is dead-lettered. */
  lemma RewriteKeepsRest(db: Db, j: Uuid, row: Job, a: Uuid, attempt: Attempt, results: map<(Uuid, Uuid), Projection>)
    requires Rest(db) && j in db.jobs && a in db.attempts && db.attempts[a].job == j
    requires row.owner == db.jobs[j].owner && row.version == db.jobs[j].version && row.operations == db.jobs[j].operations
    requires row.state != DeadLettered
    requires Continues(db.attempts[a], attempt) && (IsSettled(db.attempts[a].state) ==> IsSettled(attempt.state))
    requires db.attempts[a].state != AttemptSucceeded && attempt.state != AttemptSucceeded
    requires SameResultsBut(db.projections, results, (j, a)) && ResultOk(attempt, a, results)
    ensures Rest(db.(jobs := db.jobs[j := row], attempts := db.attempts[a := attempt], projections := results))
  {
    hide Lettered, Sourced, Projected, Promoted, ResultOk, SameResultsBut;
    ProjectedAfter(db.attempts, db.projections, a, attempt, results);
    PromotedAfter(db.attempts, db.projections, db.artifacts, a, attempt, results);
    LetteredAfter(db.jobs, db.attempts, db.deadLetters, j, row, a, attempt);
    SourcedAfter(db.jobs, db.attempts, db.catalog, db.commands, j, row, a, attempt);
  }

  /** As above for an attempt that takes its job to the dead-letter state. */
  lemma DeathKeepsRest(db: Db, j: Uuid, row: Job, a: Uuid, attempt: Attempt, results: map<(Uuid, Uuid), Projection>,
                       d: Uuid, letter: DeadLetter)
    requires Rest(db) && j in db.jobs && IsTop(db.jobs[j], j, db.attempts, a)
    requires row.owner == db.jobs[j].owner && row.version == db.jobs[j].version && row.operations == db.jobs[j].operations
    requires Continues(db.attempts[a], attempt) && !IsSettled(db.attempts[a].state) && IsSettled(attempt.state)
    requires db.attempts[a].state != AttemptSucceeded
    requires SameResultsBut(db.projections, results, (j, a)) && ResultOk(attempt, a, results)
    requires d !in db.deadLetters && letter.job == j && letter.attempt == a
    requires attempt.lease == Some(letter.lease) && attempt.number == letter.number
    ensures Rest(db.(jobs := db.jobs[j := row], attempts := db.attempts[a := attempt], projections := results,
                     deadLetters := db.deadLetters[d := letter]))
  {
    hide Lettered, Sourced, Projected, Promoted, ResultOk, SameResultsBut;
    ProjectedAfter(db.attempts, db.projections, a, attempt, results);
    PromotedAfter(db.attempts, db.projections, db.artifacts, a, attempt, results);
    LetteredAfterDeath(db.jobs, db.attempts, db.deadLetters, j, row, a, attempt, d, letter);
    SourcedAfter(db.jobs, db.attempts, db.catalog, db.commands, j, row, a, attempt);
  }

  /** A new attempt of a queued job has left nothing behind yet. */
  lemma InsertKeepsRest(db: Db, next: Uuid, added: Attempt)
    requires Rest(db) && next !in db.attempts && added.state == AttemptCreated
    requires added.job in db.jobs && db.jobs[added.job].state != DeadLettered
    ensures Rest(db.(attempts := db.attempts[next := added]))
  {
    var after := db.attempts[next := added];
    forall b | b in db.attempts ensures ResultOk(after[b], b, db.projections) {
      assert ResultOk(db.attempts[b], b, db.projections);
    }
    forall i | 0 <= i < |db.commands| ensures CommandOk(db.commands[i], db.jobs, after, db.catalog) {
      assert CommandOk(db.commands[i], db.jobs, db.attempts, db.catalog);
    }
    forall b | b in after && after[b].job in db.jobs && db.jobs[after[b].job].state == DeadLettered
               && IsNewest(after, after[b].job, b)
      ensures HasLetter(db.deadLetters, after[b].job, b)
    {
      NewestElsewhere(db.attempts, next, added, after[b].job, b);
    }
  }
}
