/** A concrete run: owner 1 has dataset 1 with version 2, worker 3 is ready, and job 4 runs on it as attempt 5 under lease 6. */
module JobScenario {
  import opened Tables
  import opened JobLifecycle
  import opened JobTables
  import opened Datasets
  import opened JobSteps
  import opened JobInvariants
  import opened JobPreservation
  import opened JobTheorems
  import WorkerRegistry

  lemma {:induction false} RunInTwo(db: Db, c: Config, a: seq<Op>, b: seq<Op>)
    ensures Run(db, c, a + b) == Run(Run(db, c, a), c, b)
    decreases |a|
  {
    hide Step;
    if a == [] {
      assert [] + b == b;
    } else {
      assert (a + b)[0] == a[0] && (a + b)[1..] == a[1..] + b;
      RunInTwo(Step(db, c, a[0]), c, a[1..], b);
    }
  }

  lemma OneMore(c: Config, ops: seq<Op>, op: Op)
    ensures Reached(c, ops + [op]) == Step(Reached(c, ops), c, op)
  {
    hide Step;
    RunInTwo(EMPTY, c, ops, [op]);
    assert [op][1..] == [];
    assert Run(Reached(c, ops), c, [op]) == Run(Step(Reached(c, ops), c, op), c, []);
  }

  const PROFILE := {"PROFILE_DATASET"}

  const SETUP := [
    OpCatalog(OpCreateDataset(1, 1)),
    OpCatalog(OpReserve(1, 2, "text/csv", "CSV")),
    OpCatalog(OpFinalize(1, 2, 10, "sum", true)),
    OpWorker(WorkerRegistry.Registration(3, "i", PROFILE, 1, 0), 0),
    OpWorker(WorkerRegistry.Heartbeat(3, "i", PROFILE, Ready, 1, 0), 0)]

  /** Version 2 is available and worker 3 is ready; there is no job yet. */
  ghost predicate IsSetUp(db: Db) {
    db == EMPTY.(
      catalog := Catalog(map[1 := Dataset(1, DatasetAvailable, None)],
                         map[2 := Version(1, VersionAvailable, "text/csv", "CSV", Some(10), Some("sum"))]),
      workers := map[3 := Worker("i", PROFILE, Ready, 1, 0, 0, Some(0), None)])
  }

  lemma SetUp(c: Config)
    ensures IsSetUp(Reached(c, SETUP))
  {
    var a, b := SETUP[..3], SETUP[3..];
    assert SETUP == a + b;
    RunInTwo(EMPTY, c, a, b);
    SetUpCatalog(c);
    hide Run;
    SetUpWorker(Run(EMPTY, c, a), c);
  }

  lemma SetUpWorker(db: Db, c: Config)
    requires db.workers == map[]
    ensures Run(db, c, SETUP[3..]) == db.(workers := map[3 := Worker("i", PROFILE, Ready, 1, 0, 0, Some(0), None)])
  {
    var b := SETUP[3..];
    assert b[1..] == [SETUP[4]] && b[1..][1..] == [];
    var one := Step(db, c, b[0]);
    assert one == db.(workers := map[3 := Worker("i", PROFILE, Starting, 1, 0, 0, None, None)]);
    var two := Step(one, c, b[1]);
    assert two == db.(workers := map[3 := Worker("i", PROFILE, Ready, 1, 0, 0, Some(0), None)]);
    hide Step;
    assert Run(db, c, b) == Run(one, c, b[1..]) == Run(two, c, []);
  }

  lemma SetUpCatalog(c: Config)
    ensures Run(EMPTY, c, SETUP[..3])
         == EMPTY.(catalog := Catalog(map[1 := Dataset(1, DatasetAvailable, None)],
                                      map[2 := Version(1, VersionAvailable, "text/csv", "CSV", Some(10), Some("sum"))]))
  {
    var a := SETUP[..3];
    assert a[1..] == [a[1], a[2]] && a[1..][1..] == [a[2]] && a[1..][1..][1..] == [];
    var one := Step(EMPTY, c, a[0]);
    assert one.catalog == Catalog(map[1 := Dataset(1, DatasetRegistered, None)], map[]);
    var two := Step(one, c, a[1]);
    assert two.catalog == Catalog(map[1 := Dataset(1, DatasetUploading, None)],
                                  map[2 := Version(1, VersionUploading, "text/csv", "CSV", None, None)]);
    var three := Step(two, c, a[2]);
    assert three.catalog == Catalog(map[1 := Dataset(1, DatasetAvailable, None)],
                                    map[2 := Version(1, VersionAvailable, "text/csv", "CSV", Some(10), Some("sum"))]);
    assert Run(EMPTY, c, a) == Run(one, c, a[1..]) == Run(two, c, a[1..][1..]) == Run(three, c, []);
  }

  const COMMAND := CreateCommand(1, 1, 2, ["PROFILE_DATASET"], "", 0, 2, "t", "f")
  const NO_IDS := NewIds(NIL, NIL, 0)

  /** Creates job 4, leases its attempt 5 to worker 3 under lease 6, and starts it. */
  const START_JOB := SETUP + [OpCreate(COMMAND, 4, 5)] + [OpAcquire(4, 0, 0, {}, 6)] + [OpDeliver(7, Started(4, 5, 6, 3, 1), 0, NO_IDS)]

  /** The owner's job 4 and the tables a creation looks at, whatever else there is. */
  ghost predicate IsRunning(db: Db, c: Config) {
    && 4 in db.jobs && db.jobs[4] == Job(1, 2, Running, ["PROFILE_DATASET"], 2, None)
    && 5 in db.attempts && db.attempts[5] == Attempt(4, 1, AttemptRunning, Some(6), Some(3), Some(c.leaseDuration))
    && 8 !in db.inbox && 9 !in db.attempts
    && db.catalog.datasets == map[1 := Dataset(1, DatasetAvailable, None)]
    && db.catalog.versions == map[2 := Version(1, VersionAvailable, "text/csv", "CSV", Some(10), Some("sum"))]
  }

  lemma CommandIsValid()
    ensures ValidCreate(COMMAND)
  {
    assert KnownOperation("PROFILE_DATASET");
  }

  lemma JobRuns(c: Config)
    requires ValidConfig(c) && c.heartbeatTtl >= 0
    ensures
      var db := Reached(c, START_JOB);
      IsRunning(db, c) && db.jobs.Keys == {4} && db.attempts.Keys == {5} && QuotaOf(db.quotas, 1) == Quota(0, 1)
  {
    var create, acquire, start := OpCreate(COMMAND, 4, 5), OpAcquire(4, 0, 0, {}, 6), OpDeliver(7, Started(4, 5, 6, 3, 1), 0, NO_IDS);
    SetUp(c);
    OneMore(c, SETUP, create);
    OneMore(c, SETUP + [create], acquire);
    OneMore(c, SETUP + [create] + [acquire], start);
    ReachedInv(c, SETUP + [create]);
    hide Run, Inv;
    CreationWorks(Reached(c, SETUP), c);
    AcquisitionWorks(Reached(c, SETUP + [create]), c);
    StartWorks(Reached(c, SETUP + [create] + [acquire]), c);
  }

  ghost predicate IsCreated(db: Db) {
    && db.jobs == map[4 := Job(1, 2, Queued, ["PROFILE_DATASET"], 2, None)]
    && db.attempts == map[5 := Attempt(4, 1, AttemptCreated, None, None, None)]
    && db.quotas == map[1 := Quota(1, 0)] && db.inbox == map[]
    && db.workers == map[3 := Worker("i", PROFILE, Ready, 1, 0, 0, Some(0), None)]
    && db.catalog.datasets == map[1 := Dataset(1, DatasetAvailable, None)]
    && db.catalog.versions == map[2 := Version(1, VersionAvailable, "text/csv", "CSV", Some(10), Some("sum"))]
  }

  lemma CreationWorks(db: Db, c: Config)
    requires IsSetUp(db)
    ensures IsCreated(Step(db, c, OpCreate(COMMAND, 4, 5)))
  {
    CommandIsValid();
    hide ValidCreate;
  }

  ghost predicate IsLeased(db: Db, c: Config) {
    && db.jobs == map[4 := Job(1, 2, Leased, ["PROFILE_DATASET"], 2, None)]
    && db.attempts == map[5 := Attempt(4, 1, AttemptLeased, Some(6), Some(3), Some(c.leaseDuration))]
    && db.quotas == map[1 := Quota(0, 1)] && db.inbox == map[]
    && db.catalog.datasets == map[1 := Dataset(1, DatasetAvailable, None)]
    && db.catalog.versions == map[2 := Version(1, VersionAvailable, "text/csv", "CSV", Some(10), Some("sum"))]
  }

  lemma AcquisitionWorks(db: Db, c: Config)
    requires IsCreated(db) && ValidConfig(c) && c.heartbeatTtl >= 0
    requires Inv(db)
    ensures IsLeased(Step(db, c, OpAcquire(4, 0, 0, {}, 6)), c)
  {
    hide Core, Rest, Newest, WorkerRegistry.Choose, WorkerRegistry.HasRoom, LeaseIds;
    var a := CoreNewest(db, 4);
    assert a == 5;
    WorkerIsChosen(db, 0 - c.heartbeatTtl);
    NoLeaseYet(db.attempts);
  }

  lemma NoLeaseYet(attempts: map<Uuid, Attempt>)
    requires attempts == map[5 := Attempt(4, 1, AttemptCreated, None, None, None)]
    ensures LeaseIds(attempts) == {}
  {
  }

  lemma WorkerIsChosen(db: Db, cutoff: Time)
    requires IsCreated(db) && cutoff <= 0
    ensures WorkerRegistry.Choose(db.workers, db.attempts, OperationSet(["PROFILE_DATASET"]), cutoff, {}) == Some(3)
  {
    hide WorkerRegistry.Choose;
    var required := OperationSet(["PROFILE_DATASET"]);
    assert required == PROFILE;
    assert HeldBy(db.attempts, 3) == {};
    assert WorkerRegistry.IsCandidate(db.workers, required, cutoff, {}, 3) && WorkerRegistry.HasRoom(db.workers, db.attempts, 3);
    WorkerRegistry.ChooseIsComplete(db.workers, db.attempts, required, cutoff, {});
  }

  lemma StartWorks(db: Db, c: Config)
    requires IsLeased(db, c)
    ensures
      var after := Step(db, c, OpDeliver(7, Started(4, 5, 6, 3, 1), 0, NO_IDS));
      IsRunning(after, c) && after.jobs.Keys == {4} && after.attempts.Keys == {5} && QuotaOf(after.quotas, 1) == Quota(0, 1)
  {
    hide ApplyProgressed, ApplySucceeded, ApplyFailed, ApplyCancelled, ApplyArtifact;
    var e := Started(4, 5, 6, 3, 1);
    assert Apply(db, e, 0, NO_IDS)
        == Effect(Move(db, 4, 5, Running, db.attempts[5].(state := AttemptRunning), None), Applied);
  }
}
