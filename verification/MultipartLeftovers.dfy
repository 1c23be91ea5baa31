/** Two claimed sessions that an undisturbed sweep does not settle, each in a state reached from the start. */
module MultipartLeftovers {
  import opened Tables
  import opened Datasets
  import opened UploadSessions
  import opened Multipart
  import opened MultipartSafety
  import opened MultipartProgress
  import opened MultipartAborts
  import opened MultipartOutcomes

  const CONTENT := Content(10, "sum", true)

  /** A step at time 20 that is answered and assembles the object. */
  const STEP := Choice(false, false, true, CONTENT, 9, 20)

  const CLAIM := StartComplete(4, 3, 1, 0, 0, 5)

  lemma TwoActs(e: Effect, x: Choice)
    ensures ActAll(e, [x, x]) == Act(Act(e, x), x)
  {
    hide Act;
    assert [x, x][1..] == [x] && [x][1..] == [];
    assert ActAll(e, [x, x]) == ActAll(Act(e, x), [x]) == ActAll(Act(Act(e, x), x), []);
  }

  /** A completer stops once its object is assembled. */
  lemma Assembles(m: Sys)
    requires 4 in m.tasks && m.tasks[4].session in m.sessions && m.tasks[4].session in m.remotes && IsPromising(Load(m, 4), CONTENT)
    ensures
      var n := Run(m, Advances(4, [STEP, STEP]));
      n == Store(m, 4, Load(m, 4).(remote := Assembled(CONTENT), stored := Some(CONTENT), task := m.tasks[4].(pc := Heading)))
  {
    StoreLoad(m, 4);
    RunOfOneTask(m, 4, Load(m, 4), [STEP, STEP]);
    TwoActs(Load(m, 4), STEP);
    hide Run, Advances, ActAll;
  }

  lemma SweepClaims(m: Sys, k: Uuid, s: Uuid, now: Time)
    requires k !in m.tasks && s in m.sessions && IsClaimable(m.sessions[s], now, now)
    ensures Step(m, StartSweep(k, s, now, now))
         == m.(sessions := m.sessions[s := Released(m.sessions[s], SessionAborting).(updatedAt := now)],
               tasks := m.tasks[k := Task(s, NIL, false, Looking)])
  {
    hide Act, IsClaimable, BeginComplete, BeginAbort, HasSession, Load, Store, Committed;
  }

  lemma AbortClaims(m: Sys, k: Uuid, s: Uuid, now: Time)
    requires k !in m.tasks && s in m.sessions && m.sessions[s].state == SessionAborting
    ensures Step(m, StartAbort(k, s, m.sessions[s].owner, now)) == m.(tasks := m.tasks[k := Task(s, NIL, false, Discarding)])
  {
    hide Act, BeginComplete, HasSession, Load, Store, Committed;
    assert m.sessions[s := m.sessions[s]] == m.sessions;
  }

  lemma DatasetGoes(m: Sys, d: Uuid, now: Time)
    requires d in m.catalog.datasets && m.catalog.datasets[d].state != DatasetDeleted
    ensures
      var n := Step(m, Delete(d, now));
      && n == m.(catalog := n.catalog, sessions := map s | s in m.sessions :: Cancelled(m.sessions[s], d, now))
      && n.catalog.versions == m.catalog.versions && d in n.catalog.datasets && IsDeleted(n.catalog.datasets[d])
  {
    hide Act, BeginComplete, BeginAbort, HasSession, Load, Store, Cancelled;
  }

  /** The cleanup claims session 3, and its owner aborts it. */
  lemma Claims(m: Sys)
    requires 3 in m.sessions && 3 in m.remotes && 6 !in m.tasks && 7 !in m.tasks
    requires m.sessions[3].state == SessionCompleting && m.sessions[3].expiresAt <= 20 && m.sessions[3].updatedAt <= 20
    ensures
      var n := Run(m, Interruption(7, 6, 3, m.sessions[3].owner, 20));
      n == m.(sessions := m.sessions[3 := Released(m.sessions[3], SessionAborting).(updatedAt := 20)],
              tasks := m.tasks[6 := Task(3, NIL, false, Looking)][7 := Task(3, NIL, false, Discarding)])
  {
    hide Step, Run;
    TwoSteps(m, StartSweep(6, 3, 20, 20), StartAbort(7, 3, m.sessions[3].owner, 20));
    SweepClaims(m, 6, 3, 20);
    AbortClaims(Step(m, StartSweep(6, 3, 20, 20)), 7, 3, 20);
  }

  /** The abort fails the version and stops. */
  lemma GivesVersionUp(m: Sys)
    requires 7 in m.tasks && m.tasks[7] == Task(3, NIL, false, Discarding) && 3 in m.sessions && 3 in m.remotes
    requires m.sessions[3].dataset in m.catalog.datasets && m.sessions[3].version in m.catalog.versions
    requires m.catalog.versions[m.sessions[3].version].dataset == m.sessions[3].dataset
    requires m.catalog.versions[m.sessions[3].version].state == VersionUploading && !IsDeleted(m.catalog.datasets[m.sessions[3].dataset])
    requires m.remotes[3].Assembled?
    ensures
      var n := Run(m, Advances(7, [STEP, STEP]));
      && n == Store(m, 7, Load(m, 7).(catalog := n.catalog, task := m.tasks[7].(pc := MarkingAborted)))
      && VersionIn(n.catalog, m.sessions[3].version) == Some(m.catalog.versions[m.sessions[3].version].(state := VersionFailed))
      && !DeletedIn(n.catalog, m.sessions[3].dataset)
  {
    StoreLoad(m, 7);
    RunOfOneTask(m, 7, Load(m, 7), [STEP, STEP]);
    TwoActs(Load(m, 7), STEP);
    hide Run, Advances, ActAll;
  }

  const SESSION := Session(1, 1, 2, SessionCompleting, 10, None, 10, 0, Some(5), Some(0))

  /** Task 4 has claimed session 3. */
  predicate IsClaimed(m: Sys) {
    && m.sessions == map[3 := SESSION] && m.remotes == map[3 := Open] && m.tasks == map[4 := Task(3, 5, false, Checking)]
    && m.issued == {5} && m.objects == map[]
    && m.catalog.datasets == map[1 := Dataset(1, DatasetUploading, None)]
    && m.catalog.versions == map[2 := Version(1, VersionUploading, "text/csv", "CSV", None, None)]
  }

  lemma ClaimIsMade()
    ensures IsClaimed(Step(Reached(OPENING), CLAIM))
  {
    hide Run;
    Opened();
  }

  /** Session 3 is claimed by sweeper `k`, which has taken no step yet. */
  predicate IsLooking(m: Sys, k: Uuid, stored: Option<Content>, state: VersionState, deleted: bool) {
    && k in m.tasks && m.tasks[k] == Task(3, NIL, false, Looking) && 9 !in m.issued
    && 3 in m.sessions && 3 in m.remotes && m.sessions[3].state == SessionAborting
    && m.sessions[3] == SESSION.(state := SessionAborting, token := None, completionStartedAt := None,
                                 expiresAt := m.sessions[3].expiresAt, updatedAt := m.sessions[3].updatedAt)
    && ViewOf(m, 3).stored == stored && ViewOf(m, 3).deleted == deleted
    && ViewOf(m, 3).version.Some? && ViewOf(m, 3).version.value.state == state
  }

  lemma ReleasedScene(m: Sys)
    requires IsClaimed(m)
    ensures
      var m2 := Run(m, Advances(4, [STEP, STEP]));
      var m4 := Run(m2, Interruption(7, 6, 3, 1, 20));
      IsLooking(Run(m4, Advances(7, [STEP, STEP])), 6, Some(CONTENT), VersionFailed, false)
  {
    hide Run, Advances, Interruption;
    Assembles(m);
    var m2 := Run(m, Advances(4, [STEP, STEP]));
    Claims(m2);
    var m4 := Run(m2, Interruption(7, 6, 3, 1, 20));
    GivesVersionUp(m4);
  }

  const STEPS := [STEP, STEP, STEP, STEP, STEP, STEP, STEP, STEP]

  /**
   * A completer stops after assembling its object, the cleanup claims the session, and an abort fails the version
   * before it stops as well. The sweep then finds the announced object of a live dataset, and yet only releases
   * the session.
   */
  lemma SweepMayOnlyRelease() returns (actions: seq<Action>)
    ensures
      var m := Reached(actions);
      && IsLooking(m, 6, Some(CONTENT), VersionFailed, false) && !IsWrong(m.sessions[3], CONTENT)
      && 3 in After(m, 6, STEPS).sessions && After(m, 6, STEPS).sessions[3].state == SessionInitiated
  {
    var rest := Advances(4, [STEP, STEP]) + Interruption(7, 6, 3, 1, 20) + Advances(7, [STEP, STEP]);
    actions := OPENING + [CLAIM] + rest;
    hide Run, Advances, Interruption, After, Step;
    var m := Step(Reached(OPENING), CLAIM);
    Continue(CLAIM, rest);
    RunInTwo(m, Advances(4, [STEP, STEP]) + Interruption(7, 6, 3, 1, 20), Advances(7, [STEP, STEP]));
    RunInTwo(m, Advances(4, [STEP, STEP]), Interruption(7, 6, 3, 1, 20));
    ClaimIsMade();
    ReleasedScene(m);
    UndisturbedSweep(actions, 6, STEPS);
  }

  // ---------------------------------------------------------------- a session that stays claimed

  /** As `STEP`, with another token. */
  const LATER := STEP.(token := 10)

  /** The completer makes the version available and stops. */
  lemma Finalizes(m: Sys)
    requires IsClaimed(m)
    ensures
      var n := Run(m, Advances(4, [STEP, STEP, STEP, STEP, STEP]));
      && n.sessions == map[3 := SESSION] && n.remotes == map[3 := Assembled(CONTENT)] && n.issued == {5}
      && n.objects == map[ObjectKey(1, 2) := CONTENT] && n.tasks == map[4 := Task(3, 5, false, Marking)]
      && n.catalog.datasets.Keys == {1} && !IsDeleted(n.catalog.datasets[1]) && 2 in n.catalog.versions
      && n.catalog.versions[2].dataset == 1 && n.catalog.versions[2].state == VersionAvailable
  {
    StoreLoad(m, 4);
    RunOfOneTask(m, 4, Load(m, 4), [STEP, STEP, STEP, STEP, STEP]);
    hide Run, Advances, ActAll, Act;
    FiveSteps(Load(m, 4), STEP);
  }

  /** The dataset is deleted, and the cleanup claims the session. */
  lemma Deletes(m: Sys)
    requires m.sessions == map[3 := SESSION] && 3 in m.remotes && 6 !in m.tasks && 1 in m.catalog.datasets
    requires m.catalog.datasets[1].state != DatasetDeleted
    ensures
      var n := Run(m, [Delete(1, 20), StartSweep(6, 3, 20, 20)]);
      && n == m.(catalog := n.catalog, sessions := map[3 := SESSION.(state := SessionAborting, token := None, completionStartedAt := None, updatedAt := 20)],
                 tasks := m.tasks[6 := Task(3, NIL, false, Looking)])
      && n.catalog.versions == m.catalog.versions && 1 in n.catalog.datasets && IsDeleted(n.catalog.datasets[1])
  {
    hide Step, Run;
    TwoSteps(m, Delete(1, 20), StartSweep(6, 3, 20, 20));
    DatasetGoes(m, 1, 20);
    SweepClaims(Step(m, Delete(1, 20)), 6, 3, 20);
    assert (map s | s in m.sessions :: Cancelled(m.sessions[s], 1, 20))
        == map[3 := SESSION.(state := SessionAborting, token := None, completionStartedAt := None, updatedAt := 20)];
  }

  /** The sweeper deletes the object and stops. */
  lemma Removes(e: Effect)
    requires e.task.pc == Looking && e.session.state == SessionAborting && e.stored == Some(CONTENT) && !IsWrong(e.session, CONTENT)
    requires e.session.dataset in e.catalog.datasets && IsDeleted(e.catalog.datasets[e.session.dataset]) && 10 !in e.issued
    ensures ActAll(e, [LATER, LATER, LATER, LATER, LATER, LATER])
         == e.(session := Claimed(e.session, 20, 10), stored := None, issued := e.issued + {10},
               task := Task(e.task.session, 10, true, Failing))
  {
    hide Act;
    var e2 := Act(Act(e, LATER), LATER);
    var e4 := Act(Act(e2, LATER), LATER);
    SixActs(e);
    TwoActs(e, LATER);
    TwoActs(e2, LATER);
    TwoActs(e4, LATER);
    assert [LATER, LATER, LATER, LATER, LATER, LATER] == [LATER, LATER] + ([LATER, LATER] + [LATER, LATER]);
    ActAllInTwo(e, [LATER, LATER], [LATER, LATER] + [LATER, LATER]);
    ActAllInTwo(e2, [LATER, LATER], [LATER, LATER]);
  }

  lemma SixActs(e: Effect)
    requires e.task.pc == Looking && e.session.state == SessionAborting && e.stored == Some(CONTENT) && !IsWrong(e.session, CONTENT)
    requires e.session.dataset in e.catalog.datasets && IsDeleted(e.catalog.datasets[e.session.dataset]) && 10 !in e.issued
    ensures
      var e4 := Act(Act(Act(Act(e, LATER), LATER), LATER), LATER);
      Act(Act(e4, LATER), LATER) == e.(session := Claimed(e.session, 20, 10), stored := None, issued := e.issued + {10},
                                       task := Task(e.task.session, 10, true, Failing))
  {
    hide FailVersion;
    var e4 := Act(Act(Act(Act(e, LATER), LATER), LATER), LATER);
    assert e4 == e.(session := Claimed(e.session, 20, 10), issued := e.issued + {10},
                    task := Task(e.task.session, 10, true, Finalizing(CONTENT)));
  }

  /** Another sweeper claims the session again. */
  lemma ClaimsAgain(m: Sys)
    requires 3 in m.sessions && 8 !in m.tasks && m.sessions[3].state == SessionCompleting
    requires m.sessions[3].expiresAt <= 30 && m.sessions[3].updatedAt <= 30
    ensures Run(m, [StartSweep(8, 3, 30, 30)])
         == m.(sessions := m.sessions[3 := Released(m.sessions[3], SessionAborting).(updatedAt := 30)],
               tasks := m.tasks[8 := Task(3, NIL, false, Looking)])
  {
    hide Step;
    var a := StartSweep(8, 3, 30, 30);
    assert [a][1..] == [];
    assert Run(m, [a]) == Run(Step(m, a), []);
    SweepClaims(m, 8, 3, 30);
  }

  /** How the four parts follow one another. */
  function Stall(): seq<Action> {
    Advances(4, [STEP, STEP, STEP, STEP, STEP]) + [Delete(1, 20), StartSweep(6, 3, 20, 20)]
    + Advances(6, [LATER, LATER, LATER, LATER, LATER, LATER]) + [StartSweep(8, 3, 30, 30)]
  }

  lemma StalledScene(m: Sys)
    requires IsClaimed(m)
    ensures IsLooking(Run(m, Stall()), 8, None, VersionAvailable, true)
  {
    hide Run, Advances;
    var first, second := Advances(4, [STEP, STEP, STEP, STEP, STEP]), [Delete(1, 20), StartSweep(6, 3, 20, 20)];
    var third, fourth := Advances(6, [LATER, LATER, LATER, LATER, LATER, LATER]), [StartSweep(8, 3, 30, 30)];
    RunInTwo(m, first + second + third, fourth);
    RunInTwo(m, first + second, third);
    RunInTwo(m, first, second);
    Finalizes(m);
    var m1 := Run(m, first);
    Deletes(m1);
    var m2 := Run(m1, second);
    StoreLoad(m2, 6);
    RunOfOneTask(m2, 6, Load(m2, 6), [LATER, LATER, LATER, LATER, LATER, LATER]);
    Removes(Load(m2, 6));
    var m3 := Run(m2, third);
    ClaimsAgain(m3);
  }

  /**
   * A completer stops after finalising, the dataset is deleted, a sweeper stops after deleting the object, and the
   * session is claimed again. The sweep finds no object and cannot fail an available version, so it changes nothing.
   */
  lemma SweepMayChangeNothing() returns (actions: seq<Action>)
    ensures
      var m := Reached(actions);
      && IsLooking(m, 8, None, VersionAvailable, true)
      && 3 in After(m, 8, STEPS).sessions && After(m, 8, STEPS).sessions[3] == m.sessions[3]
  {
    actions := OPENING + [CLAIM] + Stall();
    hide Run, Stall, After, Step;
    var m := Step(Reached(OPENING), CLAIM);
    Continue(CLAIM, Stall());
    ClaimIsMade();
    StalledScene(m);
    UndisturbedSweep(actions, 8, STEPS);
  }
}
