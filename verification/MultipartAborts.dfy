/** What an aborted session says about its version: exactly when it is available, failed or still uploading. */
module MultipartAborts {
  import opened Tables
  import opened Datasets
  import opened UploadSessions
  import opened Multipart
  import opened MultipartSafety
  import opened MultipartProgress

  // ---------------------------------------------------------------- the step that decides

  /**
   * An abort's attempt to fail the version leaves it available if and only if it was; otherwise, if the
   * database answered, the version has failed or was gone, and if it did not, nothing changed.
   */
  lemma AbortStepIsExact(e: Effect, x: Choice)
    requires EffectOk(e) && e.task.pc == FailingAborted
    ensures
      var after := Seen(Act(e, x));
      && (IsAvailable(after) <==> IsAvailable(Seen(e)))
      && (!IsAvailable(after) && !x.fails ==> IsGone(after))
      && (x.fails ==> after == Seen(e))
  {
    FailIsLocal(e.catalog, e.session.dataset, e.session.version);
    hide FailVersion, CatalogInv;
  }

  ghost predicate AvailableIn(m: Sys, s: Uuid) {
    s in m.sessions && s in m.remotes && IsAvailable(ViewOf(m, s))
  }

  ghost predicate GoneIn(m: Sys, s: Uuid) {
    s in m.sessions && s in m.remotes && IsGone(ViewOf(m, s))
  }

  /** Task `k` is about to try to fail the version of session `s` on behalf of an abort. */
  predicate IsTrying(m: Sys, k: Uuid, s: Uuid) {
    k in m.tasks && m.tasks[k].session == s && m.tasks[k].pc == FailingAborted
  }

  /** Task `k` is about to mark session `s` aborted, and will succeed. */
  predicate IsMarking(m: Sys, k: Uuid, s: Uuid) {
    && k in m.tasks && m.tasks[k].session == s && m.tasks[k].pc == MarkingAborted
    && s in m.sessions && (m.sessions[s].state == SessionAborting || m.sessions[s].state == SessionFailed)
  }

  /** Over every continuation, the version is available exactly if it was when the abort tried to fail it. */
  lemma TryDecides(m: Sys, k: Uuid, s: Uuid, x: Choice, later: seq<Action>)
    requires IsTrying(m, k, s) && !x.fails
    requires Inv(m)
    ensures
      var n := Run(Step(m, Advance(k, x)), later);
      && (AvailableIn(n, s) <==> AvailableIn(m, s))
      && (!AvailableIn(n, s) ==> GoneIn(n, s))
  {
    hide ViewOk, ViewLater, TaskOk, CatalogInv, HasSession, Act, Run;
    var next, e := Step(m, Advance(k, x)), Load(m, k);
    assert EffectOk(e) by {
      assert Seen(e) == ViewOf(m, s);
    }
    AbortStepIsExact(e, x);
    ActIsSafe(e, x);
    SameVersion(m, k, x);
    StepKeepsInv(m, Advance(k, x));
    RunKeepsInv(next, later);
    var n := Run(next, later);
    hide Inv;
    AvailabilityStays(ViewOf(next, s), ViewOf(n, s));
  }

  lemma AvailabilityStays(v: View, w: View)
    requires ViewLater(v, w)
    ensures IsAvailable(v) ==> IsAvailable(w)
    ensures IsGone(v) ==> IsGone(w)
    ensures v.session.state == SessionAborted ==> (IsAvailable(w) <==> IsAvailable(v))
    ensures v.session.state == SessionAborted ==> w.session.state == SessionAborted
  {
  }

  /** The version as the stored effect shows it. */
  lemma SameVersion(m: Sys, k: Uuid, x: Choice)
    requires k in m.tasks && m.tasks[k].session in m.sessions && m.tasks[k].session in m.remotes
    ensures
      var n, s := Step(m, Advance(k, x)), m.tasks[k].session;
      && s in n.sessions && s in n.remotes
      && ViewOf(n, s).version == Seen(Act(Load(m, k), x)).version
      && ViewOf(n, s).session == Act(Load(m, k), x).session
  {
    hide Act;
    ActStaysHome(Load(m, k), x);
  }

  /** Over every continuation, an aborted session's version is available exactly if it was when the session was marked. */
  lemma MarkDecides(m: Sys, k: Uuid, s: Uuid, x: Choice, later: seq<Action>)
    requires IsMarking(m, k, s)
    requires Inv(m)
    ensures
      var n := Run(Step(m, Advance(k, x)), later);
      && (AvailableIn(n, s) <==> AvailableIn(m, s))
      && s in n.sessions && n.sessions[s].state == SessionAborted
  {
    hide ViewOk, ViewLater, TaskOk, CatalogInv, HasSession, Run;
    var next := Step(m, Advance(k, x));
    SameVersion(m, k, x);
    assert Act(Load(m, k), x).session.state == SessionAborted && Act(Load(m, k), x).catalog == m.catalog;
    hide Act;
    StepKeepsInv(m, Advance(k, x));
    RunKeepsInv(next, later);
    hide Inv;
    AvailabilityStays(ViewOf(next, s), ViewOf(Run(next, later), s));
  }

  // ---------------------------------------------------------------- every aborted session went that way

  lemma {:induction false} RunInTwo(m: Sys, a: seq<Action>, b: seq<Action>)
    ensures Run(m, a + b) == Run(Run(m, a), b)
    decreases |a|
  {
    hide Step;
    if a == [] {
      assert [] + b == b;
    } else {
      assert (a + b)[0] == a[0] && (a + b)[1..] == a[1..] + b;
      RunInTwo(Step(m, a[0]), a[1..], b);
    }
  }

  /** Task `k` tried to fail the version of session `s` in step `i` of the run. */
  ghost predicate Tried(actions: seq<Action>, i: nat, k: Uuid, s: Uuid) {
    i < |actions| && actions[i].Advance? && actions[i].task == k && IsTrying(Reached(actions[..i]), k, s)
  }

  /** Task `k` marked session `s` aborted in step `i` of the run. */
  ghost predicate Marked(actions: seq<Action>, i: nat, k: Uuid, s: Uuid) {
    i < |actions| && actions[i].Advance? && actions[i].task == k && IsMarking(Reached(actions[..i]), k, s)
  }

  ghost predicate HasTried(actions: seq<Action>, k: Uuid, s: Uuid) {
    exists i :: Tried(actions, i, k, s)
  }

  ghost predicate WasMarked(actions: seq<Action>, s: Uuid) {
    exists i: nat, j: nat, k: Uuid :: i < j && Tried(actions, i, k, s) && Marked(actions, j, k, s)
  }

  ghost predicate Accounted(actions: seq<Action>, m: Sys) {
    && (forall k | k in m.tasks && m.tasks[k].pc == MarkingAborted :: HasTried(actions, k, m.tasks[k].session))
    && (forall s | s in m.sessions && m.sessions[s].state == SessionAborted :: WasMarked(actions, s))
  }

  lemma TriedStays(actions: seq<Action>, a: Action, i: nat, k: Uuid, s: Uuid)
    ensures Tried(actions, i, k, s) ==> Tried(actions + [a], i, k, s)
    ensures Marked(actions, i, k, s) ==> Marked(actions + [a], i, k, s)
  {
    if i < |actions| {
      assert (actions + [a])[i] == actions[i] && (actions + [a])[..i] == actions[..i];
    }
  }

  /** A task gets to its mark only by trying, and a session becomes aborted only by a task at its mark. */
  lemma OnlyByTrying(m: Sys, a: Action, k: Uuid)
    requires k in Step(m, a).tasks && Step(m, a).tasks[k].pc == MarkingAborted
    ensures
      || (k in m.tasks && m.tasks[k] == Step(m, a).tasks[k])
      || (a.Advance? && a.task == k && k in m.tasks && m.tasks[k].pc == FailingAborted
          && m.tasks[k].session == Step(m, a).tasks[k].session)
  {
    hide FinalizeVersion, FailVersion, ReserveVersion, AbortVersion, DeleteDataset, Datasets.CreateDataset, HasSession;
  }

  lemma OnlyByMarking(m: Sys, a: Action, s: Uuid)
    requires s in Step(m, a).sessions && Step(m, a).sessions[s].state == SessionAborted
    ensures
      || (s in m.sessions && m.sessions[s].state == SessionAborted)
      || (a.Advance? && IsMarking(m, a.task, s))
  {
    hide FinalizeVersion, FailVersion, ReserveVersion, AbortVersion, DeleteDataset, Datasets.CreateDataset, HasSession;
  }

  lemma {:induction false} RunIsAccounted(actions: seq<Action>)
    ensures Accounted(actions, Reached(actions))
    decreases |actions|
  {
    if actions != [] {
      var front, a := actions[..|actions| - 1], actions[|actions| - 1];
      assert actions == front + [a];
      RunIsAccounted(front);
      RunInTwo(START, front, [a]);
      assert Run(Reached(front), [a]) == Step(Reached(front), a) by {
        hide Step;
        assert [a][1..] == [];
        assert Run(Reached(front), [a]) == Run(Step(Reached(front), a), []);
      }
      StepIsAccounted(front, a);
    }
  }

  lemma StepIsAccounted(front: seq<Action>, a: Action)
    requires Accounted(front, Reached(front))
    ensures Accounted(front + [a], Step(Reached(front), a))
  {
    hide Run, Step, Tried, Marked;
    var m, n, actions := Reached(front), Step(Reached(front), a), front + [a];
    forall k | k in n.tasks && n.tasks[k].pc == MarkingAborted ensures HasTried(actions, k, n.tasks[k].session) {
      OnlyByTrying(m, a, k);
      if k in m.tasks && m.tasks[k] == n.tasks[k] {
        var i :| Tried(front, i, k, n.tasks[k].session);
        TriedStays(front, a, i, k, n.tasks[k].session);
      } else {
        NowTried(front, a, k, n.tasks[k].session);
      }
    }
    forall s | s in n.sessions && n.sessions[s].state == SessionAborted ensures WasMarked(actions, s) {
      OnlyByMarking(m, a, s);
      if s in m.sessions && m.sessions[s].state == SessionAborted {
        var i: nat, j: nat, k: Uuid :| i < j && Tried(front, i, k, s) && Marked(front, j, k, s);
        TriedStays(front, a, i, k, s);
        TriedStays(front, a, j, k, s);
      } else {
        var k := a.task;
        assert HasTried(front, k, s);
        var i :| Tried(front, i, k, s);
        TriedStays(front, a, i, k, s);
        NowMarked(front, a, k, s);
        TriedEarlier(front, i, k, s);
      }
    }
  }

  lemma TriedEarlier(actions: seq<Action>, i: nat, k: Uuid, s: Uuid)
    requires Tried(actions, i, k, s)
    ensures i < |actions|
  {
  }

  lemma NowTried(front: seq<Action>, a: Action, k: Uuid, s: Uuid)
    requires a.Advance? && a.task == k && IsTrying(Reached(front), k, s)
    ensures Tried(front + [a], |front|, k, s)
  {
    assert (front + [a])[..|front|] == front;
  }

  lemma NowMarked(front: seq<Action>, a: Action, k: Uuid, s: Uuid)
    requires a.Advance? && a.task == k && IsMarking(Reached(front), k, s)
    ensures Marked(front + [a], |front|, k, s)
  {
    assert (front + [a])[..|front|] == front;
  }

  /**
   * The exact condition. In every reachable state an aborted session was marked by a task that had tried
   * to fail its version before. The version is available exactly if it was available at the mark; and,
   * unless the database did not answer the try, exactly if it was available at the try, and otherwise
   * failed or gone for good.
   */
  lemma AbortedIsExact(actions: seq<Action>, s: Uuid)
    requires s in Reached(actions).sessions && Reached(actions).sessions[s].state == SessionAborted
    ensures exists i: nat, j: nat, k: Uuid ::
      && i < j && Tried(actions, i, k, s) && Marked(actions, j, k, s)
      && (AvailableIn(Reached(actions), s) <==> AvailableIn(Reached(actions[..j]), s))
      && (!actions[i].choice.fails ==>
            && (AvailableIn(Reached(actions), s) <==> AvailableIn(Reached(actions[..i]), s))
            && (!AvailableIn(Reached(actions), s) ==> GoneIn(Reached(actions), s)))
  {
    hide Run, Tried, Marked, AvailableIn, GoneIn;
    RunIsAccounted(actions);
    var i: nat, j: nat, k: Uuid :| i < j && Tried(actions, i, k, s) && Marked(actions, j, k, s);
    FromTheMark(actions, j, k, s);
    FromTheTry(actions, i, k, s);
  }

  lemma Resume(actions: seq<Action>, i: nat)
    requires i < |actions|
    ensures Reached(actions) == Run(Step(Reached(actions[..i]), actions[i]), actions[i + 1..])
    ensures Inv(Reached(actions[..i]))
  {
    hide Inv, Step;
    ReachedInv(actions[..i]);
    assert actions == actions[..i] + actions[i..];
    RunInTwo(START, actions[..i], actions[i..]);
    assert actions[i..][0] == actions[i] && actions[i..][1..] == actions[i + 1..];
  }

  lemma FromTheMark(actions: seq<Action>, j: nat, k: Uuid, s: Uuid)
    requires Marked(actions, j, k, s)
    ensures AvailableIn(Reached(actions), s) <==> AvailableIn(Reached(actions[..j]), s)
  {
    hide Inv, Run, Step, AvailableIn;
    Resume(actions, j);
    MarkDecides(Reached(actions[..j]), k, s, actions[j].choice, actions[j + 1..]);
  }

  lemma FromTheTry(actions: seq<Action>, i: nat, k: Uuid, s: Uuid)
    requires Tried(actions, i, k, s)
    ensures actions[i].Advance?
    ensures !actions[i].choice.fails ==>
      && (AvailableIn(Reached(actions), s) <==> AvailableIn(Reached(actions[..i]), s))
      && (!AvailableIn(Reached(actions), s) ==> GoneIn(Reached(actions), s))
  {
    hide Inv, Run, Step, AvailableIn, GoneIn;
    Resume(actions, i);
    if !actions[i].choice.fails {
      TryDecides(Reached(actions[..i]), k, s, actions[i].choice, actions[i + 1..]);
    }
  }

  // ---------------------------------------------------------------- both ways it can go wrong

  /** An aborter whose session's version is already available marks the session aborted all the same. */
  lemma AbortSteps(e: Effect, x: Choice)
    requires e.task.pc == Discarding && e.session.state == SessionAborting && !x.fails
    requires e.session.dataset in e.catalog.datasets && e.session.version in e.catalog.versions
    requires e.catalog.versions[e.session.version].dataset == e.session.dataset
    requires e.catalog.versions[e.session.version].state == VersionAvailable
    ensures
      var f := ActAll(e, [x, x, x]);
      f.session.state == SessionAborted && f.session.version == e.session.version && f.catalog == e.catalog
      && f.task.session == e.task.session && KeyOf(f.session) == KeyOf(e.session)
  {
    ThreeActs(e, x, x, x);
  }

  lemma ThreeActs(e: Effect, x: Choice, y: Choice, z: Choice)
    ensures ActAll(e, [x, y, z]) == Act(Act(Act(e, x), y), z)
  {
    hide Act;
    assert [x, y, z][1..] == [y, z] && [y, z][1..] == [z] && [z][1..] == [];
    assert ActAll(e, [x, y, z]) == ActAll(Act(e, x), [y, z]) == ActAll(Act(Act(e, x), y), [z]);
  }

  /** The cleanup claims an expired session, and then its owner aborts it. */
  function Interruption(q: Uuid, l: Uuid, s: Uuid, owner: Uuid, now: Time): seq<Action> {
    [StartSweep(l, s, now, now), StartAbort(q, s, owner, now)]
  }

  /**
   * A completer stops after finalising, its session expires and is claimed, and an abort marks it aborted
   * although its version is available.
   */
  lemma AbortAfterFinalizing(m: Sys, k: Uuid, l: Uuid, q: Uuid, content: Content, now: Time)
    requires k in m.tasks && m.tasks[k].session in m.sessions && m.tasks[k].session in m.remotes
    requires IsPromising(Load(m, k), content)
    requires l !in m.tasks && q !in m.tasks && l != q
    requires m.sessions[m.tasks[k].session].expiresAt <= now && m.sessions[m.tasks[k].session].updatedAt <= now
    ensures
      var s := m.tasks[k].session;
      var x := Choice(false, false, true, content, NIL, now);
      var n := Run(m, Advances(k, [x, x, x, x, x]) + Interruption(q, l, s, m.sessions[s].owner, now) + Advances(q, [x, x, x]));
      && s in n.sessions && n.sessions[s].state == SessionAborted
      && n.sessions[s].version in n.catalog.versions && n.catalog.versions[n.sessions[s].version].state == VersionAvailable
  {
    var s, e := m.tasks[k].session, Load(m, k);
    var x := Choice(false, false, true, content, NIL, now);
    var first, last := Advances(k, [x, x, x, x, x]), Advances(q, [x, x, x]);
    var middle := Interruption(q, l, s, m.sessions[s].owner, now);
    StoreLoad(m, k);
    RunOfOneTask(m, k, e, [x, x, x, x, x]);
    FiveSteps(e, x);
    var f := ActAll(e, [x, x, x, x, x]);
    var m5 := Store(m, k, f);
    var m7 := Run(m5, middle);
    hide Act, ActAll, Advances;
    InterruptionAborts(m5, q, l, s, now);
    RunInTwo(m, first + middle, last);
    RunInTwo(m, first, middle);
    var g := Load(m7, q);
    StoreLoad(m7, q);
    RunOfOneTask(m7, q, g, [x, x, x]);
    AbortSteps(g, x);
  }

  lemma TwoSteps(m: Sys, a: Action, b: Action)
    ensures Run(m, [a, b]) == Step(Step(m, a), b)
  {
    hide Step;
    assert [a, b][1..] == [b] && [b][1..] == [];
    assert Run(m, [a, b]) == Run(Step(m, a), [b]) == Run(Step(Step(m, a), b), []);
  }

  lemma InterruptionAborts(m: Sys, q: Uuid, l: Uuid, s: Uuid, now: Time)
    requires s in m.sessions && s in m.remotes && l !in m.tasks && q !in m.tasks && l != q
    requires m.sessions[s].state == SessionCompleting && m.sessions[s].expiresAt <= now && m.sessions[s].updatedAt <= now
    ensures
      var n := Run(m, Interruption(q, l, s, m.sessions[s].owner, now));
      && s in n.sessions && s in n.remotes && n.catalog == m.catalog && n.remotes == m.remotes
      && n.sessions[s].state == SessionAborting
      && n.sessions[s].dataset == m.sessions[s].dataset && n.sessions[s].version == m.sessions[s].version
      && q in n.tasks && n.tasks[q] == Task(s, NIL, false, Discarding)
  {
    TwoSteps(m, StartSweep(l, s, now, now), StartAbort(q, s, m.sessions[s].owner, now));
  }

  /** Owner 1 opens session 3 for version 2 of dataset 1; it expects ten bytes by time 10. */
  const OPENING := [
    CreateDataset(1, 1), Reserve(1, 2, "text/csv", "CSV"),
    Initiate(3, Session(1, 1, 2, SessionInitiated, 10, None, 10, 0, None, None))]

  lemma Opened()
    ensures
      var m := Reached(OPENING);
      && m.sessions == map[3 := Session(1, 1, 2, SessionInitiated, 10, None, 10, 0, None, None)]
      && m.remotes == map[3 := Open] && m.tasks == map[] && m.issued == {} && m.objects == map[]
      && m.catalog.datasets == map[1 := Dataset(1, DatasetUploading, None)]
      && m.catalog.versions == map[2 := Version(1, VersionUploading, "text/csv", "CSV", None, None)]
  {
    var a, b, c := OPENING[0], OPENING[1], OPENING[2];
    assert OPENING == [a, b] + [c];
    RunInTwo(START, [a, b], [c]);
    TwoSteps(START, a, b);
    var m := Step(Step(START, a), b);
    assert m.catalog.datasets == map[1 := Dataset(1, DatasetUploading, None)];
    assert m.catalog.versions == map[2 := Version(1, VersionUploading, "text/csv", "CSV", None, None)];
    assert [c][1..] == [];
    assert Run(m, [c]) == Run(Step(m, c), []);
  }

  lemma Continue(a: Action, rest: seq<Action>)
    ensures Reached(OPENING + [a] + rest) == Run(Step(Reached(OPENING), a), rest)
  {
    hide Step;
    RunInTwo(START, OPENING + [a], rest);
    RunInTwo(START, OPENING, [a]);
    assert [a][1..] == [];
    assert Run(Reached(OPENING), [a]) == Run(Step(Reached(OPENING), a), []);
  }

  /** Task 4 has claimed the session. */
  lemma ClaimedOpening(content: Content)
    requires content.size == 10 && content.recognised
    ensures
      var m := Step(Reached(OPENING), StartComplete(4, 3, 1, 0, 0, 5));
      && m.tasks == map[4 := Task(3, 5, false, Checking)] && 3 in m.remotes && 3 in m.sessions
      && m.sessions[3].expiresAt == 10 && m.sessions[3].updatedAt == 0 && m.sessions[3].owner == 1 && m.sessions[3].version == 2
      && IsPromising(Load(m, 4), content)
  {
    hide Run;
    Opened();
  }

  /** Some reachable state has an aborted session whose version is available. */
  lemma AbortedMayBeAvailable() returns (actions: seq<Action>)
    ensures
      var m := Reached(actions);
      && 3 in m.sessions && m.sessions[3].state == SessionAborted && m.sessions[3].version == 2
      && 2 in m.catalog.versions && m.catalog.versions[2].state == VersionAvailable
  {
    hide Run, Step, IsPromising, Advances, Interruption, Inv;
    var start := StartComplete(4, 3, 1, 0, 0, 5);
    var content := Content(10, "sum", true);
    var x := Choice(false, false, true, content, NIL, 20);
    var m := Step(Reached(OPENING), start);
    ClaimedOpening(content);
    AbortAfterFinalizing(m, 4, 6, 7, content, 20);
    var rest := Advances(4, [x, x, x, x, x]) + Interruption(7, 6, 3, 1, 20) + Advances(7, [x, x, x]);
    actions := OPENING + [start] + rest;
    Continue(start, rest);
    ReachedInv(OPENING);
    StepKeepsInv(Reached(OPENING), start);
    VersionStays(m, rest, 3);
  }

  lemma VersionStays(m: Sys, actions: seq<Action>, s: Uuid)
    requires s in m.sessions && s in m.remotes
    requires Inv(m)
    ensures s in Run(m, actions).sessions && Run(m, actions).sessions[s].version == m.sessions[s].version
  {
    hide Inv, Run;
    RunKeepsInv(m, actions);
    assert ViewLater(ViewOf(m, s), ViewOf(Run(m, actions), s));
  }

  /** Task 4 aborts the session, and the database does not answer when it tries to fail the version. */
  lemma SilentAbort(ok: Choice, silent: Choice)
    requires !ok.fails && silent.fails
    ensures
      var n := Run(Step(Reached(OPENING), StartAbort(4, 3, 1, 0)), Advances(4, [ok, silent, ok]));
      && 3 in n.sessions && n.sessions[3].state == SessionAborted && n.sessions[3].version == 2
      && n.catalog == Reached(OPENING).catalog
  {
    Opened();
    hide Run, Advances, ActAll;
    var m := Step(Reached(OPENING), StartAbort(4, 3, 1, 0));
    StoreLoad(m, 4);
    RunOfOneTask(m, 4, Load(m, 4), [ok, silent, ok]);
    ThreeActs(Load(m, 4), ok, silent, ok);
  }

  /** And some reachable state has one whose version is still uploading. */
  lemma AbortedMayBeUploading() returns (actions: seq<Action>)
    ensures
      var m := Reached(actions);
      && 3 in m.sessions && m.sessions[3].state == SessionAborted && m.sessions[3].version == 2
      && 2 in m.catalog.versions && m.catalog.versions[2].state == VersionUploading
  {
    hide Run, Step, Advances;
    var ok := Choice(false, false, false, Content(0, "", false), NIL, 0);
    var silent := ok.(fails := true);
    var start, rest := StartAbort(4, 3, 1, 0), Advances(4, [ok, silent, ok]);
    actions := OPENING + [start] + rest;
    Continue(start, rest);
    SilentAbort(ok, silent);
    Opened();
  }
}
