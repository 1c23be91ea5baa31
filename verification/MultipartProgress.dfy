/** A completion that nobody disturbs succeeds, and a run can end in the state its safety theorems speak of. */
module MultipartProgress {
  import opened Tables
  import opened Datasets
  import opened UploadSessions
  import opened Multipart

  /** Several steps of one task in a row. */
  function ActAll(e: Effect, xs: seq<Choice>): Effect
    decreases |xs|
  {
    if xs == [] then e else ActAll(Act(e, xs[0]), xs[1..])
  }

  function Advances(k: Uuid, xs: seq<Choice>): seq<Action>
    decreases |xs|
  {
    if xs == [] then [] else [Advance(k, xs[0])] + Advances(k, xs[1..])
  }

  /** A task keeps its session, and its session its object key. */
  lemma ActStaysHome(e: Effect, x: Choice)
    ensures Act(e, x).task.session == e.task.session && KeyOf(Act(e, x).session) == KeyOf(e.session)
  {
    hide FinalizeVersion, FailVersion;
  }

  predicate IsHome(m: Sys, k: Uuid, e: Effect) {
    && k in m.tasks && m.tasks[k].session in m.sessions && m.tasks[k].session in m.remotes
    && e.task.session == m.tasks[k].session && KeyOf(e.session) == KeyOf(m.sessions[m.tasks[k].session])
  }

  lemma LoadStore(m: Sys, k: Uuid, e: Effect, f: Effect)
    requires IsHome(m, k, e) && IsHome(m, k, f)
    ensures Load(Store(m, k, e), k) == e && Store(Store(m, k, e), k, f) == Store(m, k, f)
  {
    var a, b := Store(Store(m, k, e), k, f), Store(m, k, f);
    assert a.sessions == b.sessions && a.remotes == b.remotes && a.tasks == b.tasks;
    assert a.objects == b.objects;
  }

  /** A run in which only task `k` moves is that task's own steps, stored at the end. */
  lemma {:induction false} RunOfOneTask(m: Sys, k: Uuid, e: Effect, xs: seq<Choice>)
    requires IsHome(m, k, e)
    ensures Run(Store(m, k, e), Advances(k, xs)) == Store(m, k, ActAll(e, xs))
    decreases |xs|
  {
    hide Act;
    if xs != [] {
      var next := Act(e, xs[0]);
      ActStaysHome(e, xs[0]);
      LoadStore(m, k, e, next);
      assert Step(Store(m, k, e), Advance(k, xs[0])) == Store(m, k, next);
      RunOfOneTask(m, k, next, xs[1..]);
      assert Advances(k, xs)[0] == Advance(k, xs[0]) && Advances(k, xs)[1..] == Advances(k, xs[1..]);
    }
  }

  /** A completer that holds the token and may still succeed. */
  predicate IsPromising(e: Effect, content: Content) {
    && e.task.pc == Checking && IsHeldWith(e.session, e.task.token)
    && e.remote == Open && IsGood(e.session, content)
    && e.session.dataset in e.catalog.datasets && !IsDeleted(e.catalog.datasets[e.session.dataset])
    && e.session.version in e.catalog.versions
    && e.catalog.versions[e.session.version].dataset == e.session.dataset
    && e.catalog.versions[e.session.version].state == VersionUploading
  }

  /**
   * If the store works, the parts are right and nobody interferes, six steps take a completer from its
   * claim to a completed session with an available version.
   */
  lemma UndisturbedCompletionSucceeds(m: Sys, k: Uuid, content: Content, now: Time)
    requires k in m.tasks && m.tasks[k].session in m.sessions && m.tasks[k].session in m.remotes
    requires IsPromising(Load(m, k), content)
    ensures
      var s := m.tasks[k].session;
      var x := Choice(false, false, true, content, NIL, now);
      var n := Run(m, Advances(k, [x, x, x, x, x, x]));
      && s in n.sessions && n.sessions[s].state == SessionCompleted && k in n.tasks && n.tasks[k].pc == Finished
      && n.sessions[s].version in n.catalog.versions
      && n.catalog.versions[n.sessions[s].version].state == VersionAvailable
      && n.catalog.versions[n.sessions[s].version].size == Some(content.size)
      && n.catalog.versions[n.sessions[s].version].checksum == Some(content.checksum)
      && KeyOf(n.sessions[s]) in n.objects && n.objects[KeyOf(n.sessions[s])] == content
  {
    var x := Choice(false, false, true, content, NIL, now);
    var e := Load(m, k);
    assert Store(m, k, e) == m by { StoreLoad(m, k); }
    RunOfOneTask(m, k, e, [x, x, x, x, x, x]);
    hide Run, Advances;
    FiveSteps(e, x);
    SixSteps(e, x);
    hide ActAll;
  }

  lemma StoreLoad(m: Sys, k: Uuid)
    requires k in m.tasks && m.tasks[k].session in m.sessions && m.tasks[k].session in m.remotes
    ensures Store(m, k, Load(m, k)) == m
  {
    var n := Store(m, k, Load(m, k));
    assert n.sessions == m.sessions && n.remotes == m.remotes && n.tasks == m.tasks && n.objects == m.objects;
  }

  lemma FiveSteps(e: Effect, x: Choice)
    requires IsPromising(e, x.content) && !x.fails && !x.refused && x.assembles
    ensures
      var f := ActAll(e, [x, x, x, x, x]);
      && f == e.(catalog := f.catalog, remote := Assembled(x.content), stored := Some(x.content), task := e.task.(pc := Marking))
      && f.catalog.datasets.Keys == e.catalog.datasets.Keys && !IsDeleted(f.catalog.datasets[e.session.dataset])
      && e.session.version in f.catalog.versions
      && f.catalog.versions[e.session.version].dataset == e.session.dataset
      && f.catalog.versions[e.session.version].state == VersionAvailable
      && f.catalog.versions[e.session.version].size == Some(x.content.size)
      && f.catalog.versions[e.session.version].checksum == Some(x.content.checksum)
  {
    var e1 := Act(e, x);
    var e2 := Act(e1, x);
    var e3 := Act(e2, x);
    var e4 := Act(e3, x);
    assert e4.task.pc == Finalizing(x.content);
    var e5 := Act(e4, x);
    calc {
      ActAll(e, [x, x, x, x, x]);
      { assert [x, x, x, x, x][1..] == [x, x, x, x]; }
      ActAll(e1, [x, x, x, x]);
      { assert [x, x, x, x][1..] == [x, x, x]; }
      ActAll(e2, [x, x, x]);
      { assert [x, x, x][1..] == [x, x]; }
      ActAll(e3, [x, x]);
      { assert [x, x][1..] == [x]; }
      ActAll(e4, [x]);
      { assert [x][1..] == []; }
      e5;
    }
  }

  lemma {:induction false} ActAllInTwo(e: Effect, xs: seq<Choice>, ys: seq<Choice>)
    ensures ActAll(e, xs + ys) == ActAll(ActAll(e, xs), ys)
    decreases |xs|
  {
    hide Act;
    if xs == [] {
      assert [] + ys == ys;
    } else {
      assert (xs + ys)[0] == xs[0] && (xs + ys)[1..] == xs[1..] + ys;
      ActAllInTwo(Act(e, xs[0]), xs[1..], ys);
    }
  }

  /** The sixth step marks the session. */
  lemma SixSteps(e: Effect, x: Choice)
    requires IsPromising(e, x.content) && !x.fails && !x.refused && x.assembles
    ensures
      var f := ActAll(e, [x, x, x, x, x, x]);
      && f == ActAll(e, [x, x, x, x, x]).(session := f.session, task := e.task.(pc := Finished))
      && f.session == e.session.(state := SessionCompleted, token := None, completionStartedAt := None)
  {
    FiveSteps(e, x);
    var five := ActAll(e, [x, x, x, x, x]);
    ActAllInTwo(e, [x, x, x, x, x], [x]);
    assert [x, x, x, x, x] + [x] == [x, x, x, x, x, x] && [x][1..] == [];
    assert ActAll(five, [x]) == ActAll(Act(five, x), []);
  }

}
