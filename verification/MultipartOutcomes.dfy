/** What a cleanup, an abort and a completion come to when nobody interferes and every call is answered. */
module MultipartOutcomes {
  import opened Tables
  import opened Datasets
  import opened UploadSessions
  import opened Multipart
  import opened MultipartSafety
  import opened MultipartProgress

  /** At least `n` steps, each of which gets its answer from the database or the store. */
  predicate IsAnswered(xs: seq<Choice>, n: nat) {
    |xs| >= n && forall i | 0 <= i < |xs| :: !xs[i].fails
  }

  /** A version after an attempt to fail it: an upload under way fails, anything else stays. */
  function GivenUp(version: Option<Version>): Option<Version> {
    if version.Some? && version.value.state == VersionUploading then Some(version.value.(state := VersionFailed)) else version
  }

  /** The content is not what the session announced. */
  predicate IsWrong(s: Session, c: Content) {
    || c.size != s.expectedSize
    || !c.recognised
    || (s.expectedChecksum.Some? && s.expectedChecksum.value != c.checksum)
  }

  /**
   * What becomes of a session whose object is stored, `v` before and `w` after. A wrong object is deleted, and so is
   * one of a deleted dataset when the cleanup reconciles; then the session fails. A right one makes the version
   * available and completes the session, unless the version cannot be had any more: then the session is released.
   */
  ghost predicate Concluded(v: View, w: View, reconciles: bool) {
    && v.stored.Some?
    && if IsWrong(v.session, v.stored.value) || (v.deleted && reconciles) then
         w.session.state == SessionFailed && w.stored.None? && w.version == GivenUp(v.version)
       else if v.deleted || v.version.None? || v.version.value.state == VersionFailed then
         w.session.state == SessionInitiated && w.stored == v.stored && w.version == v.version
       else
         && w.session.state == SessionCompleted && w.stored == v.stored
         && w.version == Some(v.version.value.(state := VersionAvailable, size := Some(v.stored.value.size),
                                               checksum := Some(v.stored.value.checksum)))
  }

  /**
   * What becomes of a claimed session. Without an object it expires and its version fails, unless that is
   * available, which a deleted dataset's may be: then nothing changes. With one it is reconciled.
   */
  ghost predicate Swept(v: View, w: View) {
    if v.stored.Some? then Concluded(v, w, true)
    else if v.version.Some? && v.version.value.state == VersionAvailable then
      v.deleted && w.session == v.session && w.version == v.version && w.stored.None?
    else
      && w.session.state == SessionExpired && w.stored.None? && w.version == GivenUp(v.version)
      && (w.version.Some? ==> w.version.value.state == VersionFailed) && !w.remote.Open?
  }

  // ---------------------------------------------------------------- a task's last steps

  lemma {:induction false} FinishedStays(e: Effect, xs: seq<Choice>)
    requires e.task.pc == Finished
    ensures ActAll(e, xs) == e
    decreases |xs|
  {
    if xs != [] {
      FinishedStays(e, xs[1..]);
    }
  }

  lemma FromMarking(e: Effect, xs: seq<Choice>)
    requires e.task.pc == Marking && IsAnswered(xs, 1) && IsHeldWith(e.session, e.task.token)
    ensures ActAll(e, xs) == e.(session := Released(e.session, SessionCompleted), task := e.task.(pc := Finished))
  {
    FinishedStays(Act(e, xs[0]), xs[1..]);
  }

  lemma FromResetting(e: Effect, xs: seq<Choice>)
    requires e.task.pc == Resetting && IsAnswered(xs, 1) && IsHeldWith(e.session, e.task.token)
    ensures ActAll(e, xs) == e.(session := Released(e.session, SessionInitiated), task := e.task.(pc := Finished))
  {
    FinishedStays(Act(e, xs[0]), xs[1..]);
  }

  lemma FromFailing(e: Effect, xs: seq<Choice>)
    requires e.task.pc == Failing && IsAnswered(xs, 2) && IsHeldWith(e.session, e.task.token)
    ensures ActAll(e, xs) == e.(catalog := Committed(e.catalog, FailVersion(e.catalog, e.session.dataset, e.session.version)),
                                session := Released(e.session, SessionFailed), task := e.task.(pc := Finished))
  {
    hide FailVersion;
    var f := Act(e, xs[0]);
    assert xs[1..][0] == xs[1] && ActAll(e, xs) == ActAll(f, xs[1..]);
    FinishedStays(Act(f, xs[1]), xs[1..][1..]);
  }

  /** A version of this dataset that is given up. */
  lemma GivesUp(c: Catalog, d: Uuid, v: Uuid)
    requires d in c.datasets && (v in c.versions ==> c.versions[v].dataset == d)
    ensures VersionIn(Committed(c, FailVersion(c, d, v)), v) == GivenUp(VersionIn(c, v))
  {
  }

  predicate IsHolder(e: Effect) {
    && IsHeldWith(e.session, e.task.token)
    && e.session.dataset in e.catalog.datasets
    && (e.session.version in e.catalog.versions ==> e.catalog.versions[e.session.version].dataset == e.session.dataset)
  }

  /** Deleting the object ends in a failed session. */
  lemma FromDeleting(e: Effect, xs: seq<Choice>)
    requires e.task.pc == Deleting && IsAnswered(xs, 3) && IsHolder(e)
    ensures
      var f := ActAll(e, xs);
      && f.task == e.task.(pc := Finished) && f.session.state == SessionFailed && f.stored.None? && f.remote == e.remote
      && f.session == Released(e.session, SessionFailed)
      && VersionIn(f.catalog, e.session.version) == GivenUp(VersionIn(e.catalog, e.session.version))
  {
    hide FailVersion, GivenUp;
    FromFailing(Act(e, xs[0]), xs[1..]);
    GivesUp(e.catalog, e.session.dataset, e.session.version);
  }

  // ---------------------------------------------------------------- with an object in the store

  /** What the invariant says about a task that holds its session and finds an object. */
  predicate IsReady(e: Effect) {
    && IsHolder(e) && e.stored.Some?
    && (e.session.version in e.catalog.versions && e.catalog.versions[e.session.version].state == VersionAvailable ==>
          && e.catalog.versions[e.session.version].size == Some(e.stored.value.size)
          && e.catalog.versions[e.session.version].checksum == Some(e.stored.value.checksum))
  }

  /** How the finalising transaction answers. */
  lemma FinalizeAnswers(c: Catalog, d: Uuid, v: Uuid, x: Content)
    requires d in c.datasets && (v in c.versions ==> c.versions[v].dataset == d)
    requires v in c.versions && c.versions[v].state == VersionAvailable ==>
      c.versions[v].size == Some(x.size) && c.versions[v].checksum == Some(x.checksum)
    ensures
      var o := FinalizeVersion(c, d, v, x.size, x.checksum, true);
      if IsDeleted(c.datasets[d]) then o == Refused(DatasetIsDeleted)
      else if v !in c.versions || c.versions[v].state == VersionFailed then o.Refused? && o.error != DatasetIsDeleted
      else
        && o.Done?
        && VersionIn(o.catalog, v)
             == Some(c.versions[v].(state := VersionAvailable, size := Some(x.size), checksum := Some(x.checksum)))
  {
  }

  lemma FromFinalizing(e: Effect, xs: seq<Choice>)
    requires IsReady(e) && e.task.pc == Finalizing(e.stored.value) && !IsWrong(e.session, e.stored.value) && IsAnswered(xs, 4)
    ensures Concluded(Seen(e), Seen(ActAll(e, xs)), e.task.reconciles) && ActAll(e, xs).task.pc == Finished
  {
    hide FailVersion, FinalizeVersion, GivenUp, IsWrong;
    FinalizeAnswers(e.catalog, e.session.dataset, e.session.version, e.stored.value);
    var f := Act(e, xs[0]);
    assert ActAll(e, xs) == ActAll(f, xs[1..]);
    if f.task.pc == Marking {
      FromMarking(f, xs[1..]);
    } else if f.task.pc == Resetting {
      FromResetting(f, xs[1..]);
    } else {
      FromDeleting(f, xs[1..]);
    }
  }

  lemma FromInspecting(e: Effect, xs: seq<Choice>)
    requires IsReady(e) && e.task.pc == Inspecting && IsAnswered(xs, 5)
    ensures Concluded(Seen(e), Seen(ActAll(e, xs)), e.task.reconciles) && ActAll(e, xs).task.pc == Finished
  {
    hide FailVersion, FinalizeVersion, GivenUp;
    var f := Act(e, xs[0]);
    assert ActAll(e, xs) == ActAll(f, xs[1..]);
    if IsWrong(e.session, e.stored.value) {
      FromDeleting(f, xs[1..]);
    } else {
      FromFinalizing(f, xs[1..]);
    }
  }

  lemma FromHeading(e: Effect, xs: seq<Choice>)
    requires IsReady(e) && e.task.pc == Heading && IsAnswered(xs, 6)
    ensures Concluded(Seen(e), Seen(ActAll(e, xs)), e.task.reconciles) && ActAll(e, xs).task.pc == Finished
  {
    hide FailVersion, FinalizeVersion, GivenUp;
    var f := Act(e, xs[0]);
    assert ActAll(e, xs) == ActAll(f, xs[1..]);
    if e.stored.value.size != e.session.expectedSize {
      FromDeleting(f, xs[1..]);
    } else {
      FromInspecting(f, xs[1..]);
    }
  }

  lemma FromReconciling(e: Effect, xs: seq<Choice>)
    requires IsReady(e.(session := Claimed(e.session, 0, e.task.token))) && e.task.pc == Reconciling && IsAnswered(xs, 7)
    requires e.session.state == SessionAborting && xs[0].token != NIL && xs[0].token !in e.issued
    ensures Concluded(Seen(e), Seen(ActAll(e, xs)), true) && ActAll(e, xs).task.pc == Finished
  {
    hide FailVersion, FinalizeVersion, GivenUp, IsWrong;
    var f := Act(e, xs[0]);
    assert ActAll(e, xs) == ActAll(f, xs[1..]);
    FromHeading(f, xs[1..]);
    SameAnnouncement(e.session, f.session, e.stored.value);
  }

  lemma SameAnnouncement(s: Session, t: Session, c: Content)
    requires t.expectedSize == s.expectedSize && t.expectedChecksum == s.expectedChecksum
    ensures IsWrong(s, c) == IsWrong(t, c)
  {
  }

  // ---------------------------------------------------------------- without one

  lemma FromFailingExpired(e: Effect, xs: seq<Choice>)
    requires e.task.pc == FailingExpired(true) && IsAnswered(xs, 2) && e.session.state == SessionAborting
    requires e.session.dataset in e.catalog.datasets
    requires e.session.version in e.catalog.versions ==> e.catalog.versions[e.session.version].dataset == e.session.dataset
    ensures
      var f := ActAll(e, xs);
      var version := VersionIn(e.catalog, e.session.version);
      && f.task.pc == Finished && f.stored == e.stored && f.remote == e.remote
      && VersionIn(f.catalog, e.session.version) == GivenUp(version)
      && f.session == if version.Some? && version.value.state == VersionAvailable then e.session
                      else e.session.(state := SessionExpired)
  {
    hide GivenUp, FailVersion;
    GivesUp(e.catalog, e.session.dataset, e.session.version);
    FailAnswers(e.catalog, e.session.dataset, e.session.version);
    var f := Act(e, xs[0]);
    assert ActAll(e, xs) == ActAll(f, xs[1..]);
    if f.task.pc == MarkingExpired {
      assert xs[1..][0] == xs[1];
      FinishedStays(Act(f, xs[1]), xs[1..][1..]);
    } else {
      FinishedStays(f, xs[1..]);
    }
  }

  lemma FailAnswers(c: Catalog, d: Uuid, v: Uuid)
    requires d in c.datasets && (v in c.versions ==> c.versions[v].dataset == d)
    ensures
      var o := FailVersion(c, d, v);
      if v !in c.versions then o == Refused(VersionNotFound)
      else if c.versions[v].state == VersionAvailable then o == Refused(VersionInWrongState)
      else o.Done?
  {
  }

  /** What the invariant says about a sweeper that has just claimed its session. */
  ghost predicate IsSweeping(e: Effect) {
    && e.task.pc == Looking && e.session.state == SessionAborting
    && e.session.dataset in e.catalog.datasets
    && (e.session.version in e.catalog.versions ==> e.catalog.versions[e.session.version].dataset == e.session.dataset)
    && ViewOk(Seen(e))
  }

  lemma FromLooking(e: Effect, xs: seq<Choice>)
    requires IsSweeping(e) && IsAnswered(xs, 8) && xs[1].token != NIL && xs[1].token !in e.issued
    ensures Swept(Seen(e), Seen(ActAll(e, xs))) && ActAll(e, xs).task.pc == Finished
  {
    hide FailVersion, FinalizeVersion;
    var f := Act(e, xs[0]);
    assert xs[1..][0] == xs[1] && ActAll(e, xs) == ActAll(f, xs[1..]);
    if e.stored.Some? {
      FromReconciling(f, xs[1..]);
    } else {
      var g := Act(f, xs[1]);
      assert ActAll(f, xs[1..]) == ActAll(g, xs[1..][1..]);
      FromFailingExpired(g, xs[1..][1..]);
    }
  }

  // ---------------------------------------------------------------- an abort

  /**
   * What becomes of a session an abort has claimed: it is aborted whatever became of its version, which fails if it
   * was uploading, and no object can be assembled for it any more.
   */
  ghost predicate Given(v: View, w: View) {
    && w.session.state == SessionAborted && w.version == GivenUp(v.version) && w.stored == v.stored
    && w.remote == (if v.remote.Open? then Discarded else v.remote)
  }

  lemma FromDiscarding(e: Effect, xs: seq<Choice>)
    requires e.task.pc == Discarding && e.session.state == SessionAborting && IsAnswered(xs, 3)
    requires e.session.dataset in e.catalog.datasets
    requires e.session.version in e.catalog.versions ==> e.catalog.versions[e.session.version].dataset == e.session.dataset
    ensures Given(Seen(e), Seen(ActAll(e, xs))) && ActAll(e, xs).task.pc == Finished
  {
    hide FailVersion, GivenUp;
    GivesUp(e.catalog, e.session.dataset, e.session.version);
    var f := Act(e, xs[0]);
    var g := Act(f, xs[1]);
    var h := Act(g, xs[2]);
    assert ActAll(e, xs) == ActAll(f, xs[1..]);
    assert xs[1..][0] == xs[1] && ActAll(f, xs[1..]) == ActAll(g, xs[1..][1..]);
    assert xs[1..][1..][0] == xs[2] && ActAll(g, xs[1..][1..]) == ActAll(h, xs[1..][1..][1..]);
    FinishedStays(h, xs[1..][1..][1..]);
  }

  // ---------------------------------------------------------------- a client's completion

  /** The session as it looks once the store was asked to assemble the object. */
  function Asked(v: View, x: Choice): View {
    if v.remote.Open? && x.assembles then v.(remote := Assembled(x.content), stored := Some(x.content)) else v
  }

  /** Every call is answered but perhaps one: the listing of the parts, or the call that assembles the object. */
  predicate IsMostlyAnswered(xs: seq<Choice>) {
    |xs| >= 9 && (xs[0].fails ==> !xs[1].fails) && forall i | 2 <= i < |xs| :: !xs[i].fails
  }

  /**
   * What becomes of a session a completer has claimed: a request with the wrong parts, or one for which there is no
   * object in the end, only releases it; otherwise its object decides. A listing that fails is taken to mean that
   * the object may be there already, and so is a call to assemble it that fails.
   */
  ghost predicate Attempted(v: View, w: View, xs: seq<Choice>)
    requires |xs| >= 2
  {
    var u := if xs[0].refused || xs[0].fails then v else Asked(v, xs[1]);
    if xs[0].refused || u.stored.None? then
      w.session.state == SessionInitiated && w.version == v.version && w.stored == v.stored && w.remote == v.remote
    else Concluded(u, w, false)
  }

  /** What the invariant says about a completer that has just claimed its session. */
  ghost predicate IsCompleting(e: Effect) {
    && e.task.pc == Checking && !e.task.reconciles && IsHolder(e) && ViewOk(Seen(e))
  }

  lemma FromChecking(e: Effect, xs: seq<Choice>)
    requires IsCompleting(e) && IsMostlyAnswered(xs)
    ensures Attempted(Seen(e), Seen(ActAll(e, xs)), xs) && ActAll(e, xs).task.pc == Finished
  {
    hide FailVersion, FinalizeVersion, Concluded, ActAll;
    var f := Act(e, xs[0]);
    assert xs[1..][0] == xs[1];
    ActAllNext(e, xs);
    if f.task.pc == Resetting {
      ResetAfter(f, xs[1..]);
    } else if f.task.pc == Heading {
      FromHeading(f, xs[1..]);
    } else {
      ActAllNext(f, xs[1..]);
      FromAssembled(Act(f, xs[1]), xs[1..][1..]);
    }
  }

  lemma ActAllNext(e: Effect, xs: seq<Choice>)
    requires xs != []
    ensures ActAll(e, xs) == ActAll(Act(e, xs[0]), xs[1..])
  {
    hide Act;
  }

  /** The release of a session does not need an answer from the store. */
  lemma ResetAfter(e: Effect, xs: seq<Choice>)
    requires e.task.pc == Resetting && xs != [] && IsHeldWith(e.session, e.task.token)
    ensures ActAll(e, xs) == e.(session := Released(e.session, SessionInitiated), task := e.task.(pc := Finished))
  {
    hide FailVersion, FinalizeVersion;
    FinishedStays(Act(e, xs[0]), xs[1..]);
  }

  lemma FromAssembled(e: Effect, xs: seq<Choice>)
    requires (e.task.pc == Heading || e.task.pc == Reheading) && !e.task.reconciles && IsHolder(e) && ViewOk(Seen(e))
    requires IsAnswered(xs, 7)
    ensures
      var f := ActAll(e, xs);
      && f.task.pc == Finished
      && if e.stored.Some? then Concluded(Seen(e), Seen(f), false)
         else f == e.(session := Released(e.session, SessionInitiated), task := e.task.(pc := Finished))
  {
    hide FailVersion, FinalizeVersion, Concluded, ActAll;
    if e.stored.None? {
      FromNothing(e, xs);
    } else if e.task.pc == Heading {
      FromHeading(e, xs);
    } else {
      ActAllNext(e, xs);
      FromHeading(Act(e, xs[0]), xs[1..]);
    }
  }

  lemma FromNothing(e: Effect, xs: seq<Choice>)
    requires (e.task.pc == Heading || e.task.pc == Reheading) && !e.task.reconciles && e.stored.None?
    requires IsAnswered(xs, 2) && IsHeldWith(e.session, e.task.token)
    ensures ActAll(e, xs) == e.(session := Released(e.session, SessionInitiated), task := e.task.(pc := Finished))
  {
    hide FailVersion, FinalizeVersion;
    assert ActAll(e, xs) == ActAll(Act(e, xs[0]), xs[1..]);
    FromResetting(Act(e, xs[0]), xs[1..]);
  }

  // ---------------------------------------------------------------- in every reachable state

  lemma LoadIsOk(m: Sys, k: Uuid)
    requires k in m.tasks
    requires Inv(m)
    ensures m.tasks[k].session in m.sessions && m.tasks[k].session in m.remotes
    ensures Seen(Load(m, k)) == ViewOf(m, m.tasks[k].session) && ViewOk(Seen(Load(m, k)))
    ensures
      var e := Load(m, k);
      && e.session.dataset in e.catalog.datasets
      && (e.session.version in e.catalog.versions ==> e.catalog.versions[e.session.version].dataset == e.session.dataset)
  {
    hide ViewOk, TaskOk, CatalogInv, HasSession;
  }

  /** Task `k` takes these steps, and nobody else any. */
  ghost function After(m: Sys, k: Uuid, xs: seq<Choice>): Sys {
    Run(m, Advances(k, xs))
  }

  /** It is done; of the sessions only its own, and of the tasks only itself, changed. */
  ghost predicate IsDone(m: Sys, n: Sys, k: Uuid) {
    && k in m.tasks && k in n.tasks && n.tasks == m.tasks[k := n.tasks[k]] && n.tasks[k].pc == Finished
    && m.tasks[k].session in n.sessions && m.tasks[k].session in n.remotes
    && n.sessions == m.sessions[m.tasks[k].session := n.sessions[m.tasks[k].session]]
  }

  lemma AfterIsActed(m: Sys, k: Uuid, xs: seq<Choice>)
    requires k in m.tasks && m.tasks[k].session in m.sessions && m.tasks[k].session in m.remotes
    requires ActAll(Load(m, k), xs).task.pc == Finished
    ensures IsDone(m, After(m, k, xs), k)
    ensures ViewOf(After(m, k, xs), m.tasks[k].session) == Seen(ActAll(Load(m, k), xs))
  {
    StoreLoad(m, k);
    RunOfOneTask(m, k, Load(m, k), xs);
    ActAllStaysHome(Load(m, k), xs);
    hide Run, Advances, ActAll;
  }

  lemma {:induction false} ActAllStaysHome(e: Effect, xs: seq<Choice>)
    ensures KeyOf(ActAll(e, xs).session) == KeyOf(e.session)
    decreases |xs|
  {
    hide Act;
    if xs != [] {
      ActStaysHome(e, xs[0]);
      ActAllStaysHome(Act(e, xs[0]), xs[1..]);
    }
  }

  /**
   * Eight answered steps of a sweeper that nobody disturbs settle its session: completed, failed, expired or
   * released, as its object, its version and its dataset call for.
   */
  lemma UndisturbedSweep(actions: seq<Action>, k: Uuid, xs: seq<Choice>)
    requires
      var m := Reached(actions);
      && k in m.tasks && m.tasks[k].pc == Looking && m.tasks[k].session in m.sessions
      && m.sessions[m.tasks[k].session].state == SessionAborting
      && IsAnswered(xs, 8) && xs[1].token != NIL && xs[1].token !in m.issued
    ensures
      var m := Reached(actions);
      var s, n := m.tasks[k].session, After(m, k, xs);
      IsDone(m, n, k) && s in m.remotes && Swept(ViewOf(m, s), ViewOf(n, s))
  {
    hide Inv, Run, Swept, ViewOk, After;
    var m := Reached(actions);
    ReachedInv(actions);
    LoadIsOk(m, k);
    FromLooking(Load(m, k), xs);
    AfterIsActed(m, k, xs);
  }

  /** Three such steps of an aborter abort its session. */
  lemma UndisturbedAbort(actions: seq<Action>, k: Uuid, xs: seq<Choice>)
    requires
      var m := Reached(actions);
      && k in m.tasks && m.tasks[k].pc == Discarding && m.tasks[k].session in m.sessions
      && m.sessions[m.tasks[k].session].state == SessionAborting && IsAnswered(xs, 3)
    ensures
      var m := Reached(actions);
      var s, n := m.tasks[k].session, After(m, k, xs);
      IsDone(m, n, k) && s in m.remotes && Given(ViewOf(m, s), ViewOf(n, s))
  {
    hide Inv, Run, Given, ViewOk, After;
    var m := Reached(actions);
    ReachedInv(actions);
    LoadIsOk(m, k);
    FromDiscarding(Load(m, k), xs);
    AfterIsActed(m, k, xs);
  }

  /**
   * Nine such steps of a completer, of which one may go unanswered, settle its session, whatever state its upload,
   * its version and its dataset are in.
   */
  lemma UndisturbedCompletion(actions: seq<Action>, k: Uuid, xs: seq<Choice>)
    requires
      var m := Reached(actions);
      && k in m.tasks && m.tasks[k].pc == Checking && !m.tasks[k].reconciles && m.tasks[k].session in m.sessions
      && IsHeldWith(m.sessions[m.tasks[k].session], m.tasks[k].token) && IsMostlyAnswered(xs)
    ensures
      var m := Reached(actions);
      var s, n := m.tasks[k].session, After(m, k, xs);
      IsDone(m, n, k) && s in m.remotes && Attempted(ViewOf(m, s), ViewOf(n, s), xs)
  {
    hide Inv, Run, Attempted, ViewOk, After;
    var m := Reached(actions);
    ReachedInv(actions);
    LoadIsOk(m, k);
    FromChecking(Load(m, k), xs);
    AfterIsActed(m, k, xs);
  }

  /** Should the store or the database not answer a task that holds its session, the next step releases the session. */
  lemma FailureReleases(e: Effect, x: Choice, y: Choice)
    requires (e.task.pc == Heading || e.task.pc == Inspecting || e.task.pc.Finalizing?) && x.fails
    requires IsHeldWith(e.session, e.task.token)
    ensures Act(Act(e, x), y) == e.(session := e.session.(state := SessionInitiated, token := None, completionStartedAt := None),
                                    task := e.task.(pc := Finished))
  {
    hide FailVersion, FinalizeVersion;
  }

  // ---------------------------------------------------------------- how tasks begin

  /** A sweeper begins exactly on an expired session that nobody completes, or nobody has for the grace period. */
  lemma SweepBeginsExactly(m: Sys, k: Uuid, s: Uuid, now: Time, staleBefore: Time)
    requires k !in m.tasks
    ensures
      var n := Step(m, StartSweep(k, s, now, staleBefore));
      if && s in m.sessions && m.sessions[s].expiresAt <= now
         && (m.sessions[s].state == SessionInitiated || m.sessions[s].state == SessionAborting
             || (m.sessions[s].state == SessionCompleting && m.sessions[s].updatedAt <= staleBefore))
      then
        n == m.(sessions := m.sessions[s := m.sessions[s].(state := SessionAborting, token := None, completionStartedAt := None, updatedAt := now)],
                tasks := m.tasks[k := Task(s, NIL, false, Looking)])
      else n == m
  {
    hide Act, BeginComplete, BeginAbort, HasSession, Load, Store, Committed;
  }

  /** An aborter begins exactly on the owner's session that is initiated, aborting or failed. */
  lemma AbortBeginsExactly(m: Sys, k: Uuid, s: Uuid, owner: Uuid, now: Time)
    requires k !in m.tasks
    ensures
      var n := Step(m, StartAbort(k, s, owner, now));
      if && s in m.sessions && m.sessions[s].owner == owner
         && (m.sessions[s].state == SessionInitiated || m.sessions[s].state == SessionFailed || m.sessions[s].state == SessionAborting)
      then
        n == m.(sessions := if m.sessions[s].state == SessionAborting then m.sessions
                            else m.sessions[s := m.sessions[s].(state := SessionAborting, updatedAt := now)],
                tasks := m.tasks[k := Task(s, NIL, false, Discarding)])
      else n == m
  {
    hide Act, BeginComplete, HasSession, Load, Store, Committed;
    if s in m.sessions {
      assert m.sessions[s := m.sessions[s]] == m.sessions;
    }
  }

  /** A completer begins exactly on the owner's session that has not expired, or that a stale completer holds. */
  lemma CompletionBeginsExactly(m: Sys, k: Uuid, s: Uuid, owner: Uuid, now: Time, staleBefore: Time, token: Uuid)
    requires k !in m.tasks && token != NIL && token !in m.issued
    requires s in m.sessions ==> Tokened(m.sessions[s])
    ensures
      var n := Step(m, StartComplete(k, s, owner, now, staleBefore, token));
      if && s in m.sessions && m.sessions[s].owner == owner
         && ((m.sessions[s].state == SessionInitiated && now < m.sessions[s].expiresAt)
             || (m.sessions[s].state == SessionCompleting && m.sessions[s].completionStartedAt.value <= staleBefore))
      then
        n == m.(sessions := m.sessions[s := m.sessions[s].(state := SessionCompleting, token := Some(token),
                                                           completionStartedAt := Some(now), updatedAt := now)],
                issued := m.issued + {token}, tasks := m.tasks[k := Task(s, token, false, Checking)])
      else k !in n.tasks
  {
    hide Act, BeginAbort, HasSession, Load, Store, Committed;
  }
}
