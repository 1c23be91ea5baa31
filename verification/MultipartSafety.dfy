/** Safety of multipart completion under every interleaving. */
module MultipartSafety {
  import opened Tables
  import opened Datasets
  import opened UploadSessions
  import opened Multipart

  // ---------------------------------------------------------------- one task step

  /** A catalog change on behalf of version `v` only: no dataset appears or is deleted. */
  ghost predicate OnlyVersion(before: Catalog, after: Catalog, v: Uuid) {
    && after.datasets.Keys == before.datasets.Keys
    && after.versions.Keys == before.versions.Keys
    && (forall d | d in before.datasets :: IsDeleted(after.datasets[d]) == IsDeleted(before.datasets[d]))
    && (forall w | w in before.versions && w != v :: after.versions[w] == before.versions[w])
    && (v in before.versions ==>
          after.versions[v].dataset == before.versions[v].dataset)
    && CatalogInv(after)
  }

  lemma FinalizeIsLocal(c: Catalog, d: Uuid, v: Uuid, size: int, checksum: string, fenced: bool)
    requires CatalogInv(c)
    ensures
      var o := FinalizeVersion(c, d, v, size, checksum, fenced);
      && (o.Done? ==>
            && OnlyVersion(c, o.catalog, v) && fenced && d in c.datasets && !IsDeleted(c.datasets[d])
            && v in c.versions
            && o.catalog.versions[v].state == VersionAvailable
            && o.catalog.versions[v].size == Some(size) && o.catalog.versions[v].checksum == Some(checksum)
            && (c.versions[v].state == VersionAvailable ==> o.catalog == c)
            && c.versions[v].state != VersionFailed)
      && (o.Refused? && o.error == DatasetIsDeleted ==> d in c.datasets && IsDeleted(c.datasets[d]))
  {
  }

  lemma FailIsLocal(c: Catalog, d: Uuid, v: Uuid)
    requires CatalogInv(c) && d in c.datasets && (v in c.versions ==> c.versions[v].dataset == d)
    ensures
      var o := FailVersion(c, d, v);
      var after := Committed(c, o);
      && OnlyVersion(c, after, v)
      && (v in c.versions && c.versions[v].state == VersionAvailable ==> after == c && o == Refused(VersionInWrongState))
      && (v in c.versions && c.versions[v].state != VersionAvailable ==> after.versions[v].state == VersionFailed)
  {
  }

  function Seen(e: Effect): View {
    View(e.session, DeletedIn(e.catalog, e.session.dataset), VersionIn(e.catalog, e.session.version), e.remote, e.stored)
  }

  ghost predicate EffectOk(e: Effect) {
    && CatalogInv(e.catalog)
    && e.session.dataset in e.catalog.datasets
    && (e.session.version in e.catalog.versions ==> e.catalog.versions[e.session.version].dataset == e.session.dataset)
    && ViewOk(Seen(e)) && TaskOk(Seen(e), e.task)
  }

  /** A step that keeps its session's view sound, undoes nothing and justifies its task's next step. */
  ghost predicate IsSafe(e: Effect, after: Effect) {
    && EffectOk(after) && ViewLater(Seen(e), Seen(after))
    && OnlyVersion(e.catalog, after.catalog, e.session.version)
    && after.task.session == e.task.session && e.issued <= after.issued
  }

  predicate ChangesCatalog(pc: Pc) {
    pc.Finalizing? || pc.Failing? || pc.FailingAborted? || pc.FailingExpired?
  }

  /** Every step of every task is safe. */
  lemma ActIsSafe(e: Effect, x: Choice)
    requires EffectOk(e)
    ensures IsSafe(e, Act(e, x))
  {
    if e.task.pc.Finalizing? {
      FinalizeIsSafe(e, x);
    } else if ChangesCatalog(e.task.pc) {
      FailIsSafe(e, x);
    } else {
      OtherActIsSafe(e, x);
    }
  }

  lemma OtherActIsSafe(e: Effect, x: Choice)
    requires EffectOk(e) && !ChangesCatalog(e.task.pc)
    ensures IsSafe(e, Act(e, x))
  {
    if ChangesSession(e.task.pc) {
      SessionActIsSafe(e, x);
    } else if ChangesStore(e.task.pc) {
      StoreActIsSafe(e, x);
    } else {
      LookIsSafe(e, x);
    }
  }

  predicate ChangesSession(pc: Pc) {
    pc.Marking? || pc.Resetting? || pc.MarkingFailed? || pc.MarkingAborted? || pc.MarkingExpired? || pc.Reconciling?
  }

  predicate ChangesStore(pc: Pc) {
    pc.Assembling? || pc.Deleting? || pc.Discarding? || pc.DiscardingExpired?
  }

  lemma SessionActIsSafe(e: Effect, x: Choice)
    requires EffectOk(e) && ChangesSession(e.task.pc)
    ensures IsSafe(e, Act(e, x))
  {
    hide FinalizeVersion, FailVersion, CatalogInv, OnlyVersion, DeletedIn, VersionIn, ViewOk, ViewLater;
    SameCatalog(e.catalog, e.session.version);
    ViewTokened(Seen(e));
    SettleViewOk(Seen(e), Act(e, x).session, e.task.pc);
  }

  lemma ViewTokened(v: View)
    requires ViewOk(v)
    ensures Tokened(v.session)
  {
  }

  /** A session row after one of the updates a task may make from where it is. */
  lemma SettleViewOk(v: View, row: Session, pc: Pc)
    requires ViewOk(v) && TaskOk(v, Task(NIL, NIL, false, pc)) && Tokened(row) && SessionLater(v.session, row)
    requires row.state == v.session.state || (row.state == SessionCompleted ==> pc.Marking?)
    requires row.state == v.session.state || (row.state == SessionExpired ==> pc.MarkingExpired?)
    ensures ViewOk(v.(session := row)) && ViewLater(v, v.(session := row))
  {
  }

  lemma StoreActIsSafe(e: Effect, x: Choice)
    requires EffectOk(e) && ChangesStore(e.task.pc)
    ensures IsSafe(e, Act(e, x))
  {
    hide FinalizeVersion, FailVersion, CatalogInv, OnlyVersion, DeletedIn, VersionIn, Tokened;
    SameCatalog(e.catalog, e.session.version);
  }

  lemma LookIsSafe(e: Effect, x: Choice)
    requires EffectOk(e) && !ChangesCatalog(e.task.pc) && !ChangesSession(e.task.pc) && !ChangesStore(e.task.pc)
    ensures IsSafe(e, Act(e, x))
  {
    hide FinalizeVersion, FailVersion, CatalogInv, OnlyVersion, DeletedIn, VersionIn, Tokened;
    SameCatalog(e.catalog, e.session.version);
    assert Act(e, x) == e.(task := Act(e, x).task);
  }

  lemma SameCatalog(c: Catalog, v: Uuid)
    requires CatalogInv(c)
    ensures OnlyVersion(c, c, v)
  {
  }

  lemma FinalizeIsSafe(e: Effect, x: Choice)
    requires EffectOk(e) && e.task.pc.Finalizing?
    ensures IsSafe(e, Act(e, x))
  {
    var s, measured := e.session, e.task.pc.measured;
    FinalizeIsLocal(e.catalog, s.dataset, s.version, measured.size, measured.checksum, IsHeldWith(s, e.task.token));
    SameCatalog(e.catalog, s.version);
    hide FinalizeVersion, CatalogInv;
  }

  lemma FailIsSafe(e: Effect, x: Choice)
    requires EffectOk(e) && (e.task.pc.Failing? || e.task.pc.FailingAborted? || e.task.pc.FailingExpired?)
    ensures IsSafe(e, Act(e, x))
  {
    hide Act, Failed, FailVersion;
    FailSteps(e, x);
    FailedIsLocal(e, x);
    var after, version := Act(e, x), VersionIn(Failed(e, x), e.session.version);
    FailedViewOk(Seen(e), version);
    hide ViewOk, ViewLater, CatalogInv, OnlyVersion;
    FailedLooks(e, x);
    assert Seen(after) == Seen(e).(version := version);
  }

  lemma FailedLooks(e: Effect, x: Choice)
    requires OnlyVersion(e.catalog, Failed(e, x), e.session.version)
    ensures DeletedIn(Failed(e, x), e.session.dataset) == DeletedIn(e.catalog, e.session.dataset)
    ensures e.session.dataset in e.catalog.datasets ==> e.session.dataset in Failed(e, x).datasets
    ensures CatalogInv(Failed(e, x))
    ensures e.session.version in Failed(e, x).versions ==>
      && e.session.version in e.catalog.versions
      && Failed(e, x).versions[e.session.version].dataset == e.catalog.versions[e.session.version].dataset
  {
    hide Failed, CatalogInv;
  }

  lemma FailSteps(e: Effect, x: Choice)
    requires e.task.pc.Failing? || e.task.pc.FailingAborted? || e.task.pc.FailingExpired?
    ensures
      var after, o := Act(e, x), FailVersion(e.catalog, e.session.dataset, e.session.version);
      && after == e.(catalog := Failed(e, x), task := e.task.(pc := after.task.pc))
      && (after.task.pc == MarkingFailed || after.task.pc == MarkingAborted || after.task.pc == Finished
          || (after.task.pc == MarkingExpired && !x.fails && (o.Done? || o.error == VersionNotFound)))
  {
    hide FailVersion, Failed, FinalizeVersion;
  }

  /** What the attempt to fail a version can do to the catalog. */
  lemma FailedIsLocal(e: Effect, x: Choice)
    requires EffectOk(e)
    ensures
      var v, before, after := e.session.version, e.catalog, Failed(e, x);
      && OnlyVersion(before, after, v)
      && (VersionIn(after, v) == VersionIn(before, v)
          || (VersionIn(before, v).Some? && !IsAvailable(Seen(e)) && VersionIn(after, v).value.state == VersionFailed))
      && (!x.fails && (FailVersion(before, e.session.dataset, v).Done?
                       || FailVersion(before, e.session.dataset, v).error == VersionNotFound) ==>
            VersionIn(after, v).None? || VersionIn(after, v).value.state == VersionFailed)
  {
    FailIsLocal(e.catalog, e.session.dataset, e.session.version);
    FailErrors(e.catalog, e.session.dataset, e.session.version);
    SameCatalog(e.catalog, e.session.version);
    hide FailVersion, CatalogInv, ViewOk, TaskOk;
  }

  /** An upload that was under way may fail; any other version stays. */
  lemma FailedViewOk(v: View, version: Option<Version>)
    requires ViewOk(v)
    requires version == v.version || (v.version.Some? && !IsAvailable(v) && version.Some? && version.value.state == VersionFailed)
    ensures ViewOk(v.(version := version)) && ViewLater(v, v.(version := version))
  {
  }

  lemma FailErrors(c: Catalog, d: Uuid, v: Uuid)
    ensures
      var o := FailVersion(c, d, v);
      && (o.Refused? && o.error == VersionNotFound ==> d in c.datasets && (v !in c.versions || c.versions[v].dataset != d))
      && (o.Done? ==> v in c.versions && o.catalog.versions.Keys == c.versions.Keys && o.catalog.versions[v].state == VersionFailed)
  {
  }

  // ---------------------------------------------------------------- from one session to the whole system

  /** Sessions stay, and none of their views goes back. */
  ghost predicate ViewsLater(m: Sys, n: Sys) {
    forall s | s in m.sessions && s in m.remotes :: s in n.sessions && s in n.remotes && ViewLater(ViewOf(m, s), ViewOf(n, s))
  }

  /** A step that touches one session's rows, upload and object, and its version. */
  ghost predicate IsLocal(m: Sys, n: Sys, s: Uuid) {
    && s in m.sessions && s in n.sessions && s in n.remotes
    && n.sessions == m.sessions[s := n.sessions[s]] && SessionLater(m.sessions[s], n.sessions[s])
    && n.remotes == m.remotes[s := n.remotes[s]]
    && n.objects == WithObject(m.objects, KeyOf(m.sessions[s]), ObjectAt(n.objects, KeyOf(m.sessions[s])))
    && n.reserved == m.reserved
    && OnlyVersion(m.catalog, n.catalog, m.sessions[s].version)
  }

  /** The other sessions look the same. */
  lemma OthersLookTheSame(m: Sys, n: Sys, s: Uuid, t: Uuid)
    requires Placed(m) && IsLocal(m, n, s) && t in m.sessions && t != s
    ensures t in n.sessions && t in n.remotes && ViewOf(n, t) == ViewOf(m, t)
  {
    hide CatalogInv, SessionLater, HasSession;
    assert m.sessions[t].version != m.sessions[s].version;
  }

  lemma LocalKeepsPlaced(m: Sys, n: Sys, s: Uuid)
    requires Placed(m) && IsLocal(m, n, s)
    requires forall v | v in n.catalog.versions && n.catalog.versions[v] != m.catalog.versions[v] :: v == m.sessions[s].version
    requires forall k | k in n.tasks :: n.tasks[k].session in m.sessions
    ensures Placed(n)
  {
    hide CatalogInv, HasSession;
    VersionsKeepSessions(m.sessions, n.sessions, s);
  }

  lemma VersionsKeepSessions(before: map<Uuid, Session>, after: map<Uuid, Session>, s: Uuid)
    requires s in before && s in after && after == before[s := after[s]] && SessionLater(before[s], after[s])
    ensures forall v | HasSession(before, v) :: HasSession(after, v)
    ensures HasSession(before, before[s].version)
  {
    forall v | HasSession(before, v) ensures HasSession(after, v) {
      var t :| t in before && before[t].version == v;
      assert after[t].version == v;
    }
  }

  /** Every task either was there before, or belongs to session `s` and may be where it is. */
  ghost predicate TasksOk(m: Sys, n: Sys, s: Uuid)
    requires s in n.sessions && s in n.remotes
  {
    forall k | k in n.tasks ::
      || (k in m.tasks && n.tasks[k] == m.tasks[k])
      || (n.tasks[k].session == s && TaskOk(ViewOf(n, s), n.tasks[k]))
  }

  lemma LocalKeepsInv(m: Sys, n: Sys, s: Uuid)
    requires IsLocal(m, n, s) && s in m.remotes
    requires ViewOk(ViewOf(n, s)) && ViewLater(ViewOf(m, s), ViewOf(n, s)) && TasksOk(m, n, s)
    requires Inv(m)
    ensures Inv(n) && ViewsLater(m, n)
  {
    hide ViewOk, ViewLater, TaskOk, ViewOf, CatalogInv, HasSession;
    assert Placed(n) by {
      LocalKeepsPlaced(m, n, s);
    }
    LocalKeepsSound(m, n, s);
  }

  lemma LocalKeepsSound(m: Sys, n: Sys, s: Uuid)
    requires IsLocal(m, n, s) && s in m.remotes
    requires ViewOk(ViewOf(n, s)) && ViewLater(ViewOf(m, s), ViewOf(n, s)) && TasksOk(m, n, s)
    requires Placed(n)
    requires Inv(m)
    ensures Sound(n) && ViewsLater(m, n)
  {
    hide ViewOk, ViewLater, TaskOk, ViewOf, CatalogInv, HasSession, OnlyVersion, SessionLater, WithObject;
    forall t | t in m.sessions && t != s
      ensures ViewOf(n, t) == ViewOf(m, t) && ViewLater(ViewOf(m, t), ViewOf(n, t))
    {
      OthersLookTheSame(m, n, s, t);
      LaterRefl(ViewOf(m, t));
    }
    forall k | k in n.tasks ensures TaskOk(ViewOf(n, n.tasks[k].session), n.tasks[k]) {
      if k in m.tasks && n.tasks[k] == m.tasks[k] {
        TaskStaysOk(ViewOf(m, m.tasks[k].session), ViewOf(n, m.tasks[k].session), m.tasks[k]);
      }
    }
  }

  lemma LaterRefl(v: View)
    ensures ViewLater(v, v)
  {
  }

  // ---------------------------------------------------------------- every action

  lemma AdvanceKeepsInv(m: Sys, k: Uuid, x: Choice)
    requires k in m.tasks
    requires Inv(m)
    ensures Inv(Step(m, Advance(k, x))) && ViewsLater(m, Step(m, Advance(k, x)))
  {
    hide Act, ViewOk, ViewLater, TaskOk, CatalogInv, HasSession;
    var s, e := m.tasks[k].session, Load(m, k);
    assert EffectOk(e) by {
      assert Seen(e) == ViewOf(m, s);
    }
    ActIsSafe(e, x);
    var after, n := Act(e, x), Step(m, Advance(k, x));
    assert SessionLater(e.session, after.session) by { LaterKeepsSession(Seen(e), Seen(after)); }
    hide OnlyVersion;
    assert ObjectAt(n.objects, KeyOf(e.session)) == after.stored;
    assert ViewOf(n, s) == Seen(after);
    LocalKeepsInv(m, n, s);
  }

  lemma LaterKeepsSession(v: View, w: View)
    requires ViewLater(v, w)
    ensures SessionLater(v.session, w.session)
  {
  }

  /** A step that only rewrites one session row and may start a task at a point that needs no justification. */
  lemma RowKeepsInv(m: Sys, n: Sys, s: Uuid, row: Session, k: Uuid, t: Task)
    requires s in m.sessions && Tokened(row) && SessionLater(m.sessions[s], row)
    requires row.state == m.sessions[s].state || (row.state != SessionCompleted && row.state != SessionExpired)
    requires n == m.(sessions := m.sessions[s := row], issued := n.issued, tasks := n.tasks)
    requires n.tasks == m.tasks || (n.tasks == m.tasks[k := t] && t.session == s && t.pc in {Checking, Discarding, Looking})
    requires Inv(m)
    ensures Inv(n) && ViewsLater(m, n)
  {
    hide CatalogInv, HasSession, ViewOk, ViewLater, TaskOk, Tokened, SessionLater;
    SameCatalog(m.catalog, m.sessions[s].version);
    RowViewOk(ViewOf(m, s), row);
    SameKey(m.sessions[s], row);
    assert ViewOf(n, s) == ViewOf(m, s).(session := row);
    hide OnlyVersion;
    SameObjects(m.objects, KeyOf(row));
    assert n.remotes == m.remotes[s := n.remotes[s]];
    hide ViewOf;
    assert TasksOk(m, n, s) by { StartIsOk(ViewOf(n, s), t); }
    hide Inv;
    LocalKeepsInv(m, n, s);
  }

  lemma RowViewOk(v: View, row: Session)
    requires ViewOk(v) && Tokened(row) && SessionLater(v.session, row)
    requires row.state == v.session.state || (row.state != SessionCompleted && row.state != SessionExpired)
    ensures ViewOk(v.(session := row)) && ViewLater(v, v.(session := row))
  {
  }

  lemma SameKey(s: Session, row: Session)
    requires SessionLater(s, row)
    ensures KeyOf(row) == KeyOf(s) && row.dataset == s.dataset && row.version == s.version
  {
  }

  lemma SameObjects(objects: map<ObjectKey, Content>, key: ObjectKey)
    ensures WithObject(objects, key, ObjectAt(objects, key)) == objects
  {
  }

  lemma StartIsOk(v: View, t: Task)
    ensures t.pc in {Checking, Discarding, Looking} ==> TaskOk(v, t)
  {
  }

  lemma StartCompleteKeepsInv(m: Sys, a: Action)
    requires a.StartComplete?
    requires Inv(m)
    ensures Inv(Step(m, a)) && ViewsLater(m, Step(m, a))
  {
    hide Inv, ViewsLater, BeginComplete;
    StillLater(m);
    if !(a.task in m.tasks || a.session !in m.sessions || a.token == NIL || a.token in m.issued) {
      var row := BeginComplete(m.sessions[a.session], a.owner, a.now, a.staleBefore, a.token).session;
      InvTokened(m, a.session);
      ClaimIsARow(m.sessions[a.session], a.owner, a.now, a.staleBefore, a.token);
      RowKeepsInv(m, Step(m, a), a.session, row, a.task, Task(a.session, a.token, false, Checking));
    }
  }

  lemma InvTokened(m: Sys, s: Uuid)
    requires s in m.sessions
    requires Inv(m)
    ensures Tokened(m.sessions[s])
  {
    hide CatalogInv, HasSession, Tokened, TaskOk;
    assert ViewOk(ViewOf(m, s));
  }

  lemma ClaimIsARow(s: Session, owner: Uuid, now: Time, staleBefore: Time, token: Uuid)
    requires Tokened(s) && token != NIL
    ensures
      var row := BeginComplete(s, owner, now, staleBefore, token).session;
      && Tokened(row) && SessionLater(s, row)
      && (row == s || row.state == SessionCompleting || row.state == SessionAborting)
      && (BeginComplete(s, owner, now, staleBefore, token).error.None? ==> row.token == Some(token))
      && (row.token == s.token || row.token.None? || row.token == Some(token))
  {
  }

  lemma StartAbortKeepsInv(m: Sys, a: Action)
    requires a.StartAbort?
    requires Inv(m)
    ensures Inv(Step(m, a)) && ViewsLater(m, Step(m, a))
  {
    hide Inv, ViewsLater;
    StillLater(m);
    if !(a.task in m.tasks || a.session !in m.sessions) {
      InvTokened(m, a.session);
      RowKeepsInv(m, Step(m, a), a.session, BeginAbort(m.sessions[a.session], a.owner, a.now).session, a.task,
                  Task(a.session, NIL, false, Discarding));
    }
  }

  lemma StartSweepKeepsInv(m: Sys, a: Action)
    requires a.StartSweep?
    requires Inv(m)
    ensures Inv(Step(m, a)) && ViewsLater(m, Step(m, a))
  {
    hide Inv, ViewsLater;
    StillLater(m);
    if !(a.task in m.tasks || a.session !in m.sessions) && IsClaimable(m.sessions[a.session], a.now, a.staleBefore) {
      InvTokened(m, a.session);
      RowKeepsInv(m, Step(m, a), a.session, ClaimExpired(m.sessions[a.session], a.now), a.task,
                  Task(a.session, NIL, false, Looking));
    }
  }

  lemma StillLater(m: Sys)
    ensures ViewsLater(m, m)
  {
    forall s | s in m.sessions && s in m.remotes ensures ViewLater(ViewOf(m, s), ViewOf(m, s)) {
      LaterRefl(ViewOf(m, s));
    }
  }

  /** A change of the catalog that no session can see. */
  lemma UnseenKeepsInv(m: Sys, n: Sys)
    requires n == m.(catalog := n.catalog, reserved := n.reserved)
    requires CatalogInv(n.catalog) && m.reserved <= n.reserved && n.catalog.versions.Keys <= n.reserved
    requires forall d | d in m.catalog.datasets :: DeletedIn(n.catalog, d) == DeletedIn(m.catalog, d) && d in n.catalog.datasets
    requires forall s | s in m.sessions :: VersionIn(n.catalog, m.sessions[s].version) == VersionIn(m.catalog, m.sessions[s].version)
    requires forall v | v in n.catalog.versions && n.catalog.versions[v].state != VersionUploading ::
               VersionIn(n.catalog, v) == VersionIn(m.catalog, v)
    requires Inv(m)
    ensures Inv(n) && ViewsLater(m, n)
  {
    hide CatalogInv, HasSession, ViewOk, TaskOk, ViewLater;
    forall s | s in m.sessions ensures ViewOf(n, s) == ViewOf(m, s) && ViewLater(ViewOf(m, s), ViewOf(n, s)) {
      LaterRefl(ViewOf(m, s));
    }
    hide ViewOf;
  }

  lemma CreateDatasetKeepsInv(m: Sys, a: Action)
    requires a.CreateDataset?
    requires Inv(m)
    ensures Inv(Step(m, a)) && ViewsLater(m, Step(m, a))
  {
    hide HasSession, Sound;
    assert CatalogInv(Step(m, a).catalog);
    hide Inv, CatalogInv;
    UnseenKeepsInv(m, Step(m, a));
  }

  lemma ReserveKeepsInv(m: Sys, a: Action)
    requires a.Reserve?
    requires Inv(m)
    ensures Inv(Step(m, a)) && ViewsLater(m, Step(m, a))
  {
    hide HasSession, Sound;
    StillLater(m);
    if a.version !in m.reserved {
      CommitKeeps(m.catalog, OpReserve(a.dataset, a.version, a.contentType, a.format));
      UnseenKeepsInv(m, Step(m, a));
    }
  }

  lemma CommitKeeps(c: Catalog, op: CatalogOp)
    requires CatalogInv(c)
    ensures CatalogInv(Committed(c, Transact(c, op))) && CatalogLater(c, Committed(c, Transact(c, op)))
  {
    hide CatalogInv;
    if Transact(c, op).Done? {
      TransactKeeps(c, op);
    }
  }

  lemma UnreserveKeepsInv(m: Sys, a: Action)
    requires a.Unreserve?
    requires Inv(m)
    ensures Inv(Step(m, a)) && ViewsLater(m, Step(m, a))
  {
    hide Sound, CatalogInv, AbortVersion;
    StillLater(m);
    if !HasSession(m.sessions, a.version) {
      CommitKeeps(m.catalog, OpAbort(a.dataset, a.version));
      AbortIsLocal(m.catalog, a.dataset, a.version);
      forall s | s in m.sessions ensures m.sessions[s].version != a.version {
      }
      hide HasSession, CatalogLater;
      UnseenKeepsInv(m, Step(m, a));
    }
  }

  lemma AbortIsLocal(c: Catalog, d: Uuid, v: Uuid)
    ensures
      var after := Committed(c, AbortVersion(c, d, v));
      && after.datasets.Keys == c.datasets.Keys
      && (forall e | e in c.datasets :: DeletedIn(after, e) == DeletedIn(c, e))
      && after.versions.Keys <= c.versions.Keys
      && (forall w | w != v :: VersionIn(after, w) == VersionIn(c, w))
      && (v in after.versions ==> after.versions[v] == c.versions[v])
  {
  }

  /** A new session is recorded. */
  predicate Initiates(m: Sys, s: Uuid, row: Session) {
    && s !in m.sessions && row.dataset in m.catalog.datasets && row.version in m.reserved && !HasSession(m.sessions, row.version)
    && (row.version in m.catalog.versions ==>
          m.catalog.versions[row.version].dataset == row.dataset && m.catalog.versions[row.version].state == VersionUploading)
    && row.token.None? && row.completionStartedAt.None?
    && (row.state == SessionInitiated || row.state == SessionAborting)
  }

  lemma InitiateKeepsInv(m: Sys, a: Action)
    requires a.Initiate?
    requires Inv(m)
    ensures Inv(Step(m, a)) && ViewsLater(m, Step(m, a))
  {
    StillLater(m);
    if Initiates(m, a.session, a.row) {
      var n := m.(sessions := m.sessions[a.session := a.row], remotes := m.remotes[a.session := Open]);
      assert Step(m, a) == n by { hide Inv, ViewsLater, HasSession; }
      NewSessionKeepsInv(m, n, a.session, a.row);
    } else {
      hide Inv, ViewsLater, HasSession;
      assert Step(m, a) == m;
    }
  }

  lemma NewSessionKeepsInv(m: Sys, n: Sys, s: Uuid, row: Session)
    requires Initiates(m, s, row) && n == m.(sessions := m.sessions[s := row], remotes := m.remotes[s := Open])
    requires Inv(m)
    ensures Inv(n) && ViewsLater(m, n)
  {
    hide ViewOf, TaskOk, HasSession, ViewOk, ViewLater, CatalogInv;
    InitiateKeepsPlaced(m, n, s, row);
    PlacedKeys(m);
    hide Placed;
    NewView(m, n, s, row);
    forall t | t in m.sessions ensures ViewOf(n, t) == ViewOf(m, t) {
      OldView(m, n, s, row, t);
    }
    AddViewKeepsSound(m, n, s);
  }

  lemma NewView(m: Sys, n: Sys, s: Uuid, row: Session)
    requires Initiates(m, s, row) && n == m.(sessions := m.sessions[s := row], remotes := m.remotes[s := Open])
    requires Inv(m)
    ensures ViewOk(ViewOf(n, s))
  {
    NoObjectYet(m, row);
    hide Inv, HasSession;
    NewViewOk(ViewOf(n, s));
  }

  lemma OldView(m: Sys, n: Sys, s: Uuid, row: Session, t: Uuid)
    requires n == m.(sessions := m.sessions[s := row], remotes := m.remotes[s := Open])
    requires t != s && t in m.sessions && t in m.remotes
    ensures ViewOf(n, t) == ViewOf(m, t)
  {
  }

  lemma AddViewKeepsSound(m: Sys, n: Sys, s: Uuid)
    requires Sound(m) && m.sessions.Keys == m.remotes.Keys && n.sessions.Keys == n.remotes.Keys == m.sessions.Keys + {s}
    requires n.tasks == m.tasks && forall k | k in m.tasks :: m.tasks[k].session in m.sessions
    requires ViewOk(ViewOf(n, s)) && forall t | t in m.sessions :: ViewOf(n, t) == ViewOf(m, t)
    ensures Sound(n) && ViewsLater(m, n)
  {
    hide ViewOf, ViewOk, TaskOk, ViewLater;
    forall t | t in m.sessions ensures ViewLater(ViewOf(m, t), ViewOf(n, t)) {
      LaterRefl(ViewOf(m, t));
    }
  }

  lemma PlacedKeys(m: Sys)
    requires Placed(m)
    ensures m.sessions.Keys == m.remotes.Keys && forall k | k in m.tasks :: m.tasks[k].session in m.sessions
  {
    hide CatalogInv, HasSession;
  }

  lemma NoObjectYet(m: Sys, row: Session)
    requires !HasSession(m.sessions, row.version)
    requires Inv(m)
    ensures ObjectAt(m.objects, KeyOf(row)) == None
  {
    hide CatalogInv, HasSession, Sound;
  }

  lemma NewViewOk(v: View)
    requires v.session.token.None? && v.session.completionStartedAt.None?
    requires v.session.state == SessionInitiated || v.session.state == SessionAborting
    requires v.remote == Open && v.stored == None && !IsAvailable(v)
    ensures ViewOk(v)
  {
  }

  lemma InitiateKeepsPlaced(m: Sys, n: Sys, s: Uuid, row: Session)
    requires Placed(m) && s !in m.sessions && !HasSession(m.sessions, row.version)
    requires n == m.(sessions := m.sessions[s := row], remotes := m.remotes[s := Open])
    requires row.dataset in m.catalog.datasets && row.version in m.reserved
    requires row.version in m.catalog.versions ==> m.catalog.versions[row.version].dataset == row.dataset
    ensures Placed(n)
  {
    hide CatalogInv;
    forall v | HasSession(m.sessions, v) ensures HasSession(n.sessions, v) {
      var t :| t in m.sessions && m.sessions[t].version == v;
      assert n.sessions[t].version == v;
    }
    forall t | t in m.sessions ensures m.sessions[t].version != row.version {
    }
    hide HasSession;
  }

  lemma DeleteKeepsInv(m: Sys, a: Action)
    requires a.Delete?
    requires Inv(m)
    ensures Inv(Step(m, a)) && ViewsLater(m, Step(m, a))
  {
    hide CatalogInv, Sound, ViewsLater, HasSession, DeleteDataset, CatalogLater, Cancelled;
    StillLater(m);
    var d := a.dataset;
    if d in m.catalog.datasets && m.catalog.datasets[d].state != DatasetDeleted {
      var n := Step(m, a);
      CommitKeeps(m.catalog, OpDelete(d, a.now));
      DeleteIsLocal(m.catalog, d, a.now);
      CancelKeepsPlaced(m, n, d, a.now);
      CancelKeepsSound(m, n, d, a.now);
    }
  }

  lemma CancelKeepsSound(m: Sys, n: Sys, d: Uuid, now: Time)
    requires n == m.(catalog := n.catalog, sessions := map s | s in m.sessions :: Cancelled(m.sessions[s], d, now))
    requires n.catalog.versions == m.catalog.versions && n.catalog.datasets.Keys == m.catalog.datasets.Keys
    requires forall e | e in m.catalog.datasets :: DeletedIn(m.catalog, e) ==> DeletedIn(n.catalog, e)
    requires Inv(m)
    ensures Sound(n) && ViewsLater(m, n)
  {
    hide CatalogInv, TaskOk, HasSession, Cancelled, ViewOk, ViewLater, ViewOf;
    assert n.sessions.Keys == m.sessions.Keys;
    forall s | s in m.sessions ensures ViewOk(ViewOf(n, s)) && ViewLater(ViewOf(m, s), ViewOf(n, s)) {
      CancelledView(m, n, s, d, now);
      CancelledViewOk(ViewOf(m, s), d, now, DeletedIn(n.catalog, m.sessions[s].dataset));
    }
    forall k | k in n.tasks ensures TaskOk(ViewOf(n, n.tasks[k].session), n.tasks[k]) {
      TaskStaysOk(ViewOf(m, m.tasks[k].session), ViewOf(n, m.tasks[k].session), m.tasks[k]);
    }
  }

  lemma CancelledView(m: Sys, n: Sys, s: Uuid, d: Uuid, now: Time)
    requires s in m.sessions && s in m.remotes && s in n.sessions
    requires n.sessions[s] == Cancelled(m.sessions[s], d, now)
    requires n.remotes == m.remotes && n.objects == m.objects && n.catalog.versions == m.catalog.versions
    requires m.sessions[s].dataset in n.catalog.datasets
    requires DeletedIn(m.catalog, m.sessions[s].dataset) ==> DeletedIn(n.catalog, m.sessions[s].dataset)
    ensures ViewOf(n, s) == ViewOf(m, s).(session := Cancelled(m.sessions[s], d, now),
                                          deleted := DeletedIn(n.catalog, m.sessions[s].dataset))
    ensures ViewOf(m, s).deleted ==> DeletedIn(n.catalog, m.sessions[s].dataset)
    ensures ViewOf(m, s).session == m.sessions[s]
  {
  }

  lemma DeleteIsLocal(c: Catalog, d: Uuid, now: Time)
    ensures
      var after := Committed(c, DeleteDataset(c, d, now));
      && after.datasets.Keys == c.datasets.Keys && after.versions == c.versions
      && (forall e | e in c.datasets :: DeletedIn(c, e) ==> DeletedIn(after, e))
      && (d in c.datasets ==> DeletedIn(after, d))
  {
  }

  lemma CancelledViewOk(v: View, d: Uuid, now: Time, deleted: bool)
    requires ViewOk(v) && (v.deleted ==> deleted)
    ensures
      var w := v.(session := Cancelled(v.session, d, now), deleted := deleted);
      ViewOk(w) && ViewLater(v, w)
  {
  }

  lemma CancelKeepsPlaced(m: Sys, n: Sys, d: Uuid, now: Time)
    requires Placed(m) && n == m.(catalog := n.catalog, sessions := map s | s in m.sessions :: Cancelled(m.sessions[s], d, now))
    requires CatalogInv(n.catalog) && n.catalog.versions == m.catalog.versions
    requires n.catalog.datasets.Keys == m.catalog.datasets.Keys
    ensures Placed(n)
  {
    hide CatalogInv;
    assert n.sessions.Keys == m.sessions.Keys;
    forall v | HasSession(m.sessions, v) ensures HasSession(n.sessions, v) {
      var t :| t in m.sessions && m.sessions[t].version == v;
      assert n.sessions[t].version == v;
    }
    hide HasSession;
  }

  /** Every action keeps the invariant, and no session's view goes back. */
  lemma StepKeepsInv(m: Sys, a: Action)
    requires Inv(m)
    ensures Inv(Step(m, a)) && ViewsLater(m, Step(m, a))
  {
    hide Inv, ViewsLater;
    match a
    case CreateDataset(_, _) => CreateDatasetKeepsInv(m, a);
    case Reserve(_, _, _, _) => ReserveKeepsInv(m, a);
    case Unreserve(_, _) => UnreserveKeepsInv(m, a);
    case Initiate(_, _) => InitiateKeepsInv(m, a);
    case Delete(_, _) => DeleteKeepsInv(m, a);
    case StartComplete(_, _, _, _, _, _) => StartCompleteKeepsInv(m, a);
    case StartAbort(_, _, _, _) => StartAbortKeepsInv(m, a);
    case StartSweep(_, _, _, _) => StartSweepKeepsInv(m, a);
    case Advance(k, x) =>
      if k in m.tasks {
        AdvanceKeepsInv(m, k, x);
      } else {
        StillLater(m);
      }
  }

  lemma {:induction false} RunKeepsInv(m: Sys, actions: seq<Action>)
    requires Inv(m)
    ensures Inv(Run(m, actions)) && ViewsLater(m, Run(m, actions))
    decreases |actions|
  {
    hide Inv, ViewsLater, Step;
    if actions == [] {
      StillLater(m);
    } else {
      var next := Step(m, actions[0]);
      StepKeepsInv(m, actions[0]);
      RunKeepsInv(next, actions[1..]);
      ViewsLaterTrans(m, next, Run(m, actions));
    }
  }

  lemma ViewsLaterTrans(a: Sys, b: Sys, c: Sys)
    requires ViewsLater(a, b) && ViewsLater(b, c)
    ensures ViewsLater(a, c)
  {
    hide ViewOf, ViewLater;
    forall s | s in a.sessions && s in a.remotes ensures ViewLater(ViewOf(a, s), ViewOf(c, s)) {
      ViewLaterTrans(ViewOf(a, s), ViewOf(b, s), ViewOf(c, s));
    }
  }

  lemma StartIsInv()
    ensures Inv(START)
  {
  }

  // ---------------------------------------------------------------- the theorems

  ghost function Reached(actions: seq<Action>): Sys {
    Run(START, actions)
  }

  lemma ReachedInv(actions: seq<Action>)
    ensures Inv(Reached(actions))
  {
    hide Inv;
    StartIsInv();
    RunKeepsInv(START, actions);
  }

  /**
   * However completers, takeovers, aborts, cleanup and deletion interleave, an available version of a
   * dataset that is not deleted has its object, of exactly the recorded size and checksum.
   */
  lemma AvailableHasItsObject(actions: seq<Action>, v: Uuid)
    requires
      var c := Reached(actions).catalog;
      && v in c.versions && c.versions[v].state == VersionAvailable
      && c.versions[v].dataset in c.datasets && !IsDeleted(c.datasets[c.versions[v].dataset])
    ensures
      var m := Reached(actions);
      var row := m.catalog.versions[v];
      var key := ObjectKey(row.dataset, v);
      && key in m.objects
      && row.size == Some(m.objects[key].size) && row.checksum == Some(m.objects[key].checksum)
  {
    hide Run, CatalogInv, TaskOk;
    ReachedInv(actions);
    var m := Reached(actions);
    assert HasSession(m.sessions, v);
    var s :| s in m.sessions && m.sessions[s].version == v;
    assert ViewOk(ViewOf(m, s));
  }

  /** A completed session's version is available with the size, and the checksum if any, that the client announced. */
  lemma CompletedIsAsAnnounced(actions: seq<Action>, s: Uuid)
    requires s in Reached(actions).sessions && Reached(actions).sessions[s].state == SessionCompleted
    ensures
      var m := Reached(actions);
      var row := m.sessions[s];
      && row.version in m.catalog.versions
      && m.catalog.versions[row.version].state == VersionAvailable
      && m.catalog.versions[row.version].size == Some(row.expectedSize)
      && (row.expectedChecksum.Some? ==> m.catalog.versions[row.version].checksum == row.expectedChecksum)
  {
    hide Run, CatalogInv, TaskOk, HasSession;
    ReachedInv(actions);
    assert ViewOk(ViewOf(Reached(actions), s));
  }

  /** An expired session's version has failed or is gone, and stays so whatever happens later. */
  lemma ExpiredIsGoneForGood(before: seq<Action>, later: seq<Action>, s: Uuid)
    requires s in Reached(before).sessions && Reached(before).sessions[s].state == SessionExpired
    ensures
      var v, c := Reached(before).sessions[s].version, Run(Reached(before), later).catalog;
      v in c.versions ==> c.versions[v].state == VersionFailed
  {
    hide Run, CatalogInv, TaskOk, HasSession;
    ReachedInv(before);
    assert ViewOk(ViewOf(Reached(before), s));
    hide ViewOk;
    RunKeepsInv(Reached(before), later);
    assert ViewLater(ViewOf(Reached(before), s), ViewOf(Run(Reached(before), later), s));
  }

  lemma StepCatalogLater(m: Sys, a: Action)
    requires Inv(m)
    ensures CatalogLater(m.catalog, Step(m, a).catalog)
  {
    hide Sound, HasSession, CatalogLater, CatalogInv;
    CatalogRefl(m.catalog);
    match a
    case CreateDataset(d, owner) => CommitKeeps(m.catalog, OpCreateDataset(d, owner));
    case Reserve(d, v, contentType, format) => CommitKeeps(m.catalog, OpReserve(d, v, contentType, format));
    case Unreserve(d, v) => CommitKeeps(m.catalog, OpAbort(d, v));
    case Delete(d, now) => CommitKeeps(m.catalog, OpDelete(d, now));
    case Advance(k, x) =>
      if k in m.tasks {
        ActCatalogLater(Load(m, k), x);
      }
    case _ =>
  }

  lemma ActCatalogLater(e: Effect, x: Choice)
    requires CatalogInv(e.catalog)
    ensures CatalogLater(e.catalog, Act(e, x).catalog)
  {
    hide CatalogLater, CatalogInv, FinalizeVersion, FailVersion;
    CatalogRefl(e.catalog);
    var s := e.session;
    CommitKeeps(e.catalog, OpFail(s.dataset, s.version));
    if e.task.pc.Finalizing? {
      var measured := e.task.pc.measured;
      CommitKeeps(e.catalog, OpFinalize(s.dataset, s.version, measured.size, measured.checksum, IsHeldWith(s, e.task.token)));
    }
  }

  lemma CatalogRefl(c: Catalog)
    ensures CatalogLater(c, c)
  {
  }

  lemma {:induction false} RunCatalogLater(m: Sys, actions: seq<Action>)
    requires Inv(m)
    ensures CatalogLater(m.catalog, Run(m, actions).catalog)
    decreases |actions|
  {
    hide Inv, CatalogLater, Step;
    if actions == [] {
      CatalogRefl(m.catalog);
    } else {
      var next := Step(m, actions[0]);
      StepKeepsInv(m, actions[0]);
      StepCatalogLater(m, actions[0]);
      RunCatalogLater(next, actions[1..]);
      CatalogLaterTrans(m.catalog, next.catalog, Run(m, actions).catalog);
    }
  }

  /** Once a dataset is deleted, none of its versions becomes available, and no available row ever changes. */
  lemma NothingAppearsAfterDeletion(before: seq<Action>, later: seq<Action>, v: Uuid)
    requires
      var c := Run(Reached(before), later).catalog;
      && v in c.versions && c.versions[v].state == VersionAvailable
      && DeletedIn(Reached(before).catalog, c.versions[v].dataset)
    ensures
      var c := Reached(before).catalog;
      && v in c.versions && c.versions[v] == Run(Reached(before), later).catalog.versions[v]
      && DeletedIn(Run(Reached(before), later).catalog, c.versions[v].dataset)
  {
    hide Run, Inv;
    ReachedInv(before);
    RunCatalogLater(Reached(before), later);
  }
}
