/**
 * Multipart completion as a state machine: any number of completers, aborters and cleanup sweepers,
 * each with a program counter, interleave their database and object-store steps with each other and
 * with dataset deletion. Every step is atomic; any task may stop for good between two steps.
 */
module Multipart {
  import opened Tables
  import opened Datasets
  import opened UploadSessions

  // ---------------------------------------------------------------- state

  /** What is stored under an object key; `recognised` is whether its prefix has the declared format. */
  datatype Content = Content(size: int, checksum: string, recognised: bool)

  /** The store's side of an upload id: it assembles at most one object. */
  datatype Remote = Open | Assembled(content: Content) | Discarded

  /** Where a task is; each step does one database transaction or one object-store call. */
  datatype Pc =
    | Checking
    | Assembling
    | Reheading
    | Heading
    | Inspecting
    | Finalizing(measured: Content)
    | Marking
    | Resetting
    | Deleting
    | Failing
    | MarkingFailed
    | Discarding
    | FailingAborted
    | MarkingAborted
    | Looking
    | Reconciling
    | DiscardingExpired
    | FailingExpired(discarded: bool)
    | MarkingExpired
    | Finished

  /** A completer holds the token it drew; `reconciles` tells the sweeper's reconciliation from a client's completion. */
  datatype Task = Task(session: Uuid, token: Uuid, reconciles: bool, pc: Pc)

  /** `issued` and `reserved` record the operation tokens and version ids drawn so far, which are never drawn again. */
  datatype Sys = Sys(
    catalog: Catalog,
    sessions: map<Uuid, Session>,
    remotes: map<Uuid, Remote>,
    objects: map<ObjectKey, Content>,
    tasks: map<Uuid, Task>,
    issued: set<Uuid>,
    reserved: set<Uuid>)

  const START := Sys(Catalog(map[], map[]), map[], map[], map[], map[], {}, {})

  function KeyOf(s: Session): ObjectKey {
    ObjectKey(s.dataset, s.version)
  }

  /** The content passes every check a completer makes. */
  predicate IsGood(s: Session, c: Content) {
    && c.size == s.expectedSize
    && c.recognised
    && (s.expectedChecksum.Some? ==> s.expectedChecksum.value == c.checksum)
  }

  // ---------------------------------------------------------------- steps

  /** What the outside world decides in a step: failures, uploaded bytes, and whether a request is well formed. */
  datatype Choice = Choice(fails: bool, refused: bool, assembles: bool, content: Content, token: Uuid, now: Time)

  datatype Action =
    | CreateDataset(dataset: Uuid, owner: Uuid)
    | Reserve(dataset: Uuid, version: Uuid, contentType: string, format: string)
    | Unreserve(dataset: Uuid, version: Uuid)
    | Initiate(session: Uuid, row: Session)
    | Delete(dataset: Uuid, now: Time)
    | StartComplete(task: Uuid, session: Uuid, owner: Uuid, now: Time, staleBefore: Time, token: Uuid)
    | StartAbort(task: Uuid, session: Uuid, owner: Uuid, now: Time)
    | StartSweep(task: Uuid, session: Uuid, now: Time, staleBefore: Time)
    | Advance(task: Uuid, choice: Choice)

  function Committed(before: Catalog, o: Outcome): Catalog {
    if o.Done? then o.catalog else before
  }

  predicate HasSession(sessions: map<Uuid, Session>, v: Uuid) {
    exists s | s in sessions :: sessions[s].version == v
  }

  /** The tables and the store after a task's step on its session, and its next program counter. */
  datatype Effect = Effect(catalog: Catalog, session: Session, remote: Remote, stored: Option<Content>, issued: set<Uuid>, task: Task)

  function ObjectAt(objects: map<ObjectKey, Content>, key: ObjectKey): Option<Content> {
    if key in objects then Some(objects[key]) else None
  }

  function WithObject(objects: map<ObjectKey, Content>, key: ObjectKey, stored: Option<Content>): map<ObjectKey, Content> {
    match stored
    case Some(c) => objects[key := c]
    case None => objects - {key}
  }

  /** One step of a task on its session. */
  function Act(e: Effect, x: Choice): Effect {
    var s, t := e.session, e.task;
    match t.pc
    // Parts are checked against the request, the table and the store; a listing that fails may mean completion.
    case Checking =>
      if x.refused then Goto(e, Resetting)
      else if x.fails then Goto(e, if e.stored.Some? then Heading else Resetting)
      else Goto(e, Assembling)
    case Assembling =>
      var remote := if e.remote.Open? && x.assembles then Assembled(x.content) else e.remote;
      var stored := if e.remote.Open? && x.assembles then Some(x.content) else e.stored;
      Goto(e.(remote := remote, stored := stored), if remote.Assembled? && !x.fails then Heading else Reheading)
    case Reheading => Goto(e, if e.stored.Some? && !x.fails then Heading else Resetting)
    case Heading =>
      if x.fails then Goto(e, Resetting)
      else if e.stored.None? then Goto(e, if t.reconciles then Deleting else Resetting)
      else Goto(e, if e.stored.value.size != s.expectedSize then Deleting else Inspecting)
    case Inspecting =>
      if x.fails then Goto(e, Resetting)
      else if e.stored.None? || !IsGood(s, e.stored.value) then Goto(e, Deleting)
      else Goto(e, Finalizing(e.stored.value))
    case Finalizing(measured) =>
      var o := FinalizeVersion(e.catalog, s.dataset, s.version, measured.size, measured.checksum, IsHeldWith(s, t.token));
      if x.fails then Goto(e, Resetting)
      else if o.Done? then Goto(e.(catalog := o.catalog), Marking)
      else Goto(e, if t.reconciles && o.error == DatasetIsDeleted then Deleting else Resetting)
    case Marking => Goto(e.(session := MarkCompleted(s, t.token).session), Finished)
    case Resetting => Goto(e.(session := ResetCompletion(s, t.token).session), Finished)
    case Deleting => Goto(e.(stored := if x.fails then e.stored else None), Failing)
    // A version that could not be failed, for whatever reason, does not keep the session from being marked.
    case Failing => Goto(e.(catalog := Failed(e, x)), MarkingFailed)
    case MarkingFailed => Goto(e.(session := MarkFailed(s, t.token).session), Finished)
    case Discarding =>
      if x.fails then Goto(e, Finished)
      else Goto(e.(remote := if e.remote.Open? then Discarded else e.remote), FailingAborted)
    case FailingAborted => Goto(e.(catalog := Failed(e, x)), MarkingAborted)
    case MarkingAborted => Goto(e.(session := MarkAborted(s).session), Finished)
    case Looking =>
      if x.fails then Goto(e, Finished) else Goto(e, if e.stored.Some? then Reconciling else DiscardingExpired)
    case Reconciling =>
      if s.state != SessionAborting || x.token == NIL || x.token in e.issued then Goto(e, Finished)
      else
        e.(session := BeginReconciliation(s, x.now, x.token).session, issued := e.issued + {x.token},
           task := t.(token := x.token, reconciles := true, pc := Heading))
    case DiscardingExpired =>
      Goto(e.(remote := if e.remote.Open? && !x.fails then Discarded else e.remote), FailingExpired(!x.fails))
    case FailingExpired(discarded) =>
      var o := FailVersion(e.catalog, s.dataset, s.version);
      Goto(e.(catalog := Failed(e, x)),
           if !x.fails && discarded && (o.Done? || o.error == VersionNotFound) then MarkingExpired else Finished)
    case MarkingExpired => Goto(e.(session := MarkExpired(s).session), Finished)
    case Finished => e
  }

  /** The catalog after an attempt to fail the session's version, unless the database did not answer. */
  function Failed(e: Effect, x: Choice): Catalog {
    if x.fails then e.catalog else Committed(e.catalog, FailVersion(e.catalog, e.session.dataset, e.session.version))
  }

  function Goto(e: Effect, pc: Pc): Effect {
    e.(task := e.task.(pc := pc))
  }

  function Load(m: Sys, k: Uuid): Effect
    requires k in m.tasks && m.tasks[k].session in m.sessions && m.tasks[k].session in m.remotes
  {
    var s := m.tasks[k].session;
    Effect(m.catalog, m.sessions[s], m.remotes[s], ObjectAt(m.objects, KeyOf(m.sessions[s])), m.issued, m.tasks[k])
  }

  function Store(m: Sys, k: Uuid, e: Effect): Sys
    requires k in m.tasks && m.tasks[k].session in m.sessions
  {
    var s := m.tasks[k].session;
    m.(catalog := e.catalog, sessions := m.sessions[s := e.session], remotes := m.remotes[s := e.remote],
       objects := WithObject(m.objects, KeyOf(m.sessions[s]), e.stored), issued := e.issued, tasks := m.tasks[k := e.task])
  }

  function Step(m: Sys, a: Action): Sys {
    match a
    case CreateDataset(d, owner) => m.(catalog := Committed(m.catalog, Datasets.CreateDataset(m.catalog, d, owner)))
    case Reserve(d, v, contentType, format) =>
      if v in m.reserved then m
      else m.(catalog := Committed(m.catalog, ReserveVersion(m.catalog, d, v, contentType, format)), reserved := m.reserved + {v})
    // Initiation gives a reserved version up again only when it could not record a session for it.
    case Unreserve(d, v) =>
      if HasSession(m.sessions, v) then m else m.(catalog := Committed(m.catalog, AbortVersion(m.catalog, d, v)))
    // A session is recorded for a version reserved for it, or, as an orphan to be cleaned up, after that version was given up.
    case Initiate(s, row) =>
      if s in m.sessions || row.dataset !in m.catalog.datasets || row.version !in m.reserved || HasSession(m.sessions, row.version)
         || !(row.version in m.catalog.versions ==>
                m.catalog.versions[row.version].dataset == row.dataset && m.catalog.versions[row.version].state == VersionUploading)
         || row.token.Some? || row.completionStartedAt.Some?
         || !(row.state == SessionInitiated || row.state == SessionAborting)
      then m
      else m.(sessions := m.sessions[s := row], remotes := m.remotes[s := Open])
    case Delete(d, now) =>
      if d !in m.catalog.datasets || m.catalog.datasets[d].state == DatasetDeleted then m
      else m.(catalog := Committed(m.catalog, DeleteDataset(m.catalog, d, now)),
              sessions := map s | s in m.sessions :: Cancelled(m.sessions[s], d, now))
    case StartComplete(k, s, owner, now, staleBefore, token) =>
      if k in m.tasks || s !in m.sessions || token == NIL || token in m.issued then m
      else
        var v := BeginComplete(m.sessions[s], owner, now, staleBefore, token);
        m.(sessions := m.sessions[s := v.session], issued := m.issued + {token},
           tasks := if v.error.Some? then m.tasks else m.tasks[k := Task(s, token, false, Checking)])
    case StartAbort(k, s, owner, now) =>
      if k in m.tasks || s !in m.sessions then m
      else
        var v := BeginAbort(m.sessions[s], owner, now);
        m.(sessions := m.sessions[s := v.session],
           tasks := if v.error.Some? || v.session.state != SessionAborting then m.tasks
                    else m.tasks[k := Task(s, NIL, false, Discarding)])
    case StartSweep(k, s, now, staleBefore) =>
      if k in m.tasks || s !in m.sessions || !IsClaimable(m.sessions[s], now, staleBefore) then m
      else m.(sessions := m.sessions[s := ClaimExpired(m.sessions[s], now)], tasks := m.tasks[k := Task(s, NIL, false, Looking)])
    case Advance(k, x) =>
      if k !in m.tasks || m.tasks[k].session !in m.sessions || m.tasks[k].session !in m.remotes then m
      else Store(m, k, Act(Load(m, k), x))
  }

  function Run(m: Sys, actions: seq<Action>): Sys
    decreases |actions|
  {
    if actions == [] then m else Run(Step(m, actions[0]), actions[1..])
  }

  // ---------------------------------------------------------------- invariant

  /** Everything that concerns one session. */
  datatype View = View(session: Session, deleted: bool, version: Option<Version>, remote: Remote, stored: Option<Content>)

  function DeletedIn(c: Catalog, d: Uuid): bool {
    d in c.datasets && IsDeleted(c.datasets[d])
  }

  function VersionIn(c: Catalog, v: Uuid): Option<Version> {
    if v in c.versions then Some(c.versions[v]) else None
  }

  function ViewOf(m: Sys, s: Uuid): View
    requires s in m.sessions && s in m.remotes
  {
    var row := m.sessions[s];
    View(row, DeletedIn(m.catalog, row.dataset), VersionIn(m.catalog, row.version), m.remotes[s], ObjectAt(m.objects, KeyOf(row)))
  }

  predicate IsAvailable(v: View) {
    v.version.Some? && v.version.value.state == VersionAvailable
  }

  predicate IsGone(v: View) {
    v.version.None? || v.version.value.state == VersionFailed
  }

  /** The assembled object may be deleted: it is worthless, or its dataset is. */
  predicate IsDoomed(v: View) {
    v.remote.Assembled? && (v.deleted || !IsGood(v.session, v.remote.content))
  }

  predicate ViewOk(v: View) {
    && Tokened(v.session)
    && (v.stored.Some? ==> v.remote == Assembled(v.stored.value))
    && (v.remote.Assembled? && v.stored.None? ==> IsDoomed(v))
    && (IsAvailable(v) ==>
          && v.remote.Assembled? && IsGood(v.session, v.remote.content)
          && v.version.value.size == Some(v.remote.content.size)
          && v.version.value.checksum == Some(v.remote.content.checksum))
    && (v.session.state == SessionCompleted ==> IsAvailable(v))
    && (v.session.state == SessionExpired ==> IsGone(v))
  }

  /** What a task has established by the time it gets to its program counter. */
  predicate TaskOk(v: View, t: Task) {
    match t.pc
    case Heading => v.remote.Assembled?
    case Inspecting => v.remote.Assembled?
    case Finalizing(measured) => v.remote == Assembled(measured) && IsGood(v.session, measured)
    case Marking => IsAvailable(v)
    case Deleting => IsDoomed(v)
    case Reconciling => v.remote.Assembled?
    case MarkingExpired => IsGone(v)
    case _ => true
  }

  /** What no step undoes for a session. */
  predicate ViewLater(v: View, w: View) {
    && SessionLater(v.session, w.session)
    && (v.deleted ==> w.deleted)
    && (IsAvailable(v) ==> w.version == v.version)
    && (IsGone(v) ==> IsGone(w))
    && (v.session.state == SessionAborted && !IsAvailable(v) ==> !IsAvailable(w))
    && (v.remote.Assembled? ==> w.remote == v.remote)
  }

  /** Rows refer to each other as they should, and every session has a version and an upload of its own. */
  ghost predicate Placed(m: Sys) {
    && CatalogInv(m.catalog)
    && m.sessions.Keys == m.remotes.Keys
    && m.catalog.versions.Keys <= m.reserved
    && (forall s | s in m.sessions ::
          && m.sessions[s].dataset in m.catalog.datasets
          && m.sessions[s].version in m.reserved
          && (m.sessions[s].version in m.catalog.versions ==>
                m.catalog.versions[m.sessions[s].version].dataset == m.sessions[s].dataset))
    && (forall s, t | s in m.sessions && t in m.sessions && m.sessions[s].version == m.sessions[t].version :: s == t)
    && (forall v | v in m.catalog.versions && m.catalog.versions[v].state != VersionUploading :: HasSession(m.sessions, v))
    && (forall k | k in m.objects :: HasSession(m.sessions, k.version))
    && (forall k | k in m.tasks :: m.tasks[k].session in m.sessions)
  }

  ghost predicate Sound(m: Sys) {
    && (forall s | s in m.sessions && s in m.remotes :: ViewOk(ViewOf(m, s)))
    && (forall k | k in m.tasks && m.tasks[k].session in m.sessions && m.tasks[k].session in m.remotes ::
          TaskOk(ViewOf(m, m.tasks[k].session), m.tasks[k]))
  }

  ghost predicate Inv(m: Sys) {
    Placed(m) && Sound(m)
  }

  lemma TaskStaysOk(v: View, w: View, t: Task)
    requires TaskOk(v, t) && ViewLater(v, w)
    ensures TaskOk(w, t)
  {
  }

  lemma ViewLaterTrans(u: View, v: View, w: View)
    requires ViewLater(u, v) && ViewLater(v, w)
    ensures ViewLater(u, w)
  {
  }
}
