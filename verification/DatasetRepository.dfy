/**
 * The dataset repository: each method is one transaction on the dataset, version and session tables,
 * written statement by statement and proved against the catalog functions.
 */
module DatasetRepository {
  import opened Tables
  import opened Datasets
  import opened UploadSessions
  import Spec = Datasets

  class Repository {
    var datasets: map<Uuid, Dataset>
    var versions: map<Uuid, Version>
    var sessions: map<Uuid, Session>

    function Tables(): Catalog
      reads this
    {
      Catalog(datasets, versions)
    }

    ghost predicate Valid()
      reads this
    {
      CatalogInv(Tables()) && forall id | id in sessions :: Tokened(sessions[id])
    }

    constructor ()
      ensures Valid() && Tables() == Catalog(map[], map[]) && sessions == map[]
    {
      datasets, versions, sessions := map[], map[], map[];
    }

    /** The transaction did what the specification says, and reported its error. */
    twostate predicate Performed(new o: Outcome, new error: Option<CatalogError>)
      reads this
    {
      && sessions == old(sessions)
      && Tables() == (if o.Done? then o.catalog else old(Tables()))
      && error == (if o.Done? then None else Some(o.error))
    }

    method ReserveVersion(d: Uuid, v: Uuid, contentType: string, format: string) returns (error: Option<CatalogError>)
      requires Valid()
      modifies this
      ensures Valid()
      ensures Performed(Spec.ReserveVersion(old(Tables()), d, v, contentType, format), error)
      ensures error.None? <==> d in old(datasets) && old(datasets)[d].state != DatasetDeleted && v !in old(versions)
      ensures error.None? ==>
        && versions == old(versions)[v := Version(d, VersionUploading, contentType, format, None, None)]
        && datasets == old(datasets)[d := old(datasets)[d].(state := DatasetUploading)]
    {
      if d !in datasets { return Some(DatasetNotFound); }
      var state := datasets[d].state;
      if state == DatasetDeleted { return Some(DatasetIsDeleted); }
      if v in versions { return Some(DuplicateId); }
      versions := versions[v := Version(d, VersionUploading, contentType, format, None, None)];
      if state != DatasetUploading {
        datasets := datasets[d := datasets[d].(state := DatasetUploading)];
      }
      assert datasets == old(datasets)[d := old(datasets)[d].(state := DatasetUploading)];
      return None;
    }

    /** `session` is `NIL` for a direct upload; otherwise the session must still carry the token. */
    method FinalizeVersion(d: Uuid, v: Uuid, size: int, checksum: string, session: Uuid, token: Uuid)
      returns (error: Option<CatalogError>)
      requires Valid()
      modifies this
      ensures Valid()
      ensures
        var fenced := session == NIL ||
          (session in old(sessions) && old(sessions)[session].dataset == d && old(sessions)[session].version == v
           && IsHeldWith(old(sessions)[session], token));
        Performed(Spec.FinalizeVersion(old(Tables()), d, v, size, checksum, fenced), error)
      ensures error.None? <==>
        && d in old(datasets) && old(datasets)[d].deletedAt.None? && old(datasets)[d].state != DatasetDeleted
        && (session != NIL ==>
              && session in old(sessions) && old(sessions)[session].dataset == d && old(sessions)[session].version == v
              && old(sessions)[session].state == SessionCompleting && old(sessions)[session].token == Some(token))
        && v in old(versions) && old(versions)[v].dataset == d
        && (old(versions)[v].state == VersionUploading
            || (old(versions)[v].state == VersionAvailable
                && old(versions)[v].size == Some(size) && old(versions)[v].checksum == Some(checksum)))
      ensures error.None? ==>
        versions == old(versions)[v := old(versions)[v].(state := VersionAvailable, size := Some(size), checksum := Some(checksum))]
      ensures error.Some? ==> Tables() == old(Tables())
    {
      if d !in datasets { return Some(DatasetNotFound); }
      if datasets[d].deletedAt.Some? || datasets[d].state == DatasetDeleted { return Some(DatasetIsDeleted); }
      if session != NIL {
        if session !in sessions || sessions[session].dataset != d || sessions[session].version != v {
          return Some(VersionInWrongState);
        }
        var row := sessions[session];
        if row.state != SessionCompleting || row.token.None? || row.token.value != token { return Some(VersionInWrongState); }
      }
      if v !in versions || versions[v].dataset != d { return Some(VersionNotFound); }
      if versions[v].state == VersionAvailable {
        if versions[v].size != Some(size) || versions[v].checksum != Some(checksum) { return Some(VersionInWrongState); }
        return None;
      }
      if versions[v].state != VersionUploading { return Some(VersionInWrongState); }
      versions := versions[v := versions[v].(state := VersionAvailable, size := Some(size), checksum := Some(checksum))];
      if datasets[d].deletedAt.None? {
        datasets := datasets[d := datasets[d].(state := DatasetAvailable)];
      }
      return None;
    }

    method AbortVersion(d: Uuid, v: Uuid) returns (error: Option<CatalogError>)
      requires Valid()
      modifies this
      ensures Valid()
      ensures Performed(Spec.AbortVersion(old(Tables()), d, v), error)
      ensures error.None? <==>
        d in old(datasets) && v in old(versions) && old(versions)[v].dataset == d && old(versions)[v].state == VersionUploading
      ensures error.None? ==> versions == old(versions) - {v} && IsRestored(d, old(datasets))
      ensures error.Some? ==> Tables() == old(Tables())
    {
      if d !in datasets { return Some(DatasetNotFound); }
      if v !in versions || versions[v].dataset != d { return Some(VersionNotFound); }
      if versions[v].state != VersionUploading { return Some(VersionInWrongState); }
      versions := versions - {v};
      RestoreState(d);
      return None;
    }

    method FailVersion(d: Uuid, v: Uuid) returns (error: Option<CatalogError>)
      requires Valid()
      modifies this
      ensures Valid()
      ensures Performed(Spec.FailVersion(old(Tables()), d, v), error)
      ensures error.None? <==>
        && d in old(datasets) && v in old(versions) && old(versions)[v].dataset == d
        && old(versions)[v].state in {VersionUploading, VersionFailed}
      ensures error.None? ==> versions == old(versions)[v := old(versions)[v].(state := VersionFailed)]
      ensures error.None? && old(versions)[v].state == VersionUploading ==> IsRestored(d, old(datasets))
      ensures error.Some? ==> Tables() == old(Tables())
    {
      if d !in datasets { return Some(DatasetNotFound); }
      if v !in versions || versions[v].dataset != d { return Some(VersionNotFound); }
      if versions[v].state == VersionFailed { return None; }
      if versions[v].state != VersionUploading { return Some(VersionInWrongState); }
      versions := versions[v := versions[v].(state := VersionFailed)];
      RestoreState(d);
      return None;
    }

    /** Unless it was deleted, the dataset is available if one of its versions is, and otherwise only registered. */
    ghost predicate IsRestored(d: Uuid, before: map<Uuid, Dataset>)
      reads this
    {
      && d in before
      && if before[d].state == DatasetDeleted then datasets == before
         else if exists v | v in versions :: versions[v].dataset == d && versions[v].state == VersionAvailable
         then datasets == before[d := before[d].(state := DatasetAvailable)]
         else datasets == before[d := before[d].(state := DatasetRegistered)]
    }

    /** The dataset is available again if one of its versions is, unless it was deleted. */
    method RestoreState(d: Uuid)
      requires d in datasets
      modifies this`datasets
      ensures datasets == Restored(old(Tables()), d)
    {
      var next := datasets[d].state;
      if next != DatasetDeleted {
        next := if exists v | v in versions :: versions[v].dataset == d && versions[v].state == VersionAvailable
                then DatasetAvailable else DatasetRegistered;
      }
      if datasets[d].state != DatasetDeleted {
        datasets := datasets[d := datasets[d].(state := next)];
      }
    }

    /** Deletes the dataset and cuts off every upload of it that is still under way. */
    method DeleteDataset(d: Uuid, now: Time) returns (error: Option<CatalogError>)
      requires Valid()
      modifies this
      ensures Valid()
      ensures
        var o := Spec.DeleteDataset(old(Tables()), d, now);
        && Tables() == (if o.Done? then o.catalog else old(Tables()))
        && error == (if o.Done? then None else Some(o.error))
      ensures sessions.Keys == old(sessions).Keys
      ensures forall id | id in sessions ::
        sessions[id] == if d in old(datasets) && old(datasets)[d].state != DatasetDeleted
                        then Cancelled(old(sessions)[id], d, now) else old(sessions)[id]
      ensures forall id | id in sessions ::
        sessions[id] == if && d in old(datasets) && old(datasets)[d].state != DatasetDeleted && old(sessions)[id].dataset == d
                           && old(sessions)[id].state in {SessionInitiated, SessionCompleting, SessionAborting}
                        then old(sessions)[id].(state := SessionAborting, token := None, completionStartedAt := None, updatedAt := now,
                                                expiresAt := if old(sessions)[id].expiresAt < now then old(sessions)[id].expiresAt else now)
                        else old(sessions)[id]
      ensures error.None? <==> d in old(datasets)
      ensures error.None? ==>
        IsDeleted(datasets[d]) && versions == old(versions)
      ensures d in old(datasets) && old(datasets)[d].state != DatasetDeleted ==>
        forall id | id in sessions && sessions[id].dataset == d :: sessions[id].token.None?
    {
      if d !in datasets { return Some(DatasetNotFound); }
      var row := datasets[d];
      if row.state == DatasetDeleted { return None; }
      datasets := datasets[d := row.(state := DatasetDeleted, deletedAt := if row.deletedAt.Some? then row.deletedAt else Some(now))];
      sessions := map id | id in sessions ::
        if sessions[id].dataset == d && sessions[id].state in {SessionInitiated, SessionCompleting, SessionAborting}
        then sessions[id].(state := SessionAborting, expiresAt := if sessions[id].expiresAt < now then sessions[id].expiresAt else now,
                           updatedAt := now, token := None, completionStartedAt := None)
        else sessions[id];
      return None;
    }
  }
}
