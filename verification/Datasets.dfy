/** Datasets and their versions: reservation, finalisation, failure, abort and deletion. */
module Datasets {
  import opened Tables

  datatype DatasetState = DatasetRegistered | DatasetUploading | DatasetAvailable | DatasetDeleted

  datatype Dataset = Dataset(owner: Uuid, state: DatasetState, deletedAt: Option<Time>)

  datatype VersionState = VersionUploading | VersionAvailable | VersionFailed

  /** The object key is derived from the two ids, so distinct versions never share an object. */
  datatype ObjectKey = ObjectKey(dataset: Uuid, version: Uuid)

  datatype Version = Version(
    dataset: Uuid, state: VersionState, contentType: string, format: string,
    size: Option<int>, checksum: Option<string>)

  datatype Catalog = Catalog(datasets: map<Uuid, Dataset>, versions: map<Uuid, Version>)

  datatype CatalogError = DatasetNotFound | DatasetIsDeleted | VersionNotFound | VersionInWrongState | DuplicateId

  /** A transaction on the catalog: it commits a new catalog, or fails and changes nothing. */
  datatype Outcome = Done(catalog: Catalog) | Refused(error: CatalogError)

  predicate IsDeleted(d: Dataset) {
    d.deletedAt.Some? || d.state == DatasetDeleted
  }

  function CreateDataset(c: Catalog, id: Uuid, owner: Uuid): Outcome {
    if id in c.datasets then Refused(DuplicateId)
    else Done(c.(datasets := c.datasets[id := Dataset(owner, DatasetRegistered, None)]))
  }

  function ReserveVersion(c: Catalog, d: Uuid, v: Uuid, contentType: string, format: string): Outcome {
    if d !in c.datasets then Refused(DatasetNotFound)
    else if c.datasets[d].state == DatasetDeleted then Refused(DatasetIsDeleted)
    else if v in c.versions then Refused(DuplicateId)
    else
      Done(Catalog(c.datasets[d := c.datasets[d].(state := DatasetUploading)],
                   c.versions[v := Version(d, VersionUploading, contentType, format, None, None)]))
  }

  /**
   * Makes a version available with the measured size and checksum. `fenced` is the outcome of the
   * upload-session check, which is made after the dataset check and before the version check; a
   * direct upload has no session and passes `true`.
   */
  function FinalizeVersion(c: Catalog, d: Uuid, v: Uuid, size: int, checksum: string, fenced: bool): Outcome {
    if d !in c.datasets then Refused(DatasetNotFound)
    else if IsDeleted(c.datasets[d]) then Refused(DatasetIsDeleted)
    else if !fenced then Refused(VersionInWrongState)
    else if v !in c.versions || c.versions[v].dataset != d then Refused(VersionNotFound)
    else
      var row := c.versions[v];
      if row.state == VersionAvailable then
        if row.size == Some(size) && row.checksum == Some(checksum) then Done(c) else Refused(VersionInWrongState)
      else if row.state != VersionUploading then Refused(VersionInWrongState)
      else
        Done(Catalog(c.datasets[d := c.datasets[d].(state := DatasetAvailable)],
                     c.versions[v := row.(state := VersionAvailable, size := Some(size), checksum := Some(checksum))]))
  }

  /** The dataset's state once an upload is gone: available if some version still is. */
  function Restored(c: Catalog, d: Uuid): map<Uuid, Dataset>
    requires d in c.datasets
  {
    if c.datasets[d].state == DatasetDeleted then c.datasets
    else
      var available := exists v | v in c.versions :: c.versions[v].dataset == d && c.versions[v].state == VersionAvailable;
      c.datasets[d := c.datasets[d].(state := if available then DatasetAvailable else DatasetRegistered)]
  }

  /** Removes a staged version row. */
  function AbortVersion(c: Catalog, d: Uuid, v: Uuid): Outcome {
    if d !in c.datasets then Refused(DatasetNotFound)
    else if v !in c.versions || c.versions[v].dataset != d then Refused(VersionNotFound)
    else if c.versions[v].state != VersionUploading then Refused(VersionInWrongState)
    else
      var removed := c.(versions := c.versions - {v});
      Done(removed.(datasets := Restored(removed, d)))
  }

  function FailVersion(c: Catalog, d: Uuid, v: Uuid): Outcome {
    if d !in c.datasets then Refused(DatasetNotFound)
    else if v !in c.versions || c.versions[v].dataset != d then Refused(VersionNotFound)
    else if c.versions[v].state == VersionFailed then Done(c)
    else if c.versions[v].state != VersionUploading then Refused(VersionInWrongState)
    else
      var failed := c.(versions := c.versions[v := c.versions[v].(state := VersionFailed)]);
      Done(failed.(datasets := Restored(failed, d)))
  }

  function DeleteDataset(c: Catalog, d: Uuid, now: Time): Outcome {
    if d !in c.datasets then Refused(DatasetNotFound)
    else if c.datasets[d].state == DatasetDeleted then Done(c)
    else
      var row := c.datasets[d];
      Done(c.(datasets := c.datasets[d := row.(
        state := DatasetDeleted,
        deletedAt := if row.deletedAt.Some? then row.deletedAt else Some(now))]))
  }

  /** What holds of the catalog in every reachable state. */
  ghost predicate CatalogInv(c: Catalog) {
    && (forall v | v in c.versions ::
          && c.versions[v].dataset in c.datasets
          && (c.versions[v].state == VersionAvailable ==> c.versions[v].size.Some? && c.versions[v].checksum.Some?))
    && (forall d | d in c.datasets :: c.datasets[d].deletedAt.Some? <==> c.datasets[d].state == DatasetDeleted)
  }

  /**
   * What time cannot undo: datasets stay, deletion is final, an available version's whole row is
   * frozen, and a version of a deleted dataset never becomes available.
   */
  ghost predicate CatalogLater(before: Catalog, after: Catalog) {
    && (forall d | d in before.datasets ::
          && d in after.datasets
          && after.datasets[d].owner == before.datasets[d].owner
          && (IsDeleted(before.datasets[d]) ==> IsDeleted(after.datasets[d])))
    && (forall v | v in before.versions && before.versions[v].state == VersionAvailable ::
          v in after.versions && after.versions[v] == before.versions[v])
    && (forall v | v in after.versions && after.versions[v].state == VersionAvailable ::
          || (v in before.versions && before.versions[v].state == VersionAvailable)
          || after.versions[v].dataset !in before.datasets
          || !IsDeleted(before.datasets[after.versions[v].dataset]))
  }

  datatype CatalogOp =
    | OpCreateDataset(id: Uuid, owner: Uuid)
    | OpReserve(dataset: Uuid, version: Uuid, contentType: string, format: string)
    | OpFinalize(dataset: Uuid, version: Uuid, size: int, checksum: string, fenced: bool)
    | OpAbort(dataset: Uuid, version: Uuid)
    | OpFail(dataset: Uuid, version: Uuid)
    | OpDelete(dataset: Uuid, now: Time)

  function Transact(c: Catalog, op: CatalogOp): Outcome {
    match op
    case OpCreateDataset(id, owner) => CreateDataset(c, id, owner)
    case OpReserve(d, v, contentType, format) => ReserveVersion(c, d, v, contentType, format)
    case OpFinalize(d, v, size, checksum, fenced) => FinalizeVersion(c, d, v, size, checksum, fenced)
    case OpAbort(d, v) => AbortVersion(c, d, v)
    case OpFail(d, v) => FailVersion(c, d, v)
    case OpDelete(d, now) => DeleteDataset(c, d, now)
  }

  /** Every catalog transaction keeps the invariant and undoes nothing that is final. */
  lemma TransactKeeps(c: Catalog, op: CatalogOp)
    requires CatalogInv(c) && Transact(c, op).Done?
    ensures CatalogInv(Transact(c, op).catalog) && CatalogLater(c, Transact(c, op).catalog)
  {
    if op.OpAbort? || op.OpFail? {
      WithdrawalKeeps(c, op);
    } else if op.OpFinalize? {
      FinalizeKeeps(c, op);
    } else {
      hide FinalizeVersion, AbortVersion, FailVersion;
    }
  }

  lemma WithdrawalKeeps(c: Catalog, op: CatalogOp)
    requires CatalogInv(c) && (op.OpAbort? || op.OpFail?) && Transact(c, op).Done?
    ensures CatalogInv(Transact(c, op).catalog) && CatalogLater(c, Transact(c, op).catalog)
  {
  }

  lemma FinalizeKeeps(c: Catalog, op: CatalogOp)
    requires CatalogInv(c) && op.OpFinalize? && Transact(c, op).Done?
    ensures CatalogInv(Transact(c, op).catalog) && CatalogLater(c, Transact(c, op).catalog)
  {
  }

  lemma CatalogLaterTrans(a: Catalog, b: Catalog, c: Catalog)
    requires CatalogLater(a, b) && CatalogLater(b, c)
    ensures CatalogLater(a, c)
  {
  }
}
