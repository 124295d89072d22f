/**
 The managed provider-key directory: a record file, and a marker file that forbids any later
 fallback to the deployment value. Directory changes reach the disk only with a directory sync;
 until then each entry may come back from a crash as it was or as it became.
 */
module KeyDirectory {
  import opened Outcomes

  datatype Record = Record(key: Option<string>, revision: nat) | Corrupt

  /**
   `record` and `marker` are what a running process sees; `records` and `markers` are the values
   each entry may have after a crash.
   */
  datatype Disk = Disk(
    record: Option<Record>,
    marker: bool,
    records: set<Option<Record>>,
    markers: set<bool>)

  function Synced(d: Disk): Disk {
    d.(records := {d.record}, markers := {d.marker})
  }

  function WithMarker(d: Disk, marker: bool): Disk {
    d.(marker := marker, markers := d.markers + {marker})
  }

  function WithRecord(d: Disk, record: Record): Disk {
    d.(record := Some(record), records := d.records + {Some(record)})
  }

  predicate Plausible(d: Disk) {
    d.record in d.records && d.marker in d.markers
  }

  // ----- Reading -----------------------------------------------------------------------------

  datatype KeyError = Missing | MigrationRequired | Unavailable | SourceConflict | Invalid

  /** The value injected by the deployment, if one is configured, or why it cannot be used. */
  datatype Deployment = NotConfigured | Configured(value: Result<string, KeyError>)

  datatype Source = Source(deployment: Deployment, legacyFiles: bool)

  /** The stored key and its revision; the deployment value carries no revision. */
  function Stored(d: Disk, source: Source, confirmed: bool, includeDeployment: bool)
    : Result<(Option<string>, Option<nat>), KeyError>
  {
    match d.record
    case Some(Record(key, revision)) => Ok((key, Some(revision)))
    case Some(Corrupt) => Err(Unavailable)
    case None =>
      if source.legacyFiles && !confirmed then Err(MigrationRequired)
      else if includeDeployment && !d.marker && source.deployment.Configured? then
        match source.deployment.value
        case Ok(value) => Ok((Some(value), None))
        case Err(error) => Err(error)
      else Err(Missing)
  }

  function Snapshot(d: Disk, source: Source): Result<(string, Option<nat>), KeyError> {
    match Stored(d, source, false, true)
    case Err(error) => Err(error)
    case Ok((key, revision)) => if key.None? then Err(Missing) else Ok((key.value, revision))
  }

  /** Whether a snapshot answers with the deployment value. */
  predicate FallsBack(d: Disk, source: Source) {
    Snapshot(d, source).Ok? && Snapshot(d, source).value.1.None?
  }

  // ----- Saving ------------------------------------------------------------------------------

  /** What happens at a file operation: it succeeds, it fails without effect, or the process dies before it. */
  datatype Outcome = Succeeds | Fails | Dies

  datatype Plan = Plan(
    lock: Outcome,
    temporary: Outcome,
    createMarker: Outcome,
    syncMarker: Outcome,
    replace: Outcome,
    undoMarker: Outcome,
    syncUndo: Outcome,
    syncRecord: Outcome,
    readBack: Outcome)

  datatype SaveResult =
    | Saved(revision: nat)
    | Refused(error: KeyError)
    | Changed
    | SaveFailed
    | SaveUnconfirmed
    | Died

  function Previous(d: Disk, source: Source, confirmed: bool): Result<Option<nat>, KeyError> {
    match Stored(d, source, confirmed, false)
    case Ok((_, revision)) => Ok(revision)
    case Err(Missing) => Ok(None)
    case Err(error) => Err(error)
  }

  /** The marker of this very attempt is taken back only when there was no record before it. */
  function Undone(d: Disk, plan: Plan): (Disk, SaveResult) {
    match plan.undoMarker
    case Dies => (d, Died)
    case Fails => (d, SaveUnconfirmed)
    case Succeeds =>
      var e := WithMarker(d, false);
      match plan.syncUndo
      case Dies => (e, Died)
      case Fails => (e, SaveUnconfirmed)
      case Succeeds => (Synced(e), SaveFailed)
  }

  /** The no-fallback boundary: the disk afterwards, whether this attempt created it, and any ending. */
  function Bounded(d: Disk, previous: Option<nat>, plan: Plan): (Disk, bool, Option<SaveResult>) {
    if d.marker then (d, false, None)
    else
      match plan.createMarker
      case Dies => (d, false, Some(Died))
      case Fails => (d, false, Some(SaveFailed))
      case Succeeds =>
        var e := WithMarker(d, true);
        match plan.syncMarker
        case Dies => (e, true, Some(Died))
        case Fails => if previous.None? then (Undone(e, plan).0, true, Some(Undone(e, plan).1)) else (e, true, Some(SaveFailed))
        case Succeeds => (Synced(e), true, None)
  }

  function Replaced(d: Disk, created: bool, previous: Option<nat>, record: Record, plan: Plan): (Disk, SaveResult) {
    match plan.replace
    case Dies => (d, Died)
    case Fails => if created && previous.None? then Undone(d, plan) else (d, SaveFailed)
    case Succeeds =>
      var e := WithRecord(d, record);
      match plan.syncRecord
      case Dies => (e, Died)
      case Fails => (e, SaveUnconfirmed)
      case Succeeds =>
        match plan.readBack
        case Dies => (Synced(e), Died)
        case Fails => (Synced(e), SaveUnconfirmed)
        case Succeeds => (Synced(e), if record.Record? then Saved(record.revision) else SaveUnconfirmed)
  }

  function SaveOn(d: Disk, source: Source, confirmed: bool, key: string, expected: Option<nat>, revision: nat, plan: Plan)
    : (Disk, SaveResult)
  {
    match plan.lock
    case Dies => (d, Died)
    case Fails => (d, SaveFailed)
    case Succeeds =>
      match Previous(d, source, confirmed)
      case Err(error) => (d, Refused(error))
      case Ok(previous) =>
        if previous != expected then (d, Changed)
        else
          match plan.temporary
          case Dies => (d, Died)
          case Fails => (d, SaveFailed)
          case Succeeds =>
            var (bounded, created, ending) := Bounded(d, previous, plan);
            if ending.Some? then (bounded, ending.value)
            else Replaced(bounded, created, previous, Record(Some(key), revision), plan)
  }

  /** Whether the save got as far as putting its record in place. */
  predicate PutsRecord(d: Disk, source: Source, confirmed: bool, expected: Option<nat>, plan: Plan) {
    && plan.lock.Succeeds? && plan.temporary.Succeeds? && plan.replace.Succeeds?
    && Previous(d, source, confirmed) == Ok(expected)
    && (d.marker || (plan.createMarker.Succeeds? && plan.syncMarker.Succeeds?))
  }

  class KeyStore {
    const source: Source
    var record: Option<Record>
    var marker: bool
    var records: set<Option<Record>>
    var markers: set<bool>

    ghost function View(): Disk
      reads this
    {
      Disk(record, marker, records, markers)
    }

    constructor (source: Source)
      ensures View() == Synced(Disk(None, false, {}, {})) && this.source == source
    {
      this.source := source;
      record, marker, records, markers := None, false, {None}, {false};
    }

    method SyncDirectory()
      modifies this
      ensures View() == Synced(old(View()))
    {
      records, markers := {record}, {marker};
    }

    method PutMarker(present: bool)
      modifies this
      ensures View() == WithMarker(old(View()), present)
    {
      marker := present;
      markers := markers + {present};
    }

    /** Take back a marker this attempt created. */
    method UndoMarker(plan: Plan) returns (result: SaveResult)
      modifies this
      ensures (View(), result) == Undone(old(View()), plan)
    {
      if plan.undoMarker.Dies? { return Died; }
      if plan.undoMarker.Fails? { return SaveUnconfirmed; }
      PutMarker(false);
      if plan.syncUndo.Dies? { return Died; }
      if plan.syncUndo.Fails? { return SaveUnconfirmed; }
      SyncDirectory();
      return SaveFailed;
    }

    method Save(confirmed: bool, key: string, expected: Option<nat>, revision: nat, plan: Plan) returns (result: SaveResult)
      modifies this
      ensures (View(), result) == SaveOn(old(View()), source, confirmed, key, expected, revision, plan)
    {
      if plan.lock.Dies? { return Died; }
      if plan.lock.Fails? { return SaveFailed; }
      var previous: Option<nat> := None;
      match record {
        case Some(Record(_, current)) => previous := Some(current);
        case Some(Corrupt) => return Refused(Unavailable);
        case None =>
          if source.legacyFiles && !confirmed {
            return Refused(MigrationRequired);
          }
      }
      if previous != expected { return Changed; }
      if plan.temporary.Dies? { return Died; }
      if plan.temporary.Fails? { return SaveFailed; }
      var created := false;
      if !marker {
        if plan.createMarker.Dies? { return Died; }
        if plan.createMarker.Fails? { return SaveFailed; }
        PutMarker(true);
        created := true;
        if plan.syncMarker.Dies? { return Died; }
        if plan.syncMarker.Fails? {
          if previous.None? {
            result := UndoMarker(plan);
            return;
          }
          return SaveFailed;
        }
        SyncDirectory();
      }
      if plan.replace.Dies? { return Died; }
      if plan.replace.Fails? {
        if created && previous.None? {
          result := UndoMarker(plan);
          return;
        }
        return SaveFailed;
      }
      record := Some(Record(Some(key), revision));
      records := records + {record};
      if plan.syncRecord.Dies? { return Died; }
      if plan.syncRecord.Fails? { return SaveUnconfirmed; }
      SyncDirectory();
      if plan.readBack.Dies? { return Died; }
      if plan.readBack.Fails? { return SaveUnconfirmed; }
      return Saved(revision);
    }
  }
}
