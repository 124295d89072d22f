/** When a key save is confirmed, and what is read from then on. */
module KeyProgress {
  import opened Outcomes
  import opened KeyDirectory

  /** The revision that the next save must name; a directory that has to be migrated first, or a damaged record, takes none. */
  predicate TakesSave(d: Disk, source: Source, confirmed: bool, expected: Option<nat>) {
    match d.record
    case Some(Record(_, revision)) => expected == Some(revision)
    case Some(Corrupt) => false
    case None => expected == None && (source.legacyFiles ==> confirmed)
  }

  /** A marker that is not there yet is created and synced first. */
  predicate NothingFails(d: Disk, plan: Plan) {
    && plan.lock == Succeeds && plan.temporary == Succeeds && plan.replace == Succeeds && plan.syncRecord == Succeeds
    && plan.readBack == Succeeds && (!d.marker ==> plan.createMarker == Succeeds && plan.syncMarker == Succeeds)
  }

  /**
   A save is confirmed exactly when it names the stored revision and no file operation that it needs
   fails; then its record and the marker are what every crash leaves behind.
   */
  lemma {:induction false} WhenASaveIsConfirmed(
    d: Disk, source: Source, confirmed: bool, key: string, expected: Option<nat>, revision: nat, plan: Plan)
    ensures var (n, r) := SaveOn(d, source, confirmed, key, expected, revision, plan);
      && (r.Saved? <==> TakesSave(d, source, confirmed, expected) && NothingFails(d, plan))
      && (r.Saved? ==> r == Saved(revision) && n == Disk(Some(Record(Some(key), revision)), true, {Some(Record(Some(key), revision))}, {true}))
  {
  }

  /** A save that names another revision, or meets a damaged or unmigrated directory, changes nothing and says so. */
  lemma {:induction false} WhenASaveIsTurnedAway(
    d: Disk, source: Source, confirmed: bool, key: string, expected: Option<nat>, revision: nat, plan: Plan)
    requires plan.lock == Succeeds && !TakesSave(d, source, confirmed, expected)
    ensures SaveOn(d, source, confirmed, key, expected, revision, plan)
            == (d, if d.record == Some(Corrupt) then Refused(Unavailable)
                   else if d.record == None && source.legacyFiles && !confirmed then Refused(MigrationRequired)
                   else Changed)
  {
  }

  /** What a snapshot answers: the stored key, or the deployment's value only where no record and no marker is. */
  lemma {:induction false} WhatASnapshotAnswers(d: Disk, source: Source)
    ensures Snapshot(d, source)
            == match d.record
               case Some(Record(Some(key), revision)) => Ok((key, Some(revision)))
               case Some(Record(None, _)) => Err(Missing)
               case Some(Corrupt) => Err(Unavailable)
               case None =>
                 if source.legacyFiles then Err(MigrationRequired)
                 else if d.marker || source.deployment == NotConfigured then Err(Missing)
                 else match source.deployment.value case Ok(value) => Ok((value, None)) case Err(error) => Err(error)
  {
  }

  /** A confirmed key is read at once, and after any crash. */
  lemma {:induction false} ConfirmedKeyIsRead(
    d: Disk, source: Source, confirmed: bool, key: string, expected: Option<nat>, revision: nat, plan: Plan,
    record: Option<Record>, marker: bool)
    requires SaveOn(d, source, confirmed, key, expected, revision, plan).1.Saved?
    requires var n := SaveOn(d, source, confirmed, key, expected, revision, plan).0; record in n.records && marker in n.markers
    ensures Snapshot(SaveOn(d, source, confirmed, key, expected, revision, plan).0, source) == Ok((key, Some(revision)))
    ensures Snapshot(Disk(record, marker, {record}, {marker}), source) == Ok((key, Some(revision)))
  {
    WhenASaveIsConfirmed(d, source, confirmed, key, expected, revision, plan);
    WhatASnapshotAnswers(Disk(record, marker, {record}, {marker}), source);
  }
}
