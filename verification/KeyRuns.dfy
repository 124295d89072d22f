/** Sequences of key saves with failures, process deaths, reboots and damage to the record. */
module KeyRuns {
  import opened Outcomes
  import opened KeyDirectory

  /**
   `lineage` lists, for every revision put in place, the revisions it was built on; `anchor` is
   the lineage of the last confirmed save since the record was last damaged.
   */
  datatype World = World(disk: Disk, used: set<nat>, lineage: map<nat, seq<nat>>, anchor: seq<nat>)

  datatype Action =
    | Save(confirmed: bool, key: string, expected: Option<nat>, revision: nat, plan: Plan)
    | Reboot(record: Option<Record>, marker: bool)
    | Damage(record: Option<Record>)

  predicate Allowed(w: World, a: Action) {
    match a
    case Save(_, _, _, revision, _) => revision !in w.used
    case Reboot(record, marker) => record in w.disk.records && marker in w.disk.markers
    case Damage(record) => record.None? || record.value.Corrupt?
  }

  function Lineage(w: World, expected: Option<nat>): seq<nat> {
    if expected.Some? && expected.value in w.lineage then w.lineage[expected.value] else []
  }

  function After(w: World, source: Source, a: Action): World {
    match a
    case Save(confirmed, key, expected, revision, plan) =>
      var (disk, result) := SaveOn(w.disk, source, confirmed, key, expected, revision, plan);
      var line := Lineage(w, expected) + [revision];
      World(disk, w.used + {revision},
            if PutsRecord(w.disk, source, confirmed, expected, plan) then w.lineage[revision := line] else w.lineage,
            if result.Saved? then line else w.anchor)
    case Reboot(record, marker) => w.(disk := Disk(record, marker, {record}, {marker}))
    case Damage(record) => w.(disk := w.disk.(record := record, records := {record}), anchor := [])
  }

  const INITIAL := World(Disk(None, false, {None}, {false}), {}, map[], [])

  ghost predicate IsRun(worlds: seq<World>, actions: seq<Action>, source: Source) {
    && |worlds| == |actions| + 1
    && worlds[0] == INITIAL
    && forall k :: 0 <= k < |actions| ==> Allowed(worlds[k], actions[k]) && worlds[k + 1] == After(worlds[k], source, actions[k])
  }

  // ----- The no-fallback boundary ------------------------------------------------------------

  /** The marker is on the disk for good. */
  predicate MarkerDurable(d: Disk) {
    d.marker && d.markers == {true}
  }

  /** A live marker that no directory sync has confirmed: it may be gone after a crash. */
  predicate MarkerUnsynced(d: Disk) {
    d.marker && false in d.markers
  }

  lemma {:induction false} SettledOrUnsynced(d: Disk)
    requires Plausible(d)
    ensures false !in d.markers <==> MarkerDurable(d)
  {
    if false !in d.markers {
      assert forall m :: m in d.markers ==> m;
    }
  }

  /** Nothing removes a durable marker. */
  lemma {:induction false} DurableMarkerStays(w: World, source: Source, a: Action)
    requires Allowed(w, a) && MarkerDurable(w.disk)
    ensures MarkerDurable(After(w, source, a).disk)
  {
  }

  lemma {:induction false} DurableMarkerForever(worlds: seq<World>, actions: seq<Action>, source: Source, i: nat, k: nat)
    requires IsRun(worlds, actions, source) && i <= k < |worlds| && MarkerDurable(worlds[i].disk)
    ensures MarkerDurable(worlds[k].disk) && !FallsBack(worlds[k].disk, source)
    decreases k
  {
    if i < k {
      DurableMarkerForever(worlds, actions, source, i, k - 1);
      DurableMarkerStays(worlds[k - 1], source, actions[k - 1]);
    }
  }

  /** A confirmed save leaves the marker durable, whatever came before it. */
  lemma {:induction false} ConfirmedSaveNeverFallsBack(worlds: seq<World>, actions: seq<Action>, source: Source, i: nat, k: nat)
    requires IsRun(worlds, actions, source) && i < k < |worlds| && actions[i].Save?
    requires SaveOn(worlds[i].disk, source, actions[i].confirmed, actions[i].key, actions[i].expected, actions[i].revision, actions[i].plan).1.Saved?
    ensures !FallsBack(worlds[k].disk, source)
  {
    assert MarkerDurable(worlds[i + 1].disk);
    DurableMarkerForever(worlds, actions, source, i + 1, k);
  }

  /**
   A save that put its record in place but was not confirmed, because the last sync failed or the
   process died: its marker is durable exactly when it did not find an unsynced marker.
   */
  lemma {:induction false} BoundaryDurableUnlessFoundUnsynced(w: World, source: Source, a: Action)
    requires a.Save? && Allowed(w, a) && Plausible(w.disk)
    requires PutsRecord(w.disk, source, a.confirmed, a.expected, a.plan)
    ensures a.plan.syncRecord.Succeeds? ==> MarkerDurable(After(w, source, a).disk)
    ensures !a.plan.syncRecord.Succeeds? ==> (MarkerDurable(After(w, source, a).disk) <==> !MarkerUnsynced(w.disk))
  {
    SettledOrUnsynced(w.disk);
  }

  /** Every run of which `worlds[k]` is the last state can continue to a snapshot of the deployment value. */
  ghost predicate CanFallBack(w: World, source: Source) {
    exists steps: seq<Action>, ws: seq<World> :: Continuation(w, source, steps, ws) && FallsBack(ws[|steps|].disk, source)
  }

  ghost predicate Continuation(w: World, source: Source, steps: seq<Action>, ws: seq<World>) {
    && |ws| == |steps| + 1 && ws[0] == w
    && forall k :: 0 <= k < |steps| ==> Allowed(ws[k], steps[k]) && ws[k + 1] == After(ws[k], source, steps[k])
  }

  lemma {:induction false} ContinuationKeepsMarker(w: World, source: Source, steps: seq<Action>, ws: seq<World>, k: nat)
    requires Continuation(w, source, steps, ws) && MarkerDurable(w.disk) && k <= |steps|
    ensures MarkerDurable(ws[k].disk)
  {
    if k > 0 {
      ContinuationKeepsMarker(w, source, steps, ws, k - 1);
      DurableMarkerStays(ws[k - 1], source, steps[k - 1]);
    }
  }

  /**
   From any state of the directory, with a usable deployment value: some continuation ends with a
   snapshot of the deployment value if and only if the marker is not yet durable.
   */
  lemma {:induction false} FallbackPossibleIffMarkerNotDurable(w: World, source: Source)
    requires Plausible(w.disk) && !source.legacyFiles && source.deployment.Configured? && source.deployment.value.Ok?
    ensures CanFallBack(w, source) <==> !MarkerDurable(w.disk)
  {
    if MarkerDurable(w.disk) {
      forall steps: seq<Action>, ws: seq<World> | Continuation(w, source, steps, ws) ensures !FallsBack(ws[|steps|].disk, source) {
        ContinuationKeepsMarker(w, source, steps, ws, |steps|);
      }
    } else {
      SettledOrUnsynced(w.disk);
      var reboot, loss := Reboot(w.disk.record, false), Damage(None);
      var rebooted := After(w, source, reboot);
      var lost := After(rebooted, source, loss);
      var steps, ws := [reboot, loss], [w, rebooted, lost];
      assert Continuation(w, source, steps, ws);
      assert FallsBack(ws[2].disk, source);
    }
  }

  /**
   After a save that put its record in place, the deployment value can come back exactly when the
   save found an unsynced marker and its own last sync did not happen.
   */
  lemma {:induction false} ReplacedRecordForbidsFallback(w: World, source: Source, a: Action)
    requires !source.legacyFiles && source.deployment.Configured? && source.deployment.value.Ok?
    requires a.Save? && Allowed(w, a) && Plausible(w.disk)
    requires PutsRecord(w.disk, source, a.confirmed, a.expected, a.plan)
    ensures CanFallBack(After(w, source, a), source) <==> MarkerUnsynced(w.disk) && !a.plan.syncRecord.Succeeds?
  {
    SavePlausible(w, source, a);
    BoundaryDurableUnlessFoundUnsynced(w, source, a);
    FallbackPossibleIffMarkerNotDurable(After(w, source, a), source);
  }

  const GOES_WELL := Plan(Succeeds, Succeeds, Succeeds, Succeeds, Succeeds, Succeeds, Succeeds, Succeeds, Succeeds)

  /**
   A run in which a record was put in place, was seen, was then lost, and the deployment value
   came back: the first save fails to sync its marker and fails to take it back; the second finds
   the marker, puts its record in place and dies before its sync; the crash keeps the record and
   drops the marker.
   */
  lemma {:induction false} UnsyncedMarkerLosesTheBoundary(source: Source, key: string)
    requires !source.legacyFiles && source.deployment.Configured? && source.deployment.value.Ok?
    ensures var first := Save(false, key, None, 1, GOES_WELL.(syncMarker := Fails, undoMarker := Fails));
            var second := Save(false, key, None, 2, GOES_WELL.(syncRecord := Dies));
            var crash := Reboot(Some(Record(Some(key), 2)), false);
            var w1 := After(INITIAL, source, first);
            var w2 := After(w1, source, second);
            var w3 := After(w2, source, crash);
            var w4 := After(w3, source, Damage(None));
      && Allowed(INITIAL, first) && Allowed(w1, second) && Allowed(w2, crash) && Allowed(w3, Damage(None))
      && MarkerUnsynced(w1.disk)
      && PutsRecord(w1.disk, source, false, None, second.plan)
      && Snapshot(w3.disk, source) == Ok((key, Some(2)))
      && FallsBack(w4.disk, source)
  {
  }

  /** The save creates the marker, then dies or fails before any sync confirms it and does not take it back. */
  predicate StopsBeforeMarkerSync(w: World, source: Source, a: Action)
    requires a.Save?
  {
    && a.plan.lock.Succeeds? && a.plan.temporary.Succeeds? && Previous(w.disk, source, a.confirmed) == Ok(a.expected)
    && !w.disk.marker && a.plan.createMarker.Succeeds?
    && (a.plan.syncMarker.Dies? || (a.plan.syncMarker.Fails? && (a.expected.Some? || !a.plan.undoMarker.Succeeds?)))
  }

  /** From a settled directory, exactly these saves leave an unsynced marker behind. */
  lemma {:induction false} WhenTheMarkerStaysUnsynced(w: World, source: Source, a: Action)
    requires a.Save? && Allowed(w, a) && w.disk == Synced(w.disk)
    ensures MarkerUnsynced(After(w, source, a).disk) <==> StopsBeforeMarkerSync(w, source, a)
  {
  }

  // ----- Failed saves ------------------------------------------------------------------------

  /** A first save that reports a definite failure leaves the settled directory exactly as it was. */
  lemma {:induction false} UndoneFirstSaveLeavesNoTrace(w: World, source: Source, a: Action)
    requires a.Save? && Allowed(w, a) && w.disk == Synced(w.disk) && w.disk.record.None?
    requires SaveOn(w.disk, source, a.confirmed, a.key, a.expected, a.revision, a.plan).1 == SaveFailed
    ensures After(w, source, a).disk == w.disk
    ensures forall record, marker :: Allowed(After(w, source, a), Reboot(record, marker)) ==>
              Snapshot(After(After(w, source, a), source, Reboot(record, marker)).disk, source) == Snapshot(w.disk, source)
  {
  }

  /** A save that does not put its record in place never changes the record, now or after a crash. */
  lemma {:induction false} RecordChangesOnlyWhenPut(w: World, source: Source, a: Action)
    requires a.Save? && Allowed(w, a) && Plausible(w.disk)
    ensures var (disk, result) := SaveOn(w.disk, source, a.confirmed, a.key, a.expected, a.revision, a.plan);
      && (!PutsRecord(w.disk, source, a.confirmed, a.expected, a.plan) ==> disk.record == w.disk.record && disk.records <= w.disk.records)
      && (PutsRecord(w.disk, source, a.confirmed, a.expected, a.plan) ==>
            disk.record == Some(Record(Some(a.key), a.revision)) && disk.records <= w.disk.records + {disk.record})
      && (result.Saved? ==>
            PutsRecord(w.disk, source, a.confirmed, a.expected, a.plan) && disk.records == {disk.record} && result.revision == a.revision)
      && (result in {SaveFailed, Changed} || result.Refused? ==> !PutsRecord(w.disk, source, a.confirmed, a.expected, a.plan))
  {
  }

  // ----- The chain of revisions --------------------------------------------------------------

  predicate InLine(w: World, record: Option<Record>) {
    match record
    case None => w.anchor == []
    case Some(Corrupt) => w.anchor == []
    case Some(Record(_, revision)) => revision in w.used && revision in w.lineage && w.anchor <= w.lineage[revision]
  }

  predicate ChainInv(w: World) {
    && Plausible(w.disk)
    && w.lineage.Keys <= w.used
    && forall record :: record in w.disk.records ==> InLine(w, record)
  }

  lemma {:induction false} ChainStep(w: World, source: Source, a: Action)
    requires ChainInv(w) && Allowed(w, a)
    ensures ChainInv(After(w, source, a))
    ensures !a.Damage? ==> w.anchor <= After(w, source, a).anchor
  {
    hide SaveOn, PutsRecord;
    var w' := After(w, source, a);
    match a
    case Save(confirmed, key, expected, revision, plan) =>
      RecordChangesOnlyWhenPut(w, source, a);
      assert InLine(w, w.disk.record);
      SavePlausible(w, source, a);
      if PutsRecord(w.disk, source, confirmed, expected, plan) {
        PutBuildsOnLine(w, source, a);
      }
      forall record | record in w'.disk.records ensures InLine(w', record) {
        assert record in w.disk.records ==> InLine(w, record);
      }
    case Reboot(record, marker) =>
      assert InLine(w, record);
    case Damage(record) =>
  }

  lemma {:induction false} SavePlausible(w: World, source: Source, a: Action)
    requires a.Save? && Plausible(w.disk)
    ensures Plausible(After(w, source, a).disk)
  {
  }

  lemma {:induction false} PutBuildsOnLine(w: World, source: Source, a: Action)
    requires a.Save? && ChainInv(w) && PutsRecord(w.disk, source, a.confirmed, a.expected, a.plan)
    ensures w.anchor <= Lineage(w, a.expected)
  {
    assert InLine(w, w.disk.record);
  }

  lemma {:induction false} ChainAlongRun(worlds: seq<World>, actions: seq<Action>, source: Source, k: nat)
    requires IsRun(worlds, actions, source) && k < |worlds|
    ensures ChainInv(worlds[k])
  {
    if k > 0 {
      ChainAlongRun(worlds, actions, source, k - 1);
      ChainStep(worlds[k - 1], source, actions[k - 1]);
    }
  }

  lemma {:induction false} AnchorGrows(worlds: seq<World>, actions: seq<Action>, source: Source, i: nat, k: nat)
    requires IsRun(worlds, actions, source) && i <= k < |worlds|
    requires forall n :: i <= n < k ==> !actions[n].Damage?
    ensures worlds[i].anchor <= worlds[k].anchor
    decreases k
  {
    if i < k {
      AnchorGrows(worlds, actions, source, i, k - 1);
      ChainAlongRun(worlds, actions, source, k - 1);
      ChainStep(worlds[k - 1], source, actions[k - 1]);
    }
  }

  ghost predicate Confirmed(worlds: seq<World>, actions: seq<Action>, source: Source, i: nat)
    requires i < |worlds| && i < |actions|
  {
    actions[i].Save? &&
    SaveOn(worlds[i].disk, source, actions[i].confirmed, actions[i].key, actions[i].expected, actions[i].revision, actions[i].plan).1.Saved?
  }

  /**
   While the record is not damaged, the confirmed saves form one chain, through any failures,
   deaths and reboots: the later revision was built, directly or over unconfirmed revisions, on
   the earlier one, and no two confirmed saves replaced the same revision.
   */
  lemma {:induction false} ConfirmedSavesFormOneChain(worlds: seq<World>, actions: seq<Action>, source: Source, i: nat, k: nat)
    requires IsRun(worlds, actions, source) && i < k < |actions|
    requires Confirmed(worlds, actions, source, i) && Confirmed(worlds, actions, source, k)
    requires forall n :: i < n < k ==> !actions[n].Damage?
    ensures worlds[i + 1].anchor < worlds[k + 1].anchor
    ensures worlds[i + 1].anchor[|worlds[i + 1].anchor| - 1] == actions[i].revision
    ensures worlds[k + 1].anchor[|worlds[k + 1].anchor| - 1] == actions[k].revision
    ensures actions[i].expected != actions[k].expected
  {
    ChainAlongRun(worlds, actions, source, i);
    ChainAlongRun(worlds, actions, source, k);
    ChainAlongRun(worlds, actions, source, i + 1);
    AnchorGrows(worlds, actions, source, i + 1, k);
    ConfirmedExtends(worlds[i], source, actions[i]);
    ConfirmedExtends(worlds[k], source, actions[k]);
    if actions[i].expected == actions[k].expected {
      // The second save would build on a line shorter than the anchor it must extend.
      LineageStable(worlds, actions, source, i, k, actions[i].expected);
    }
  }

  lemma {:induction false} ConfirmedExtends(w: World, source: Source, a: Action)
    requires a.Save? && ChainInv(w) && Allowed(w, a)
    requires SaveOn(w.disk, source, a.confirmed, a.key, a.expected, a.revision, a.plan).1.Saved?
    ensures After(w, source, a).anchor == Lineage(w, a.expected) + [a.revision]
    ensures w.anchor <= Lineage(w, a.expected)
    ensures a.expected.Some? ==> a.expected.value in w.lineage
  {
    RecordChangesOnlyWhenPut(w, source, a);
    PutBuildsOnLine(w, source, a);
    assert InLine(w, w.disk.record);
  }

  /** The lineage of a revision never changes once it is known. */
  lemma {:induction false} LineageStable(worlds: seq<World>, actions: seq<Action>, source: Source, i: nat, k: nat, revision: Option<nat>)
    requires IsRun(worlds, actions, source) && i <= k < |worlds|
    requires revision.Some? ==> revision.value in worlds[i].lineage
    ensures revision.Some? ==> revision.value in worlds[k].lineage
    ensures Lineage(worlds[k], revision) == Lineage(worlds[i], revision)
    decreases k
  {
    if i < k {
      LineageStable(worlds, actions, source, i, k - 1, revision);
      ChainAlongRun(worlds, actions, source, k - 1);
      KeepsLineage(worlds[k - 1], source, actions[k - 1], revision);
    }
  }

  lemma {:induction false} KeepsLineage(w: World, source: Source, a: Action, revision: Option<nat>)
    requires ChainInv(w) && Allowed(w, a)
    requires revision.Some? ==> revision.value in w.lineage
    ensures revision.Some? ==> revision.value in After(w, source, a).lineage
    ensures Lineage(After(w, source, a), revision) == Lineage(w, revision)
  {
    hide SaveOn, PutsRecord;
  }
}
