/** Readers of the logs that the store itself wrote, in any run of the lease protocol. */
module ChatReaders {
  import opened Outcomes
  import opened PythonText
  import opened TurnLog
  import opened TurnStore
  import opened LeaseRuns
  import opened CardProjection
  import opened ProjectionCommutes
  import opened ResumeClient

  /** The database cannot store a NUL character in any text of an event. */
  predicate CleanEvent(e: Event) {
    match e.payload
    case Progress(message) => Clean(message)
    case Delta(delta) => Clean(delta)
    case Cards(_) => true
    case Finished(turn) => turn.error.Some? ==> Clean(turn.error.value)
  }

  predicate CleanBlocks(blocks: seq<Block>) {
    forall i :: 0 <= i < |blocks| && blocks[i].TextBlock? ==> Clean(blocks[i].text)
  }

  /** A state as the store builds it reads as itself. */
  lemma {:induction false} PublicStateReadsAsItself(t: Turn)
    requires PublicBlocks(t.blocks) && CleanBlocks(t.blocks) && Clean(t.message)
    requires t.status.Failed? <==> t.error.Some?
    requires !t.status.Processing? ==> t.progress.None?
    requires t.progress.Some? ==> Clean(t.progress.value)
    requires t.error.Some? ==> Clean(t.error.value)
    ensures ReadableTurn(t) == Ok(t)
  {
    assert !HasInvalidCards(t.blocks);
    forall i | 0 <= i < |t.blocks| ensures PublishedAll(t.blocks)[i] == t.blocks[i] {
      if t.blocks[i].CardsBlock? {
        NormalizedIsIdentity(t.blocks[i].products);
      }
    }
    assert PublishedAll(t.blocks) == t.blocks;
    assert ProjectedBlocks(t.blocks) == t.blocks && t.(blocks := t.blocks) == t;
    assert Acceptable(t) by {
      hide PublishedAll;
    }
  }

  /** Every open prefix of a stored log folds to a public state. */
  lemma {:induction false} OpenLogIsPublic(turnId: nat, message: string, events: seq<Event>)
    requires PublicEvents(events) && Clean(message)
    requires forall i :: 0 <= i < |events| ==> CleanEvent(events[i]) && !events[i].payload.Finished?
    ensures var t := ClientFold(Admitted(turnId, message), events);
      && PublicBlocks(t.blocks) && CleanBlocks(t.blocks) && t.message == message && t.status.Processing? && t.error.None?
      && (t.progress.Some? ==> Clean(t.progress.value))
      && (HasCards(t.blocks) ==> exists i :: 0 <= i < |events| && events[i].payload.Cards?)
  {
    if events != [] {
      var front, e := events[..|events| - 1], events[|events| - 1];
      assert forall i :: 0 <= i < |front| ==> front[i] == events[i];
      OpenLogIsPublic(turnId, message, front);
      var before := ClientFold(Admitted(turnId, message), front).blocks;
      match e.payload {
        case Delta(delta) => AppendedTextIsPublic(before, delta);
        case Cards(products) =>
          assert forall i :: 0 <= i < |front| ==> front[i] == events[i] && !front[i].payload.Cards?;
          assert !HasCards(before);
          assert PublicEvent(e);
        case _ =>
      }
    }
  }

  lemma {:induction false} AppendedTextIsPublic(blocks: seq<Block>, delta: string)
    requires PublicBlocks(blocks) && CleanBlocks(blocks) && Clean(delta)
    ensures PublicBlocks(AppendText(blocks, delta)) && CleanBlocks(AppendText(blocks, delta))
    ensures HasCards(AppendText(blocks, delta)) ==> HasCards(blocks)
  {
    var more := AppendText(blocks, delta);
    assert forall i :: 0 <= i < |more| && more[i].CardsBlock? ==> i < |blocks| && more[i] == blocks[i];
  }

  predicate CleanRow(row: Row) {
    Clean(row.request.message) && forall i :: 0 <= i < |row.events| ==> CleanEvent(row.events[i])
  }

  /** The projection changes nothing in a log the store wrote: neither the state nor any event. */
  lemma {:induction false} StoredLogReadsAsItself(tid: nat, row: Row)
    requires SoundRow(tid, row) && CleanRow(row)
    requires CleanBlocks(row.turn.blocks)
    ensures ReadableTurn(row.turn) == Ok(row.turn)
    ensures ReadableEvents(row.events) == Ok(row.events)
  {
    if Unfinished(row) {
      assert forall i :: 0 <= i < |row.events| ==> !row.events[i].payload.Finished?;
      OpenLogIsPublic(tid, row.turn.message, row.events);
    } else {
      assert CleanEvent(row.events[|row.events| - 1]);
    }
    PublicStateReadsAsItself(row.turn);
    EventsReadAsThemselves(row.events);
  }

  lemma {:induction false} EventsReadAsThemselves(events: seq<Event>)
    requires PublicEvents(events)
    requires forall i :: 0 <= i < |events| && events[i].payload.Finished? ==> ReadableTurn(events[i].payload.turn) == Ok(events[i].payload.turn)
    ensures ReadableEvents(events) == Ok(events)
  {
    if events != [] {
      var front := events[..|events| - 1];
      EventsReadAsThemselves(front);
      assert PublicEvent(events[|events| - 1]);
      assert front + [events[|events| - 1]] == events;
    }
  }

  /**
   In any run of the lease protocol, a client that takes its snapshot after `from` events of a
   stored turn and then receives any of its events, in any order and any number of times, saves
   the state the store had after some number of events, and the final state when it reports
   completion.
   */
  lemma {:induction false} ClientReachesStoredState(
      worlds: seq<World>, actions: seq<Action>, limits: Limits, at: nat, tid: nat, from: nat, frames: seq<Received>)
    requires IsRun(worlds, actions, limits) && at < |worlds| && tid in worlds[at].db.rows
    requires var row := worlds[at].db.rows[tid];
      from <= |row.events| && (from == |row.events| ==> Unfinished(row)) && DrawnFrom(frames, row.events)
    ensures var row := worlds[at].db.rows[tid];
            var start := Admitted(tid, row.request.message);
            var (saved, ending) := Followed(ClientFold(start, row.events[..from]), frames);
      && from <= saved.lastEventId <= |row.events|
      && saved == ClientFold(start, row.events[..saved.lastEventId])
      && (ending == Done <==> saved.lastEventId == |row.events| && !Unfinished(row))
      && (ending == Done ==> saved == row.turn)
      && ending in {Done, Ended, Gap}
  {
    RowsAlongRun(worlds, actions, limits, at);
    var row := worlds[at].db.rows[tid];
    assert RowInv(worlds[at].chain, tid, row);
    SnapshotPosition(row.turn, row.events, from);
    var start := Admitted(tid, row.request.message);
    assert row.events[0..from] == row.events[..from];
    FollowsTheLogExactlyOnce(row.events, ClientFold(start, row.events[..from]), frames, start, 0);
    var saved := Followed(ClientFold(start, row.events[..from]), frames).0;
    assert row.events[0..saved.lastEventId] == row.events[..saved.lastEventId];
    assert row.events[..|row.events|] == row.events;
  }
}
