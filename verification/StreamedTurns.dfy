/**
 From the stored log to the saved turn: what the store keeps, the server reads and sends, the
 network cuts, and the client parses, decodes and follows.
 */
module StreamedTurns {
  import opened Outcomes
  import opened TurnLog
  import opened TurnStore
  import opened LeaseRuns
  import opened CardProjection
  import opened ProjectionCommutes
  import opened ResumeClient
  import opened ChatReaders
  import EventStream
  import EventService

  // ----- Readings of a run -------------------------------------------------------------------

  /** A stored turn keeps its request and its events; it only gets more of them. */
  lemma {:induction false} RowGrows(w: World, a: Action, limits: Limits, tid: nat)
    requires tid in w.db.rows
    ensures var rows := After(w, a, limits).db.rows;
      tid in rows && w.db.rows[tid].events <= rows[tid].events && w.db.rows[tid].request == rows[tid].request
  {
    hide Started, Emitted;
    if a.Execute? && a.message.StartTurn? {
      StartShape(w.db, a.message.tid, a.message.request, a.message.owner, a.now, limits);
    } else if a.Execute? && a.message.EmitEvent? {
      EmitShape(w.db, a.message.conversation, a.message.tid, a.message.emission, a.message.owner, a.now);
    }
  }

  lemma {:induction false} RowGrowsAlongRun(worlds: seq<World>, actions: seq<Action>, limits: Limits, i: nat, k: nat, tid: nat)
    requires IsRun(worlds, actions, limits) && i <= k < |worlds| && tid in worlds[i].db.rows
    ensures tid in worlds[k].db.rows && worlds[i].db.rows[tid].events <= worlds[k].db.rows[tid].events
    ensures worlds[i].db.rows[tid].request == worlds[k].db.rows[tid].request
    decreases k
  {
    hide After, Allowed;
    if i < k {
      RowGrowsAlongRun(worlds, actions, limits, i, k - 1, tid);
      RowGrows(worlds[k - 1], actions[k - 1], limits, tid);
    }
  }

  lemma {:induction false} StoredRowIsSound(worlds: seq<World>, actions: seq<Action>, limits: Limits, k: nat, tid: nat)
    requires IsRun(worlds, actions, limits) && k < |worlds| && tid in worlds[k].db.rows
    ensures SoundRow(tid, worlds[k].db.rows[tid])
  {
    hide After, Allowed, SoundRow;
    RowsAlongRun(worlds, actions, limits, k);
    assert RowInv(worlds[k].chain, tid, worlds[k].db.rows[tid]);
  }

  /** What the server reads of one turn at some moments of a run, in their order. */
  function ReadingsAt(worlds: seq<World>, tid: nat, moments: seq<nat>): seq<EventService.Reading>
    requires forall k :: 0 <= k < |moments| ==> moments[k] < |worlds| && tid in worlds[moments[k]].db.rows
  {
    seq(|moments|, k requires 0 <= k < |moments| =>
      EventService.Reading(worlds[moments[k]].db.rows[tid].events, worlds[moments[k]].db.rows[tid].turn))
  }

  /** Whatever happens between them, the readings of a run are such as the event service can stream. */
  lemma {:induction false} ReadingsOfARunGrow(worlds: seq<World>, actions: seq<Action>, limits: Limits, tid: nat, moments: seq<nat>)
    requires IsRun(worlds, actions, limits)
    requires forall k :: 0 <= k < |moments| ==> moments[k] < |worlds| && tid in worlds[moments[k]].db.rows
    requires forall j, k :: 0 <= j <= k < |moments| ==> moments[j] <= moments[k]
    ensures EventService.Growing(ReadingsAt(worlds, tid, moments))
  {
    hide IsRun, Consistent;
    forall k | 0 <= k < |moments| ensures SoundRow(tid, worlds[moments[k]].db.rows[tid]) {
      StoredRowIsSound(worlds, actions, limits, moments[k], tid);
    }
    forall j, k | 0 <= j <= k < |moments|
      ensures worlds[moments[j]].db.rows[tid].events <= worlds[moments[k]].db.rows[tid].events
    {
      RowGrowsAlongRun(worlds, actions, limits, moments[j], moments[k], tid);
    }
  }

  // ----- Payloads on the wire ----------------------------------------------------------------

  /** How both sides write and read the payload of an event. */
  datatype Codec = Codec(name: Payload -> string, data: Payload -> string, payload: (string, string) -> Option<Payload>)

  /** The event name and the data of this payload are single lines that read back as it. */
  predicate Carries(w: EventStream.Wire, codec: Codec, payload: Payload) {
    var (name, data) := (codec.name(payload), codec.data(payload));
    && EventStream.OneLine(name) && EventStream.OneLine(data) && w.json(data)
    && codec.payload(name, data) == Some(payload)
  }

  function FramesOf(codec: Codec, events: seq<Event>): (frames: seq<EventStream.Frame>)
    ensures |frames| == |events|
  {
    seq(|events|, k requires 0 <= k < |events| =>
      EventStream.Frame(events[k].id, codec.name(events[k].payload), codec.data(events[k].payload)))
  }

  function ReceivedOf(codec: Codec, frames: seq<EventStream.Frame>): seq<Received> {
    seq(|frames|, k requires 0 <= k < |frames| => Received(frames[k].id, codec.payload(frames[k].event, frames[k].data)))
  }

  /** What is decoded from the first frames of a log's end is what that end says. */
  lemma {:induction false} DecodedFrames(w: EventStream.Wire, codec: Codec, log: seq<Event>, from: nat, m: nat)
    requires from + m <= |log| && forall k :: 0 <= k < |log| ==> Carries(w, codec, log[k].payload)
    ensures ReceivedOf(codec, FramesOf(codec, log[from..])[..m]) == Stream(log, from, from + m)
  {
    var (received, said) := (ReceivedOf(codec, FramesOf(codec, log[from..])[..m]), Stream(log, from, from + m));
    assert |received| == |said|;
    forall k | 0 <= k < m ensures received[k] == said[k] {
      assert Carries(w, codec, log[from + k].payload);
    }
  }

  // ----- From the store to the saved turn ----------------------------------------------------

  /** A sound log and its state are published as they are. */
  lemma {:induction false} PublishedAsStored(tid: nat, row: Row, from: nat)
    requires SoundRow(tid, row) && CleanRow(row) && CleanBlocks(row.turn.blocks) && from <= |row.events|
    ensures ReadableTurn(row.turn) == Ok(row.turn) && ReadableEvents(row.events[from..]) == Ok(row.events[from..])
    ensures PublishedLog(row.events, tid)
  {
    StoredLogReadsAsItself(tid, row);
    ReadableSlice(row.events, from, |row.events|);
    assert row.events[from..|row.events|] == row.events[from..];
  }

  /** An earlier state of an open turn is clean when the later log is. */
  lemma {:induction false} EarlierStateIsPublished(tid: nat, earlier: Row, row: Row)
    requires SoundRow(tid, earlier) && SoundRow(tid, row) && CleanRow(row) && CleanBlocks(row.turn.blocks)
    requires earlier.events <= row.events && earlier.request == row.request
    ensures ReadableTurn(earlier.turn) == Ok(earlier.turn)
    ensures !Unfinished(earlier) ==> earlier.events == row.events && earlier.turn == row.turn
  {
    hide PublicEvents, PublicBlocks;
    assert CleanRow(earlier);
    if Unfinished(earlier) {
      assert forall i :: 0 <= i < |earlier.events| ==> !earlier.events[i].payload.Finished?;
      OpenLogIsPublic(tid, earlier.turn.message, earlier.events);
    } else {
      assert |earlier.events| - 1 == |row.events| - 1;
    }
    StoredLogReadsAsItself(tid, earlier);
  }

  /**
   In any run of the store: a client asks for the snapshot of a turn at one moment, and its stream
   has sent, by a later moment, the public form of every event after that snapshot, with keep-alive
   comments anywhere between them. Wherever the network cuts the text, the client reads it without
   an error and saves the state the store had after some number of events, each applied once; it
   is done exactly when it holds the final state, and loses nothing when nothing is cut.
   */
  lemma {:induction false} CutStreamReachesStoredState(
    worlds: seq<World>, actions: seq<Action>, limits: Limits, asked: nat, at: nat, tid: nat,
    w: EventStream.Wire, codec: Codec, items: seq<EventStream.Item>, cut: nat) returns (m: nat)
    requires IsRun(worlds, actions, limits) && asked <= at < |worlds| && tid in worlds[asked].db.rows && tid in worlds[at].db.rows
    requires var row := worlds[at].db.rows[tid];
      CleanRow(row) && CleanBlocks(row.turn.blocks) && forall k :: 0 <= k < |row.events| ==> Carries(w, codec, row.events[k].payload)
    requires var (from, row) := (|worlds[asked].db.rows[tid].events|, worlds[at].db.rows[tid]);
      from <= |row.events| && ReadableEvents(row.events[from..]).Ok? ==>
        EventStream.Frames(items) == FramesOf(codec, ReadableEvents(row.events[from..]).value)
    requires EventStream.Faithful(w) && forall k :: 0 <= k < |items| ==> EventStream.Writable(w, items[k]) && EventStream.IsUnbroken(items[k])
    requires cut <= |EventStream.Text(EventStream.StreamLines(w, items))|
    ensures var (from, row) := (|worlds[asked].db.rows[tid].events|, worlds[at].db.rows[tid]);
            var snapshot := ReadableTurn(worlds[asked].db.rows[tid].turn);
            var (frames, malformed) := EventStream.Parsed(
              w, EventStream.Lines(EventStream.Text(EventStream.StreamLines(w, items))[..cut], ""), EventStream.NOTHING);
      && snapshot.Ok? && !malformed && from + m <= |row.events|
      && var (saved, ending) := Resumed(tid, row.request.message, snapshot.value, ReceivedOf(codec, frames));
      && saved == Some(ClientFold(Admitted(tid, row.request.message), row.events[..from + m]))
      && ending == (if from + m == |row.events| && !Unfinished(row) then Done else Ended)
      && (ending == Done ==> saved == Some(row.turn))
      && (cut == |EventStream.Text(EventStream.StreamLines(w, items))| ==> from + m == |row.events|)
  {
    hide EventStream.Parsed, EventStream.Lines, EventStream.Text, EventStream.StreamLines, EventStream.Frames, IsRun, Carries,
      EventStream.Writable, EventStream.IsUnbroken, EventStream.Faithful, FramesOf, ReceivedOf, Resumed, ReadableTurn, ReadableEvents, CleanRow, CleanBlocks,
      SoundRow, PublishedLog, ClientFold, Unfinished;
    var (earlier, row) := (worlds[asked].db.rows[tid], worlds[at].db.rows[tid]);
    var from := |earlier.events|;
    StoredRowIsSound(worlds, actions, limits, asked, tid);
    StoredRowIsSound(worlds, actions, limits, at, tid);
    RowGrowsAlongRun(worlds, actions, limits, asked, at, tid);
    PublishedAsStored(tid, row, from);
    EarlierStateIsPublished(tid, earlier, row);
    m := EventStream.CutStreamDeliversPrefix(w, items, cut);
    DecodedFrames(w, codec, row.events, from, m);
    FollowedFromSnapshot(tid, earlier, row, m);
  }

  lemma {:induction false} SoundShape(tid: nat, row: Row)
    requires SoundRow(tid, row)
    ensures row.turn.turnId == tid && row.turn.message == row.request.message && row.turn.lastEventId == |row.events|
    ensures row.turn.status.Processing? <==> Unfinished(row)
    ensures Unfinished(row) <==> !Closed(row.events)
    ensures row.turn == ClientFold(Admitted(tid, row.request.message), row.events)
  {
    hide PublicEvents, PublicBlocks, ClientFold, Closed;
  }

  /** The next events in order, after those that the saved turn has seen. */
  lemma {:induction false} FollowedLog(start: Turn, log: seq<Event>, turn: Turn, m: nat)
    requires PublishedLog(log, turn.turnId) && turn.lastEventId + m <= |log| && turn == ClientFold(start, log[..turn.lastEventId])
    requires turn.lastEventId == |log| ==> !Closed(log)
    ensures var (from, next) := (turn.lastEventId, turn.lastEventId + m);
      Followed(turn, Stream(log, from, next)) == (ClientFold(start, log[..next]), if next == |log| && Closed(log) then Done else Ended)
  {
    hide Followed, ClientFold, PublishedLog, Closed;
    var (from, next) := (turn.lastEventId, turn.lastEventId + m);
    InOrderStreamLosesNothing(log, turn, next);
    ClientFoldConcat(start, log[..from], log[from..next]);
    assert log[..from] + log[from..next] == log[..next];
  }

  /** A client that adopts an earlier state and is sent the next events in order. */
  lemma {:induction false} FollowedFromSnapshot(tid: nat, earlier: Row, row: Row, m: nat)
    requires SoundRow(tid, earlier) && SoundRow(tid, row) && PublishedLog(row.events, tid)
    requires earlier.events <= row.events && earlier.request == row.request && |earlier.events| + m <= |row.events|
    requires !Unfinished(earlier) ==> earlier.events == row.events && earlier.turn == row.turn
    ensures var (message, next) := (row.request.message, |earlier.events| + m);
            var (saved, ending) := Resumed(tid, message, earlier.turn, Stream(row.events, |earlier.events|, next));
      && saved == Some(ClientFold(Admitted(tid, message), row.events[..next]))
      && ending == (if next == |row.events| && !Unfinished(row) then Done else Ended)
      && (ending == Done ==> saved == Some(row.turn))
  {
    hide SoundRow, Followed, ClientFold, PublishedLog, Unfinished, Closed, Stream;
    SoundShape(tid, earlier);
    SoundShape(tid, row);
    assert row.events[..|earlier.events|] == earlier.events && row.events[..|row.events|] == row.events;
    if Unfinished(earlier) {
      FollowedLog(Admitted(tid, row.request.message), row.events, earlier.turn, m);
    }
  }
}
