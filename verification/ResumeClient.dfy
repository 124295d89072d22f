/**
 The integration client: it keeps one saved turn, takes a snapshot and then follows the event
 stream, checking every event number against its cursor.
 */
module ResumeClient {
  import opened Outcomes
  import opened TurnLog
  import opened CardProjection
  import opened ProjectionCommutes

  /** A dispatched frame; no payload when the event name is unknown. */
  datatype Received = Received(id: int, payload: Option<Payload>)

  datatype Ending = Done | Ended | Gap | BadTerminal | UnknownEvent | WrongTurn | WrongMessage

  predicate TerminalFor(final: Turn, turnId: nat, id: int) {
    final.turnId == turnId && final.lastEventId == id && !final.status.Processing?
  }

  /** The saved turn and the ending, after following `frames` from a saved turn. */
  function Followed(turn: Turn, frames: seq<Received>): (Turn, Ending)
    decreases |frames|
  {
    if frames == [] then (turn, Ended)
    else
      var f := frames[0];
      if f.id <= turn.lastEventId then Followed(turn, frames[1..])
      else if f.id != turn.lastEventId + 1 then (turn, Gap)
      else if f.payload.None? then (turn, UnknownEvent)
      else if f.payload.value.Finished? && !TerminalFor(f.payload.value.turn, turn.turnId, f.id) then (turn, BadTerminal)
      else
        var next := ClientApply(turn, Event(f.id, f.payload.value));
        if f.payload.value.Finished? then (next, Done) else Followed(next, frames[1..])
  }

  /** A new session: adopt the server's snapshot, then follow its stream. */
  function Resumed(turnId: nat, message: string, snapshot: Turn, frames: seq<Received>): (Option<Turn>, Ending) {
    if snapshot.message != message then (None, WrongMessage)
    else if snapshot.turnId != turnId then (None, WrongTurn)
    else if !snapshot.status.Processing? then (Some(snapshot), Done)
    else (Some(Followed(snapshot, frames).0), Followed(snapshot, frames).1)
  }

  class BackendClient {
    const turnId: nat
    const message: string
    var turn: Option<Turn>

    constructor (turnId: nat, message: string)
      ensures this.turnId == turnId && this.message == message && this.turn == None
    {
      this.turnId, this.message, this.turn := turnId, message, None;
    }

    method Resume(snapshot: Turn, frames: seq<Received>) returns (ending: Ending)
      modifies this
      ensures var r := Resumed(turnId, message, snapshot, frames);
        ending == r.1 && turn == if r.0.Some? then r.0 else old(turn)
    {
      if snapshot.message != message {
        return WrongMessage;
      }
      if snapshot.turnId != turnId {
        return WrongTurn;
      }
      turn := Some(snapshot);
      if !snapshot.status.Processing? {
        return Done;
      }
      var cursor := snapshot.lastEventId;
      for i := 0 to |frames|
        invariant turn.Some? && cursor == turn.value.lastEventId && turn.value.turnId == turnId
        invariant Followed(snapshot, frames) == Followed(turn.value, frames[i..])
      {
        var f := frames[i];
        assert frames[i..][0] == f && frames[i..][1..] == frames[i + 1..];
        if f.id <= cursor {
          continue;
        }
        if f.id != cursor + 1 {
          return Gap;
        }
        if f.payload.None? {
          return UnknownEvent;
        }
        var next := turn.value;
        match f.payload.value {
          case Finished(final) =>
            if final.turnId != turnId || final.lastEventId != f.id || final.status.Processing? {
              return BadTerminal;
            }
            next := final;
          case Progress(text) =>
            next := next.(progress := Some(text));
          case Delta(delta) =>
            next := next.(progress := None);
            next := next.(blocks := AppendText(next.blocks, delta));
          case Cards(products) =>
            next := next.(blocks := next.blocks + [CardsBlock(products)]);
        }
        next := next.(lastEventId := f.id);
        turn := Some(next);
        cursor := f.id;
        if f.payload.value.Finished? {
          return Done;
        }
      }
      return Ended;
    }
  }

  // ----- Exactly once ------------------------------------------------------------------------

  /** Every frame is some event of the log: late, early, repeated or missing ones included. */
  predicate DrawnFrom(frames: seq<Received>, log: seq<Event>) {
    forall i :: 0 <= i < |frames| ==>
      1 <= frames[i].id <= |log| && frames[i].payload == Some(log[frames[i].id - 1].payload)
  }

  /** A published log of one turn. */
  predicate PublishedLog(log: seq<Event>, turnId: nat) {
    && Numbered(log) && ClosedOnlyLast(log)
    && (Closed(log) ==> TerminalFor(log[|log| - 1].payload.turn, turnId, |log|))
  }

  /**
   Whatever the network does to the frames, the saved turn is the snapshot with an unbroken run
   of the log applied, each event once; it reports completion exactly when that run ends the log.
   */
  lemma {:induction false} FollowsTheLogExactlyOnce(
      log: seq<Event>, turn: Turn, frames: seq<Received>, start: Turn, from: nat)
    requires PublishedLog(log, turn.turnId) && DrawnFrom(frames, log)
    requires from <= turn.lastEventId <= |log|
    requires turn == ClientFold(start, log[from..turn.lastEventId])
    requires turn.lastEventId == |log| ==> !Closed(log)
    ensures var (saved, ending) := Followed(turn, frames);
      && turn.lastEventId <= saved.lastEventId <= |log|
      && saved == ClientFold(start, log[from..saved.lastEventId])
      && saved.turnId == turn.turnId
      && (ending == Done <==> saved.lastEventId == |log| && Closed(log))
      && ending in {Done, Ended, Gap}
    decreases |frames|
  {
    hide ClientFold;
    if frames != [] {
      var f := frames[0];
      if f.id <= turn.lastEventId {
        FollowsTheLogExactlyOnce(log, turn, frames[1..], start, from);
      } else if f.id == turn.lastEventId + 1 {
        var e := log[f.id - 1];
        FoldOneMore(start, log, from, turn.lastEventId);
        if !e.payload.Finished? {
          FollowsTheLogExactlyOnce(log, ClientApply(turn, e), frames[1..], start, from);
        }
      }
    }
  }

  lemma {:induction false} FoldOneMore(start: Turn, log: seq<Event>, from: nat, k: nat)
    requires from <= k < |log|
    ensures ClientFold(start, log[from..k + 1]) == ClientApply(ClientFold(start, log[from..k]), log[k])
  {
    assert log[from..k + 1][..k - from] == log[from..k];
  }

  /** A stream that delivers the rest of the log in order, up to any cut, loses nothing. */
  lemma {:induction false} InOrderStreamLosesNothing(log: seq<Event>, turn: Turn, upTo: nat)
    requires PublishedLog(log, turn.turnId) && turn.lastEventId <= upTo <= |log|
    requires turn.lastEventId == |log| ==> !Closed(log)
    ensures var frames := Stream(log, turn.lastEventId, upTo);
      && Followed(turn, frames).0 == ClientFold(turn, log[turn.lastEventId..upTo])
      && Followed(turn, frames).1 == if upTo == |log| && Closed(log) then Done else Ended
    decreases upTo - turn.lastEventId
  {
    var from := turn.lastEventId;
    if from < upTo {
      var e := log[from];
      var next := ClientApply(turn, e);
      assert log[from..upTo] == [e] + log[from + 1..upTo];
      ClientFoldConcat(turn, [e], log[from + 1..upTo]);
      assert [e][..0] == [];
      assert Stream(log, from, upTo)[1..] == Stream(log, from + 1, upTo);
      if !e.payload.Finished? {
        InOrderStreamLosesNothing(log, next, upTo);
      } else {
        assert upTo == |log| && log[from + 1..upTo] == [];
      }
    } else {
      assert log[from..upTo] == [];
    }
  }

  /** The frames of the log after `from`, up to `upTo`. */
  function Stream(log: seq<Event>, from: nat, upTo: nat): (frames: seq<Received>)
    requires from <= upTo <= |log|
    ensures |frames| == upTo - from
  {
    seq(upTo - from, i requires 0 <= i < upTo - from => Received(log[from + i].id, Some(log[from + i].payload)))
  }

  // ----- End to end --------------------------------------------------------------------------

  /** The saved turn shows what the stored turn showed after `saved.lastEventId` events. */
  ghost predicate ShowsStoredPrefix(saved: Turn, turn: Turn, events: seq<Event>) {
    && saved.lastEventId <= |events|
    && var stored := ClientFold(Admitted(turn.turnId, turn.message), events[..saved.lastEventId]);
      ReadableTurn(stored).Ok? ==>
        && saved.blocks == ReadableTurn(stored).value.blocks
        && saved.status == stored.status && saved.error == stored.error
  }

  lemma {:induction false} ReadableLog(turn: Turn, events: seq<Event>)
    requires Consistent(turn, events)
    requires Closed(events) ==> ReadableTurn(turn).Ok?
    ensures ReadableEvents(events).Ok?
    ensures PublishedLog(ReadableEvents(events).value, turn.turnId)
    ensures Closed(ReadableEvents(events).value) <==> Closed(events)
  {
    if Closed(events) {
      ReadableOpen(events[..|events| - 1]);
    } else {
      ReadableOpen(events);
    }
    ReadableLength(events);
    var shown := ReadableEvents(events).value;
    forall i | 0 <= i < |shown| ensures shown[i].payload.Finished? <==> events[i].payload.Finished? {
      assert ReadableEvent(events[i]) == Ok(shown[i]);
    }
  }

  lemma {:induction false} ReadableOpen(events: seq<Event>)
    requires forall i :: 0 <= i < |events| ==> !events[i].payload.Finished?
    ensures ReadableEvents(events).Ok?
  {
    if events != [] {
      ReadableOpen(events[..|events| - 1]);
    }
  }

  lemma {:induction false} ReadableSlice(events: seq<Event>, from: nat, upTo: nat)
    requires from <= upTo <= |events| && ReadableEvents(events).Ok?
    ensures ReadableEvents(events[from..upTo]).Ok?
    ensures |ReadableEvents(events).value| == |events|
    ensures ReadableEvents(events[from..upTo]).value == ReadableEvents(events).value[from..upTo]
    decreases upTo - from
  {
    ReadableLength(events);
    if from < upTo {
      ReadableSlice(events, from, upTo - 1);
      assert events[from..upTo][..upTo - from - 1] == events[from..upTo - 1];
      assert ReadableEvent(events[upTo - 1]) == Ok(ReadableEvents(events).value[upTo - 1]);
    }
  }

  /**
   A session that takes its snapshot after k events and then receives any frames of the public
   stream saves exactly what the public snapshot at its last event number would show.
   */
  lemma {:induction false} ResumedTurnShowsTheStoredTurn(turn: Turn, events: seq<Event>, k: nat, snapshot: Turn, frames: seq<Received>)
    requires Consistent(turn, events) && CardsTrimmed(events)
    requires Closed(events) ==> ReadableTurn(turn).Ok?
    requires k <= |events| && (k == |events| ==> !Closed(events))
    requires snapshot == ClientFold(Admitted(turn.turnId, turn.message), events[..k]) && ReadableTurn(snapshot).Ok?
    requires ReadableEvents(events).Ok? && DrawnFrom(frames, ReadableEvents(events).value)
    ensures var (saved, ending) := Followed(ReadableTurn(snapshot).value, frames);
      && k <= saved.lastEventId
      && ShowsStoredPrefix(saved, turn, events)
      && (ending == Done <==> saved.lastEventId == |events| && Closed(events))
      && ending in {Done, Ended, Gap}
  {
    var start, shown := Admitted(turn.turnId, turn.message), ReadableEvents(events).value;
    var client := ReadableTurn(snapshot).value;
    ReadableLog(turn, events);
    ReadableLength(events);
    SnapshotPosition(turn, events, k);
    assert shown[k..client.lastEventId] == [];
    FollowsTheLogExactlyOnce(shown, client, frames, client, k);
    var saved := Followed(client, frames).0;
    ReadableSlice(events, k, saved.lastEventId);
    PrefixShown(turn, events, k, snapshot, saved);
  }

  lemma {:induction false} SnapshotPosition(turn: Turn, events: seq<Event>, k: nat)
    requires Consistent(turn, events) && k <= |events| && (k == |events| ==> !Closed(events))
    ensures var snapshot := ClientFold(Admitted(turn.turnId, turn.message), events[..k]);
      snapshot.lastEventId == k && snapshot.turnId == turn.turnId && snapshot.message == turn.message && snapshot.status.Processing?
  {
    assert forall i :: 0 <= i < k ==> events[..k][i] == events[i];
    FoldedIds(Admitted(turn.turnId, turn.message), events[..k]);
  }

  lemma {:induction false} SliceFacts(turnId: nat, message: string, events: seq<Event>, k: nat, c: nat)
    requires ClosedOnlyLast(events) && CardsTrimmed(events) && k <= c <= |events|
    requires k == |events| ==> !Closed(events)
    ensures var start, between := Admitted(turnId, message), events[k..c];
      && ClientFold(start, events[..c]) == ClientFold(ClientFold(start, events[..k]), between)
      && NoAdjacentText(ClientFold(start, events[..k]).blocks)
      && CardsTrimmed(between) && ClosedOnlyLast(between)
      && (Closed(between) ==> c == |events| && Closed(events) && between[|between| - 1] == events[|events| - 1])
  {
    hide ClientFold;
    var prefix, between := events[..k], events[k..c];
    assert prefix + between == events[..c];
    ClientFoldConcat(Admitted(turnId, message), prefix, between);
    assert forall i :: 0 <= i < |between| ==> between[i] == events[k + i];
    assert forall i :: 0 <= i < |prefix| ==> prefix[i] == events[i];
    FoldsHaveNoAdjacentText(turnId, message, prefix);
  }

  lemma {:induction false} PrefixShown(turn: Turn, events: seq<Event>, k: nat, snapshot: Turn, saved: Turn)
    requires Consistent(turn, events) && CardsTrimmed(events) && k <= saved.lastEventId <= |events|
    requires k == |events| ==> !Closed(events)
    requires snapshot == ClientFold(Admitted(turn.turnId, turn.message), events[..k]) && ReadableTurn(snapshot).Ok?
    requires ReadableEvents(events[k..saved.lastEventId]).Ok?
    requires saved == ClientFold(ReadableTurn(snapshot).value, ReadableEvents(events[k..saved.lastEventId]).value)
    ensures ShowsStoredPrefix(saved, turn, events)
  {
    SliceFacts(turn.turnId, turn.message, events, k, saved.lastEventId);
    var stored := ClientFold(Admitted(turn.turnId, turn.message), events[..saved.lastEventId]);
    if ReadableTurn(stored).Ok? {
      ProjectionCommutesWithFolding(snapshot, events[k..saved.lastEventId]);
      assert ReadableTurn(stored).value.status == stored.status && ReadableTurn(stored).value.error == stored.error;
    }
  }

  lemma {:induction false} FoldedIds(start: Turn, events: seq<Event>)
    requires forall i :: 0 <= i < |events| ==> events[i].id == start.lastEventId + i + 1 && !events[i].payload.Finished?
    ensures ClientFold(start, events).lastEventId == start.lastEventId + |events|
    ensures ClientFold(start, events).turnId == start.turnId && ClientFold(start, events).message == start.message
    ensures ClientFold(start, events).status == start.status
  {
    if events != [] {
      FoldedIds(start, events[..|events| - 1]);
    }
  }

  // ----- Frames from anywhere ----------------------------------------------------------------

  /** Events with the numbers that follow `last`, none of them closing but perhaps the last one. */
  predicate InSequence(events: seq<Event>, last: nat) {
    && (forall k :: 0 <= k < |events| ==> events[k].id == last + k + 1)
    && forall k :: 0 <= k < |events| - 1 ==> !events[k].payload.Finished?
  }

  predicate CameAsFrames(events: seq<Event>, frames: seq<Received>) {
    forall k :: 0 <= k < |events| ==> Received(events[k].id, Some(events[k].payload)) in frames
  }

  /** What the client made of some frames: which events it took, and why it stopped. */
  ghost predicate Took(turn: Turn, frames: seq<Received>, events: seq<Event>) {
    var (saved, ending) := Followed(turn, frames);
    && InSequence(events, turn.lastEventId) && CameAsFrames(events, frames) && saved == ClientFold(turn, events)
    && saved.turnId == turn.turnId && saved.lastEventId == turn.lastEventId + |events|
    && (ending == Done <==> Closed(events)) && (ending == Done ==> saved.status != Processing)
    && (ending == Gap ==> exists f :: f in frames && f.id > saved.lastEventId + 1)
    && (ending == UnknownEvent ==> Received(saved.lastEventId + 1, None) in frames)
    && ending in {Done, Ended, Gap, BadTerminal, UnknownEvent}
  }

  /**
   Whatever frames arrive, from wherever: the saved turn is the adopted one with a run of received
   events applied, in number order and each once; it is done exactly when the last of them closes
   the turn, and then it is a finished state of that very turn.
   */
  lemma {:induction false} AnyFramesAreChecked(turn: Turn, frames: seq<Received>)
    ensures exists events: seq<Event> :: Took(turn, frames, events)
    decreases |frames|
  {
    var none: seq<Event> := [];
    if frames == [] {
      assert Took(turn, frames, none);
    } else {
      var (f, rest) := (frames[0], frames[1..]);
      assert frames == [f] + rest;
      if f.id <= turn.lastEventId {
        AnyFramesAreChecked(turn, rest);
        var events: seq<Event> :| Took(turn, rest, events);
        assert Took(turn, frames, events);
      } else if f.id != turn.lastEventId + 1 || f.payload.None?
                || (f.payload.value.Finished? && !TerminalFor(f.payload.value.turn, turn.turnId, f.id)) {
        assert f in frames && Took(turn, frames, none);
      } else {
        var e := Event(f.id, f.payload.value);
        var next := ClientApply(turn, e);
        assert f in frames && f == Received(e.id, Some(e.payload));
        OneEventFolds(turn, e);
        if f.payload.value.Finished? {
          assert Took(turn, frames, [e]);
        } else {
          AnyFramesAreChecked(next, rest);
          var events: seq<Event> :| Took(next, rest, events);
          ClientFoldConcat(turn, [e], events);
          TookOneMore(turn, frames, e, events);
        }
      }
    }
  }

  lemma {:induction false} OneEventFolds(turn: Turn, e: Event)
    ensures ClientFold(turn, [e]) == ClientApply(turn, e)
  {
    assert [e][..0] == [];
  }

  lemma {:induction false} TookOneMore(turn: Turn, frames: seq<Received>, e: Event, events: seq<Event>)
    requires frames != [] && frames[0] == Received(e.id, Some(e.payload)) && e.id == turn.lastEventId + 1 && !e.payload.Finished?
    requires Took(ClientApply(turn, e), frames[1..], events)
    requires ClientFold(turn, [e] + events) == ClientFold(ClientFold(turn, [e]), events) && ClientFold(turn, [e]) == ClientApply(turn, e)
    ensures Took(turn, frames, [e] + events)
  {
    hide ClientFold;
    var more := [e] + events;
    assert forall k :: 1 <= k < |more| ==> more[k] == events[k - 1];
    assert frames == [frames[0]] + frames[1..];
    assert Followed(turn, frames) == Followed(ClientApply(turn, e), frames[1..]);
  }
}
