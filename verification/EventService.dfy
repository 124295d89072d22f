/** The server side of an event stream: read what follows the cursor, send it, read again. */
module EventService {
  import opened TurnLog
  import opened TurnStore

  /** What one replay transaction saw of the turn. */
  datatype Reading = Reading(events: seq<Event>, turn: Turn)

  /** A turn only grows between two readings. */
  predicate Growing(readings: seq<Reading>) {
    && (forall k :: 0 <= k < |readings| ==> Consistent(readings[k].turn, readings[k].events))
    && (forall j, k :: 0 <= j <= k < |readings| ==> readings[j].events <= readings[k].events)
  }

  /** The event rows with a number above the cursor, and the cursor after sending them. */
  method SendBatch(batch: seq<Event>, sent: seq<Event>, cursor: nat) returns (more: seq<Event>, next: nat)
    requires forall k :: 0 <= k < |batch| ==> batch[k].id == cursor + k + 1
    ensures more == sent + batch && next == cursor + |batch|
  {
    more, next := sent, cursor;
    for k := 0 to |batch|
      invariant more == sent + batch[..k] && next == cursor + k
    {
      next := batch[k].id;
      assert sent + batch[..k] + [batch[k]] == sent + batch[..k + 1];
      more := more + [batch[k]];
    }
    assert batch[..|batch|] == batch;
  }

  /** What a reading after the cursor returns. */
  lemma {:induction false} SuffixFrom(reading: Reading, cursor: nat)
    requires Consistent(reading.turn, reading.events) && cursor <= |reading.events|
    ensures EventsAfter(reading.events, cursor) == reading.events[cursor..]
    ensures forall k :: 0 <= k < |reading.events| - cursor ==> reading.events[cursor..][k].id == cursor + k + 1
    ensures reading.turn.lastEventId == |reading.events| && (reading.turn.status.Processing? <==> !Closed(reading.events))
  {
    ReplayIsSuffix(reading.events, 0, cursor);
  }

  /**
   A viewer that starts at `after` and stays for the given readings: it is sent exactly the events
   after its cursor, each once and in order, and the stream is closed by the server only after the
   closing event.
   */
  method Stream(readings: seq<Reading>, after: nat) returns (sent: seq<Event>, seen: nat, ended: bool)
    requires readings != [] && Growing(readings) && after <= |readings[0].events|
    ensures 0 < seen <= |readings| && sent == readings[seen - 1].events[after..]
    ensures ended ==> !readings[seen - 1].turn.status.Processing? && Closed(readings[seen - 1].events)
    ensures !ended ==> seen == |readings| && readings[seen - 1].turn.status.Processing?
  {
    hide Consistent, EventsAfter, Closed;
    sent, seen, ended := [], 0, false;
    var cursor := after;
    while seen < |readings|
      invariant seen <= |readings| && cursor == after + |sent|
      invariant seen == 0 ==> sent == []
      invariant seen > 0 ==> readings[seen - 1].turn.status.Processing? && after <= |readings[seen - 1].events|
      invariant seen > 0 ==> sent == readings[seen - 1].events[after..]
      decreases |readings| - seen
    {
      var reading := readings[seen];
      assert readings[if seen > 0 then seen - 1 else 0].events <= reading.events;
      SuffixFrom(reading, cursor);
      var batch := EventsAfter(reading.events, cursor);
      assert sent == reading.events[after..cursor];
      assert sent + batch == reading.events[after..];
      sent, cursor := SendBatch(batch, sent, cursor);
      seen := seen + 1;
      if !reading.turn.status.Processing? && cursor >= reading.turn.lastEventId {
        return sent, seen, true;
      }
    }
  }
}
