/**
 The projection of a log and the projection of a state agree: a client that folds projected
 events onto a projected snapshot ends with the projection of the folded state.
 */
module ProjectionCommutes {
  import opened Outcomes
  import opened PythonText
  import opened TurnLog
  import opened CardProjection

  predicate NoAdjacentText(blocks: seq<Block>) {
    forall i :: 0 < i < |blocks| ==> !(blocks[i - 1].TextBlock? && blocks[i].TextBlock?)
  }

  /** Every readable cards payload of the events was stored with its reasons trimmed. */
  predicate CardsTrimmed(events: seq<Event>) {
    forall i :: 0 <= i < |events| ==> CardTrimmed(events[i])
  }

  predicate CardTrimmed(e: Event) {
    e.payload.Cards? && ValidCards(e.payload.products) ==> TrimmedCards(e.payload.products)
  }

  /** A notice arrived after the last event that sets or clears the progress message. */
  predicate NoticeSinceProgress(events: seq<Event>) {
    events != [] &&
    match events[|events| - 1].payload
    case Cards(products) => !ValidCards(products) || NoticeSinceProgress(events[..|events| - 1])
    case _ => false
  }

  // ----- Blocks ------------------------------------------------------------------------------

  lemma {:induction false} MergedOfReadable(blocks: seq<Block>)
    requires NoAdjacentText(blocks) && !HasInvalidCards(blocks)
    ensures Merged(blocks) == blocks
  {
    if blocks != [] {
      var front, last := blocks[..|blocks| - 1], blocks[|blocks| - 1];
      assert !HasInvalidCards(front) by {
        assert forall i :: 0 <= i < |front| ==> front[i] == blocks[i];
      }
      MergedOfReadable(front);
      assert ReadableBlock(last) == last;
      if last.TextBlock? && front != [] {
        assert !front[|front| - 1].TextBlock?;
      }
      assert front + [last] == blocks;
    }
  }

  lemma {:induction false} ProjectedIsMerged(blocks: seq<Block>)
    requires NoAdjacentText(blocks)
    ensures ProjectedBlocks(blocks) == Merged(blocks)
  {
    if !HasInvalidCards(blocks) {
      MergedOfReadable(blocks);
    }
  }

  lemma {:induction false} MergedAppendText(blocks: seq<Block>, delta: string)
    ensures Merged(AppendText(blocks, delta)) == AppendText(Merged(blocks), delta)
  {
    var more := AppendText(blocks, delta);
    if blocks != [] && blocks[|blocks| - 1].TextBlock? {
      var front, text := blocks[..|blocks| - 1], blocks[|blocks| - 1].text;
      assert more[..|more| - 1] == front;
      var m := Merged(front);
      if m != [] && m[|m| - 1].TextBlock? {
        assert m[|m| - 1].text + (text + delta) == (m[|m| - 1].text + text) + delta;
      }
    } else {
      assert more[..|more| - 1] == blocks;
    }
  }

  lemma {:induction false} MergedAppendBlock(blocks: seq<Block>, b: Block)
    ensures Merged(blocks + [b]) == Push(Merged(blocks), ReadableBlock(b))
  {
    assert (blocks + [b])[..|blocks|] == blocks;
  }

  lemma {:induction false} PublishedAppendText(blocks: seq<Block>, delta: string)
    ensures PublishedAll(AppendText(blocks, delta)) == AppendText(PublishedAll(blocks), delta)
  {
  }

  lemma {:induction false} PublishedAppendBlock(blocks: seq<Block>, b: Block)
    ensures PublishedAll(blocks + [b]) == PublishedAll(blocks) + [Published(b)]
  {
  }

  lemma {:induction false} PublishedTwice(blocks: seq<Block>)
    ensures PublishedAll(PublishedAll(blocks)) == PublishedAll(blocks)
  {
    forall i | 0 <= i < |blocks| ensures Published(Published(blocks[i])) == Published(blocks[i]) {
      if blocks[i].CardsBlock? && ValidCards(blocks[i].products) {
        NormalizedIsIdentity(blocks[i].products);
        NormalizedIsIdentity(Normalized(blocks[i].products));
      }
    }
  }

  // ----- One event ---------------------------------------------------------------------------

  /** How a client's turn is related to the stored turn it follows. */
  ghost predicate Shows(client: Turn, stored: Turn) {
    && client.turnId == stored.turnId && client.message == stored.message
    && client.status == stored.status && client.error == stored.error
    && client.lastEventId == stored.lastEventId
    && PublishedAll(client.blocks) == PublishedAll(Merged(stored.blocks))
    && NoAdjacentText(stored.blocks)
  }

  lemma {:induction false} BlocksAfterText(client: seq<Block>, stored: seq<Block>, delta: string)
    requires PublishedAll(client) == PublishedAll(Merged(stored)) && NoAdjacentText(stored)
    ensures PublishedAll(AppendText(client, delta)) == PublishedAll(Merged(AppendText(stored, delta)))
    ensures NoAdjacentText(AppendText(stored, delta))
  {
    MergedAppendText(stored, delta);
    PublishedAppendText(client, delta);
    PublishedAppendText(Merged(stored), delta);
  }

  lemma {:induction false} BlocksAfterCards(client: seq<Block>, stored: seq<Block>, products: seq<Card>)
    requires PublishedAll(client) == PublishedAll(Merged(stored)) && NoAdjacentText(stored)
    ensures PublishedAll(Push(client, ReadableBlock(CardsBlock(products))))
         == PublishedAll(Merged(stored + [CardsBlock(products)]))
    ensures NoAdjacentText(stored + [CardsBlock(products)])
  {
    var b := CardsBlock(products);
    MergedAppendBlock(stored, b);
    if ValidCards(products) {
      PublishedAppendBlock(client, b);
      PublishedAppendBlock(Merged(stored), b);
    } else {
      PublishedAppendText(client, UNREADABLE_CARDS);
      PublishedAppendText(Merged(stored), UNREADABLE_CARDS);
    }
  }

  lemma {:induction false} ShowsStep(client: Turn, stored: Turn, e: Event)
    requires Shows(client, stored) && !e.payload.Finished?
    ensures ReadableEvent(e).Ok?
    ensures Shows(ClientApply(client, ReadableEvent(e).value), ClientApply(stored, e))
  {
    match e.payload
    case Progress(_) =>
    case Delta(delta) => BlocksAfterText(client.blocks, stored.blocks, delta);
    case Cards(products) => BlocksAfterCards(client.blocks, stored.blocks, products);
  }

  /** Whether the client holds every card exactly as published, tracked over one event. */
  lemma {:induction false} TrimmedStep(client: Turn, e: Event)
    requires !e.payload.Finished?
    ensures ReadableEvent(e).Ok?
    ensures var after := ClientApply(client, ReadableEvent(e).value).blocks;
      PublishedAll(after) == after <==> PublishedAll(client.blocks) == client.blocks && CardsTrimmed([e])
  {
    match e.payload
    case Progress(_) =>
    case Delta(delta) => TrimmedText(client.blocks, delta);
    case Cards(products) =>
      if ValidCards(products) {
        NormalizedIsIdentity(products);
        PublishedAppendBlock(client.blocks, CardsBlock(products));
        var after := client.blocks + [CardsBlock(products)];
        assert after[..|client.blocks|] == client.blocks && PublishedAll(after)[..|client.blocks|] == PublishedAll(client.blocks);
        assert after[|client.blocks|] == CardsBlock(products);
        assert CardsTrimmed([e]) <==> CardTrimmed([e][0]);
      } else {
        TrimmedText(client.blocks, UNREADABLE_CARDS);
      }
  }

  lemma {:induction false} TrimmedText(blocks: seq<Block>, delta: string)
    ensures PublishedAll(AppendText(blocks, delta)) == AppendText(blocks, delta) <==> PublishedAll(blocks) == blocks
  {
    PublishedAppendText(blocks, delta);
    var n := |blocks| - 1;
    if n >= 0 && blocks[n].TextBlock? {
      assert AppendText(blocks, delta)[..n] == blocks[..n];
      assert AppendText(PublishedAll(blocks), delta)[..n] == PublishedAll(blocks)[..n];
      assert blocks == blocks[..n] + [blocks[n]] && PublishedAll(blocks) == PublishedAll(blocks)[..n] + [blocks[n]];
    } else {
      assert AppendText(blocks, delta)[..n + 1] == blocks;
      assert AppendText(PublishedAll(blocks), delta)[..n + 1] == PublishedAll(blocks);
    }
  }

  // ----- The whole fold ----------------------------------------------------------------------

  lemma {:induction false} OpenFold(stored: Turn, client: Turn, events: seq<Event>)
    requires Shows(client, stored) && PublishedAll(client.blocks) == client.blocks
    requires client.progress == stored.progress
    requires forall i :: 0 <= i < |events| ==> !events[i].payload.Finished?
    ensures ReadableEvents(events).Ok?
    ensures var c, s := ClientFold(client, ReadableEvents(events).value), ClientFold(stored, events);
      && Shows(c, s)
      && (PublishedAll(c.blocks) == c.blocks <==> CardsTrimmed(events))
      && c.progress == (if NoticeSinceProgress(events) then None else s.progress)
    decreases |events|
  {
    hide Shows, CardsTrimmed, PublishedAll;
    if events != [] {
      var front, e := events[..|events| - 1], events[|events| - 1];
      OpenFold(stored, client, front);
      var shown := ReadableEvents(front).value;
      var c, s := ClientFold(client, shown), ClientFold(stored, front);
      ShowsStep(c, s, e);
      TrimmedStep(c, e);
      assert ReadableEvents(events).value[..|shown|] == shown;
      assert events == front + [e];
      TrimmedConcat(front, e);
    } else {
      NothingTrimmed();
    }
  }

  lemma {:induction false} NothingTrimmed()
    ensures CardsTrimmed([])
  {
  }

  lemma {:induction false} TrimmedConcat(front: seq<Event>, e: Event)
    ensures CardsTrimmed(front + [e]) <==> CardsTrimmed(front) && CardsTrimmed([e])
  {
    var events := front + [e];
    assert CardsTrimmed([e]) ==> CardTrimmed([e][0]);
    assert events[|front|] == e;
    assert forall i :: 0 <= i < |front| ==> front[i] == events[i];
  }

  lemma {:induction false} SnapshotShows(stored: Turn)
    requires NoAdjacentText(stored.blocks) && ReadableTurn(stored).Ok?
    ensures Shows(ReadableTurn(stored).value, stored)
    ensures PublishedAll(ReadableTurn(stored).value.blocks) == ReadableTurn(stored).value.blocks
    ensures ReadableTurn(stored).value.blocks == PublishedAll(Merged(stored.blocks))
    ensures ReadableTurn(stored).value.progress == stored.progress
  {
    ProjectedIsMerged(stored.blocks);
    PublishedTwice(ProjectedBlocks(stored.blocks));
  }

  /**
   From any snapshot without adjacent text blocks and over any mixture of text, valid cards and
   invalid cards: the client's fold has the status, error and event number of the projected
   final state. It has the same blocks exactly when the readable cards it received were stored
   trimmed or a closing event replaced them, and the same progress message exactly when no
   notice arrived after a progress message that is still in force.
   */
  lemma {:induction false} ProjectionCommutesWithFolding(stored: Turn, events: seq<Event>)
    requires NoAdjacentText(stored.blocks) && ReadableTurn(stored).Ok?
    requires ClosedOnlyLast(events)
    requires Closed(events) ==> events[|events| - 1].payload.turn.lastEventId == events[|events| - 1].id
    requires ReadableTurn(ClientFold(stored, events)).Ok?
    ensures ReadableEvents(events).Ok?
    ensures var c := ClientFold(ReadableTurn(stored).value, ReadableEvents(events).value);
            var q := ReadableTurn(ClientFold(stored, events)).value;
      && c.turnId == q.turnId && c.message == q.message
      && c.status == q.status && c.error == q.error && c.lastEventId == q.lastEventId
      && (c.blocks == q.blocks <==> Closed(events) || CardsTrimmed(events))
      && (c.progress == q.progress <==> q.progress.None? || !NoticeSinceProgress(events))
  {
    hide ReadableTurn;
    if Closed(events) {
      ClosedCase(stored, events);
    } else {
      OpenCase(stored, events);
    }
  }

  lemma {:induction false} ClosedCase(stored: Turn, events: seq<Event>)
    requires NoAdjacentText(stored.blocks) && ReadableTurn(stored).Ok?
    requires ClosedOnlyLast(events) && Closed(events)
    requires events[|events| - 1].payload.turn.lastEventId == events[|events| - 1].id
    requires ReadableTurn(ClientFold(stored, events)).Ok?
    ensures ReadableEvents(events).Ok?
    ensures ClientFold(ReadableTurn(stored).value, ReadableEvents(events).value) == ReadableTurn(ClientFold(stored, events)).value
  {
    SnapshotShows(stored);
    var front, e := events[..|events| - 1], events[|events| - 1];
    assert forall i :: 0 <= i < |front| ==> front[i] == events[i];
    OpenFold(stored, ReadableTurn(stored).value, front);
    assert ClientFold(stored, events) == e.payload.turn;
    ReadableLength(front);
  }

  lemma {:induction false} OpenCase(stored: Turn, events: seq<Event>)
    requires NoAdjacentText(stored.blocks) && ReadableTurn(stored).Ok?
    requires ClosedOnlyLast(events) && !Closed(events)
    requires ReadableTurn(ClientFold(stored, events)).Ok?
    ensures ReadableEvents(events).Ok?
    ensures var c := ClientFold(ReadableTurn(stored).value, ReadableEvents(events).value);
            var q := ReadableTurn(ClientFold(stored, events)).value;
      && c.turnId == q.turnId && c.message == q.message
      && c.status == q.status && c.error == q.error && c.lastEventId == q.lastEventId
      && (c.blocks == q.blocks <==> CardsTrimmed(events))
      && (c.progress == q.progress <==> q.progress.None? || !NoticeSinceProgress(events))
  {
    SnapshotShows(stored);
    assert forall i :: 0 <= i < |events| ==> !events[i].payload.Finished?;
    OpenFold(stored, ReadableTurn(stored).value, events);
    SnapshotShows(ClientFold(stored, events));
  }

  lemma {:induction false} ReadableLength(events: seq<Event>)
    requires ReadableEvents(events).Ok?
    ensures |ReadableEvents(events).value| == |events|
    ensures forall i :: 0 <= i < |events| ==> ReadableEvent(events[i]) == Ok(ReadableEvents(events).value[i])
    ensures forall i :: 0 <= i < |events| ==> ReadableEvents(events).value[i].id == events[i].id
  {
    if events != [] {
      ReadableLength(events[..|events| - 1]);
    }
  }

  /** Folding from admission never leaves two text blocks side by side. */
  lemma {:induction false} FoldsHaveNoAdjacentText(turnId: nat, message: string, events: seq<Event>)
    requires ClosedOnlyLast(events) && !Closed(events)
    ensures NoAdjacentText(ClientFold(Admitted(turnId, message), events).blocks)
  {
    if events != [] {
      var front := events[..|events| - 1];
      assert !Closed(front) by {
        if front != [] {
          assert front[|front| - 1] == events[|front| - 1];
        }
      }
      assert ClosedOnlyLast(front);
      FoldsHaveNoAdjacentText(turnId, message, front);
    }
  }

  /**
   A client may take its snapshot after any number of events: with the projected rest of the
   log it reaches the projection of the stored state.
   */
  lemma {:induction false} AnySnapshotReachesTheProjectedState(turn: Turn, events: seq<Event>, k: nat, snapshot: Turn)
    requires Consistent(turn, events) && k < |events| && CardsTrimmed(events)
    requires snapshot == ClientFold(Admitted(turn.turnId, turn.message), events[..k])
    requires ReadableTurn(snapshot).Ok? && ReadableTurn(turn).Ok?
    ensures ReadableEvents(events[k..]).Ok?
    ensures var c := ClientFold(ReadableTurn(snapshot).value, ReadableEvents(events[k..]).value);
            var q := ReadableTurn(turn).value;
      c.blocks == q.blocks && c.status == q.status && c.error == q.error && c.lastEventId == q.lastEventId
  {
    OpenPrefix(turn.turnId, turn.message, events, k);
    ProjectionCommutesWithFolding(snapshot, events[k..]);
  }

  lemma {:induction false} OpenPrefix(turnId: nat, message: string, events: seq<Event>, k: nat)
    requires ClosedOnlyLast(events) && k < |events|
    ensures var start, rest := Admitted(turnId, message), events[k..];
      && ClientFold(start, events) == ClientFold(ClientFold(start, events[..k]), rest)
      && NoAdjacentText(ClientFold(start, events[..k]).blocks)
      && ClosedOnlyLast(rest) && (Closed(rest) <==> Closed(events))
      && rest[|rest| - 1] == events[|events| - 1]
      && (CardsTrimmed(events) ==> CardsTrimmed(rest))
  {
    var before, rest := events[..k], events[k..];
    assert before + rest == events;
    ClientFoldConcat(Admitted(turnId, message), before, rest);
    assert forall i :: 0 <= i < |rest| ==> rest[i] == events[k + i];
    assert forall i :: 0 <= i < |before| ==> before[i] == events[i];
    FoldsHaveNoAdjacentText(turnId, message, before);
  }

  /** A valid card whose stored reason still carries a leading space. */
  const PADDED_CARDS := [Card(1, " a")]

  /** The blocks differ when a readable card was stored untrimmed. */
  lemma {:induction false} UntrimmedCardsDiverge(turnId: nat)
    ensures var start, e := Admitted(turnId, ""), Event(1, Cards(PADDED_CARDS));
      && ReadableEvent(e) == Ok(e) && ReadableTurn(start) == Ok(start)
      && ReadableTurn(ClientApply(start, e)).Ok?
      && ClientApply(start, e).blocks != ReadableTurn(ClientApply(start, e)).value.blocks
  {
    assert StripLeft(" a") == "a" by { assert " a"[1..] == "a"; }
    assert Strip(" a") == "a";
    var start, e := Admitted(turnId, ""), Event(1, Cards(PADDED_CARDS));
    assert ValidCards(PADDED_CARDS);
    assert Normalized(PADDED_CARDS)[0] == Card(1, "a");
    var after := ClientApply(start, e);
    assert after.blocks == [CardsBlock(PADDED_CARDS)];
    assert !HasInvalidCards(after.blocks);
    assert PublishedAll(after.blocks)[0] == CardsBlock(Normalized(PADDED_CARDS));
  }

  lemma {:induction false} NoticeIsClean()
    ensures Clean(UNREADABLE_CARDS)
  {
    assert '\0' !in CARDS_NOT_SHOWN;
    assert '\0' !in RECORD_UNCHANGED;
  }

  /** The progress message differs when a notice follows it. */
  lemma {:induction false} NoticeClearsProgress(turnId: nat)
    ensures var stored := Admitted(turnId, "").(progress := Some("p"));
            var e := Event(1, Cards([]));
      && ReadableTurn(stored) == Ok(stored) && ReadableEvent(e).Ok? && ReadableTurn(ClientApply(stored, e)).Ok?
      && ClientApply(stored, ReadableEvent(e).value).progress == None
      && ReadableTurn(ClientApply(stored, e)).value.progress == Some("p")
  {
    var stored, e := Admitted(turnId, "").(progress := Some("p")), Event(1, Cards([]));
    var after := ClientApply(stored, e);
    assert after.blocks == [CardsBlock([])];
    assert HasInvalidCards(after.blocks) by { assert after.blocks[0].CardsBlock?; }
    assert after.blocks[..0] == [];
    var notice := UNREADABLE_CARDS;
    assert Merged(after.blocks) == [TextBlock(notice)];
    NoticeIsClean();
    assert Acceptable(after.(blocks := [TextBlock(notice)]));
  }
}
