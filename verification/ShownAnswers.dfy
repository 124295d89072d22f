/** What a reader of a turn is shown: of its stored state, and of the events it follows. */
module ShownAnswers {
  import opened Outcomes
  import opened PythonText
  import opened TurnLog
  import opened TurnStore
  import opened CardProjection
  import opened StoredAnswers

  // ----- The stored state --------------------------------------------------------------------

  /** The text of the stored blocks with the notice in place of each unreadable cards block. */
  function TextToShow(blocks: seq<Block>): string {
    if blocks == [] then ""
    else
      var last := blocks[|blocks| - 1];
      TextToShow(blocks[..|blocks| - 1])
      + if last.TextBlock? then last.text else if ValidCards(last.products) then "" else UNREADABLE_CARDS
  }

  /** The readable product lists among the stored blocks. */
  function CardsToShow(blocks: seq<Block>): seq<seq<Card>> {
    if blocks == [] then []
    else
      var last := blocks[|blocks| - 1];
      CardsToShow(blocks[..|blocks| - 1]) + if last.CardsBlock? && ValidCards(last.products) then [last.products] else []
  }

  lemma {:induction false} MergedContents(blocks: seq<Block>)
    ensures TextOf(Merged(blocks)) == TextToShow(blocks) && CardsOf(Merged(blocks)) == CardsToShow(blocks)
  {
    hide TextOf, CardsOf;
    if blocks == [] {
      NothingSent();
    } else {
      var front, last := Merged(blocks[..|blocks| - 1]), ReadableBlock(blocks[|blocks| - 1]);
      MergedContents(blocks[..|blocks| - 1]);
      if last.TextBlock? {
        AppendedContents(front, last.text);
      } else {
        ContentsGrow(front, last);
      }
    }
  }

  lemma {:induction false} ReadableContents(blocks: seq<Block>)
    requires !HasInvalidCards(blocks)
    ensures TextOf(blocks) == TextToShow(blocks) && CardsOf(blocks) == CardsToShow(blocks)
  {
    if blocks != [] {
      var front := blocks[..|blocks| - 1];
      assert forall i :: 0 <= i < |front| ==> front[i] == blocks[i];
      ReadableContents(front);
    }
  }

  /** Publishing keeps the text and trims the cards that are readable. */
  lemma {:induction false} PublishedContents(blocks: seq<Block>)
    requires !HasInvalidCards(blocks)
    ensures TextOf(PublishedAll(blocks)) == TextOf(blocks) && AllTrimmed(CardsOf(blocks), CardsOf(PublishedAll(blocks)))
  {
    if blocks != [] {
      var front, last := blocks[..|blocks| - 1], blocks[|blocks| - 1];
      assert forall i :: 0 <= i < |front| ==> front[i] == blocks[i];
      PublishedContents(front);
      assert PublishedAll(blocks)[..|blocks| - 1] == PublishedAll(front);
      if last.CardsBlock? {
        assert ValidCards(last.products);
      }
    }
  }

  lemma {:induction false} MergedIsReadable(blocks: seq<Block>)
    ensures !HasInvalidCards(Merged(blocks))
  {
    if blocks != [] {
      MergedIsReadable(blocks[..|blocks| - 1]);
    }
  }

  /**
   The readable form of a stored turn: the same text in order, with the notice where an unreadable
   cards block stood, the readable cards in order and trimmed, and everything else as stored.
   */
  lemma {:induction false} ShownTurnHasTheStoredContents(t: Turn)
    requires ReadableTurn(t).Ok?
    ensures var shown := ReadableTurn(t).value;
      && shown == t.(blocks := shown.blocks)
      && TextOf(shown.blocks) == TextToShow(t.blocks) && AllTrimmed(CardsToShow(t.blocks), CardsOf(shown.blocks))
  {
    hide TextOf, CardsOf, Acceptable, AllTrimmed, TextToShow, CardsToShow;
    var blocks := ProjectedBlocks(t.blocks);
    if HasInvalidCards(t.blocks) {
      MergedContents(t.blocks);
      MergedIsReadable(t.blocks);
    } else {
      ReadableContents(t.blocks);
    }
    PublishedContents(blocks);
  }

  lemma {:induction false} CardsAreCounted(blocks: seq<Block>)
    ensures |CardsOf(blocks)| == 0 <==> forall i :: 0 <= i < |blocks| ==> blocks[i].TextBlock?
    ensures |CardsOf(blocks)| <= 1 <==> AtMostOneCards(blocks)
  {
    if blocks != [] {
      var front := blocks[..|blocks| - 1];
      CardsAreCounted(front);
      assert forall i :: 0 <= i < |front| ==> front[i] == blocks[i];
    }
  }

  predicate CleanTexts(blocks: seq<Block>) {
    forall i :: 0 <= i < |blocks| && blocks[i].TextBlock? ==> Clean(blocks[i].text)
  }

  lemma {:induction false} TextsAreClean(blocks: seq<Block>)
    ensures CleanTexts(blocks) <==> Clean(TextOf(blocks))
  {
    if blocks != [] {
      var front, last := blocks[..|blocks| - 1], blocks[|blocks| - 1];
      TextsAreClean(front);
      assert forall i :: 0 <= i < |front| ==> front[i] == blocks[i];
      assert Clean(TextOf(blocks)) <==> Clean(TextOf(front)) && (last.TextBlock? ==> Clean(last.text));
    }
  }

  /**
   A stored turn is readable exactly when it failed with an error or did not and has none, a finished
   one shows no progress, there is one readable cards block at most, and no text holds a NUL.
   */
  lemma {:induction false} WhenATurnIsReadable(t: Turn)
    ensures ReadableTurn(t).Ok? <==>
              && (t.status == Failed <==> t.error.Some?) && (t.status != Processing ==> t.progress.None?)
              && |CardsToShow(t.blocks)| <= 1 && Clean(TextToShow(t.blocks)) && Clean(t.message)
              && (t.progress.Some? ==> Clean(t.progress.value)) && (t.error.Some? ==> Clean(t.error.value))
  {
    hide TextOf, CardsOf, TextToShow, CardsToShow, Clean, AtMostOneCards, PublishedAll;
    var blocks := ProjectedBlocks(t.blocks);
    if HasInvalidCards(t.blocks) {
      MergedContents(t.blocks);
    } else {
      ReadableContents(t.blocks);
    }
    CardsAreCounted(blocks);
    TextsAreClean(blocks);
  }

  // ----- The events --------------------------------------------------------------------------

  /** The deltas of a log, in order. */
  function DeltasOf(events: seq<Event>): string {
    if events == [] then ""
    else
      var last := events[|events| - 1].payload;
      DeltasOf(events[..|events| - 1]) + if last.Delta? then last.delta else ""
  }

  function CardsEvents(events: seq<Event>): seq<seq<Card>> {
    if events == [] then []
    else
      var last := events[|events| - 1].payload;
      CardsEvents(events[..|events| - 1]) + if last.Cards? then [last.products] else []
  }

  function LastProgress(events: seq<Event>): Option<string> {
    if events == [] then None
    else
      match events[|events| - 1].payload
      case Progress(message) => Some(message)
      case Delta(_) => None
      case _ => LastProgress(events[..|events| - 1])
  }

  /** A client that follows the events of an open turn shows their deltas and cards in order, and the progress since the last delta. */
  lemma {:induction false} FollowedEventsAreShown(turnId: nat, message: string, events: seq<Event>)
    requires forall k :: 0 <= k < |events| ==> !events[k].payload.Finished?
    ensures var t := ClientFold(Admitted(turnId, message), events);
      && TextOf(t.blocks) == DeltasOf(events) && CardsOf(t.blocks) == CardsEvents(events) && t.progress == LastProgress(events)
      && t.turnId == turnId && t.message == message && t.status == Processing && t.error == None
  {
    hide TextOf, CardsOf;
    if events == [] {
      NothingSent();
    } else {
      var front, last := events[..|events| - 1], events[|events| - 1].payload;
      assert forall k :: 0 <= k < |front| ==> front[k] == events[k];
      FollowedEventsAreShown(turnId, message, front);
      var before := ClientFold(Admitted(turnId, message), front).blocks;
      if last.Delta? {
        AppendedContents(before, last.delta);
      } else if last.Cards? {
        ContentsGrow(before, CardsBlock(last.products));
      }
    }
  }

  /** A client that receives the closing event shows its state. */
  lemma {:induction false} ClosingEventIsShown(start: Turn, events: seq<Event>)
    requires Closed(events)
    ensures var final := events[|events| - 1]; ClientFold(start, events) == final.payload.turn.(lastEventId := final.id)
  {
  }
}
