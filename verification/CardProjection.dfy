/**
 The read projection of stored turns and events: an invalid stored cards payload is shown as a
 notice, in the state as text and in the event stream as a text delta.
 */
module CardProjection {
  import opened Outcomes
  import opened PythonText
  import opened TurnLog

  const CARDS_NOT_SHOWN := "저장된 상품 카드가 표시 형식과 맞지 않아 표시하지 못했어요. "
  const RECORD_UNCHANGED := "원본 기록은 변경하지 않았습니다."
  const UNREADABLE_CARDS := "\n\n" + CARDS_NOT_SHOWN + RECORD_UNCHANGED + "\n\n"

  datatype Unreadable = Unreadable

  function ReadableBlock(b: Block): Block {
    if b.CardsBlock? && !ValidCards(b.products) then TextBlock(UNREADABLE_CARDS) else b
  }

  predicate HasInvalidCards(blocks: seq<Block>) {
    exists i :: 0 <= i < |blocks| && blocks[i].CardsBlock? && !ValidCards(blocks[i].products)
  }

  /** One step of the merging loop: a text block joins the text block before it. */
  function Push(merged: seq<Block>, b: Block): seq<Block> {
    if b.TextBlock? then AppendText(merged, b.text) else merged + [b]
  }

  function Merged(blocks: seq<Block>): seq<Block> {
    if blocks == [] then [] else Push(Merged(blocks[..|blocks| - 1]), ReadableBlock(blocks[|blocks| - 1]))
  }

  /** Blocks are merged only when a notice was inserted. */
  function ProjectedBlocks(blocks: seq<Block>): seq<Block> {
    if HasInvalidCards(blocks) then Merged(blocks) else blocks
  }

  predicate Clean(s: string) {
    '\0' !in s
  }

  /** The public Turn model accepts the projected state. */
  predicate Acceptable(t: Turn) {
    && (t.status.Failed? <==> t.error.Some?)
    && (!t.status.Processing? ==> t.progress.None?)
    && AtMostOneCards(t.blocks)
    && Clean(t.message)
    && (t.progress.Some? ==> Clean(t.progress.value))
    && (t.error.Some? ==> Clean(t.error.value))
    && (forall i :: 0 <= i < |t.blocks| && t.blocks[i].TextBlock? ==> Clean(t.blocks[i].text))
  }

  /** Serialising an accepted block trims the reasons of its cards. */
  function Published(b: Block): Block {
    if b.CardsBlock? && ValidCards(b.products) then CardsBlock(Normalized(b.products)) else b
  }

  function PublishedAll(blocks: seq<Block>): (r: seq<Block>)
    ensures |r| == |blocks|
  {
    seq(|blocks|, i requires 0 <= i < |blocks| => Published(blocks[i]))
  }

  function ReadableTurn(t: Turn): Result<Turn, Unreadable> {
    var shown := t.(blocks := ProjectedBlocks(t.blocks));
    if Acceptable(shown) then Ok(shown.(blocks := PublishedAll(shown.blocks))) else Err(Unreadable)
  }

  /** The first loop of the projection: notices in place of unreadable cards. */
  method ReplaceInvalid(stored: seq<Block>) returns (blocks: seq<Block>, hasInvalid: bool)
    ensures |blocks| == |stored| && forall j :: 0 <= j < |stored| ==> blocks[j] == ReadableBlock(stored[j])
    ensures hasInvalid <==> HasInvalidCards(stored)
  {
    blocks, hasInvalid := [], false;
    for i := 0 to |stored|
      invariant |blocks| == i
      invariant forall j :: 0 <= j < i ==> blocks[j] == ReadableBlock(stored[j])
      invariant hasInvalid <==> exists j :: 0 <= j < i && stored[j].CardsBlock? && !ValidCards(stored[j].products)
    {
      var b := stored[i];
      if b.CardsBlock? && !ValidCards(b.products) {
        b := TextBlock(UNREADABLE_CARDS);
        hasInvalid := true;
      }
      blocks := blocks + [b];
    }
  }

  /** The second loop: text joins the text before it. */
  method MergeBlocks(stored: seq<Block>, blocks: seq<Block>) returns (merged: seq<Block>)
    requires |blocks| == |stored| && forall j :: 0 <= j < |stored| ==> blocks[j] == ReadableBlock(stored[j])
    ensures merged == Merged(stored)
  {
    merged := [];
    for i := 0 to |blocks|
      invariant merged == Merged(stored[..i])
    {
      assert stored[..i + 1][..i] == stored[..i];
      var b := blocks[i];
      var n := |merged|;
      if n > 0 && merged[n - 1].TextBlock? && b.TextBlock? {
        merged := merged[..n - 1] + [TextBlock(merged[n - 1].text + b.text)];
      } else {
        merged := merged + [b];
      }
    }
    assert stored[..|blocks|] == stored;
  }

  method ProjectTurn(t: Turn) returns (r: Result<Turn, Unreadable>)
    ensures r == ReadableTurn(t)
  {
    var blocks, hasInvalid := ReplaceInvalid(t.blocks);
    if hasInvalid {
      blocks := MergeBlocks(t.blocks, blocks);
    } else {
      assert blocks == t.blocks;
    }
    var shown := t.(blocks := blocks);
    if !Acceptable(shown) {
      return Err(Unreadable);
    }
    return Ok(shown.(blocks := PublishedAll(blocks)));
  }

  /** The projection of one stored event; only a closing event can fail to project. */
  function ReadableEvent(e: Event): Result<Event, Unreadable> {
    match e.payload
    case Cards(products) =>
      if ValidCards(products) then Ok(e) else Ok(Event(e.id, Delta(UNREADABLE_CARDS)))
    case Finished(turn) =>
      if ReadableTurn(turn).Ok? then Ok(Event(e.id, Finished(ReadableTurn(turn).value))) else Err(Unreadable)
    case _ => Ok(e)
  }

  /** The projection of a batch, all or nothing. */
  function ReadableEvents(events: seq<Event>): Result<seq<Event>, Unreadable> {
    if events == [] then Ok([])
    else
      var front, last := ReadableEvents(events[..|events| - 1]), ReadableEvent(events[|events| - 1]);
      if front.Ok? && last.Ok? then Ok(front.value + [last.value]) else Err(Unreadable)
  }

  method ProjectReplay(batch: seq<Event>, state: Turn) returns (r: Result<(seq<Event>, Turn), Unreadable>)
    ensures r == if ReadableEvents(batch).Ok? && ReadableTurn(state).Ok?
                 then Ok((ReadableEvents(batch).value, ReadableTurn(state).value)) else Err(Unreadable)
  {
    var events: seq<Event> := [];
    for i := 0 to |batch|
      invariant ReadableEvents(batch[..i]) == Ok(events)
    {
      assert batch[..i + 1][..i] == batch[..i];
      var e := batch[i];
      match e.payload {
        case Cards(products) =>
          if !ValidCards(products) {
            e := Event(e.id, Delta(UNREADABLE_CARDS));
          }
        case Finished(turn) =>
          var shown := ProjectTurn(turn);
          if shown.Err? {
            UnreadablePrefix(batch, i + 1);
            return Err(Unreadable);
          }
          e := Event(e.id, Finished(shown.value));
        case _ =>
      }
      events := events + [e];
    }
    assert batch[..|batch|] == batch;
    var shown := ProjectTurn(state);
    if shown.Err? {
      return Err(Unreadable);
    }
    return Ok((events, shown.value));
  }

  lemma {:induction false} UnreadablePrefix(events: seq<Event>, n: nat)
    requires n <= |events| && ReadableEvents(events[..n]).Err?
    ensures ReadableEvents(events).Err?
    decreases |events|
  {
    if n < |events| {
      assert events[..|events| - 1][..n] == events[..n];
      UnreadablePrefix(events[..|events| - 1], n);
    } else {
      assert events[..n] == events;
    }
  }
}
