/**
 One chat turn: its stored state, its append-only event list, and the fold a client
 applies to the events. Every participant (the store, the readable projection and the
 integration client) speaks about these values.
 */
module TurnLog {
  import opened Outcomes
  import opened PythonText

  const MAX_CARD_REASON_LENGTH := 200
  const MAX_CARD_PRODUCTS := 3
  const MAX_SAFE_INTEGER := 9007199254740991

  /** A product reference of a stored cards payload; older rows may hold any other JSON value. */
  datatype Card = Card(productId: int, reason: string) | Malformed(raw: string)

  datatype Block = TextBlock(text: string) | CardsBlock(products: seq<Card>)

  datatype Status = Processing | Completed | Cancelled | Failed

  datatype Turn = Turn(
    turnId: nat,
    message: string,
    status: Status,
    progress: Option<string>,
    blocks: seq<Block>,
    error: Option<string>,
    lastEventId: nat)

  datatype Payload =
    | Progress(message: string)
    | Delta(delta: string)
    | Cards(products: seq<Card>)
    | Finished(turn: Turn)

  datatype Event = Event(id: nat, payload: Payload)

  /** The state a turn is inserted with. */
  function Admitted(turnId: nat, message: string): Turn {
    Turn(turnId, message, Processing, None, [], None, 0)
  }

  /** Text joins a trailing text block; anything else opens a new one. */
  function AppendText(blocks: seq<Block>, delta: string): seq<Block> {
    if blocks != [] && blocks[|blocks| - 1].TextBlock?
    then blocks[..|blocks| - 1] + [TextBlock(blocks[|blocks| - 1].text + delta)]
    else blocks + [TextBlock(delta)]
  }

  /** What a client does with one event. */
  function ClientApply(turn: Turn, e: Event): Turn {
    (match e.payload
     case Progress(message) => turn.(progress := Some(message))
     case Delta(delta) => turn.(progress := None, blocks := AppendText(turn.blocks, delta))
     case Cards(products) => turn.(blocks := turn.blocks + [CardsBlock(products)])
     case Finished(final) => final).(lastEventId := e.id)
  }

  function ClientFold(turn: Turn, events: seq<Event>): Turn {
    if events == [] then turn
    else ClientApply(ClientFold(turn, events[..|events| - 1]), events[|events| - 1])
  }

  lemma {:induction false} ClientFoldConcat(turn: Turn, first: seq<Event>, second: seq<Event>)
    ensures ClientFold(turn, first + second) == ClientFold(ClientFold(turn, first), second)
    decreases |second|
  {
    if second == [] {
      assert first + second == first;
    } else {
      var n := |second| - 1;
      assert (first + second)[..|first| + n] == first + second[..n];
      ClientFoldConcat(turn, first, second[..n]);
    }
  }

  /** Events numbered 1, 2, 3, ... without a gap. */
  predicate Numbered(events: seq<Event>) {
    forall i :: 0 <= i < |events| ==> events[i].id == i + 1
  }

  /** No event closes the turn except, possibly, the last one. */
  predicate ClosedOnlyLast(events: seq<Event>) {
    forall i :: 0 <= i < |events| - 1 ==> !events[i].payload.Finished?
  }

  predicate Closed(events: seq<Event>) {
    events != [] && events[|events| - 1].payload.Finished?
  }

  /** A stored state and its event list tell the same story. */
  predicate Consistent(turn: Turn, events: seq<Event>) {
    && turn.lastEventId == |events|
    && Numbered(events)
    && ClosedOnlyLast(events)
    && turn == ClientFold(Admitted(turn.turnId, turn.message), events)
    && (turn.status.Processing? <==> !Closed(events))
    && (turn.status.Failed? <==> turn.error.Some?)
    && (!turn.status.Processing? ==> turn.progress.None?)
    && (Closed(events) ==> events[|events| - 1].payload.turn == turn)
  }

  /** One more event, unless the turn is already closed. */
  lemma {:induction false} ConsistentStep(turn: Turn, events: seq<Event>, next: Turn, payload: Payload)
    requires Consistent(turn, events) && turn.status.Processing?
    requires next == ClientApply(turn, Event(turn.lastEventId + 1, payload))
    requires payload.Finished? ==>
      && payload.turn == next && next.turnId == turn.turnId && next.message == turn.message
      && !next.status.Processing? && next.progress.None? && (next.status.Failed? <==> next.error.Some?)
    ensures Consistent(next, events + [Event(turn.lastEventId + 1, payload)])
  {
    var more := events + [Event(turn.lastEventId + 1, payload)];
    assert more[..|events|] == events;
  }

  /** Whether a cards payload passes the public card contract, once its reasons are trimmed. */
  predicate ValidCard(card: Card) {
    && card.Card?
    && 1 <= card.productId <= MAX_SAFE_INTEGER
    && 1 <= |Strip(card.reason)| <= MAX_CARD_REASON_LENGTH
    && '\0' !in card.reason
  }

  predicate ValidCards(products: seq<Card>) {
    && 1 <= |products| <= MAX_CARD_PRODUCTS
    && (forall i :: 0 <= i < |products| ==> ValidCard(products[i]))
    && (forall i, j :: 0 <= i < j < |products| ==> products[i].productId != products[j].productId)
  }

  /** The validated payload: the same products with their reasons trimmed. */
  function Normalized(products: seq<Card>): (r: seq<Card>)
    requires ValidCards(products)
    ensures |r| == |products|
  {
    seq(|products|, i requires 0 <= i < |products| => Card(products[i].productId, Strip(products[i].reason)))
  }

  predicate TrimmedCards(products: seq<Card>) {
    forall i :: 0 <= i < |products| && products[i].Card? ==> Trimmed(products[i].reason)
  }

  /** Trimming loses nothing exactly when every reason was trimmed already. */
  lemma {:induction false} NormalizedIsIdentity(products: seq<Card>)
    requires ValidCards(products)
    ensures Normalized(products) == products <==> TrimmedCards(products)
    ensures ValidCards(Normalized(products)) && TrimmedCards(Normalized(products))
  {
    forall i | 0 <= i < |products|
      ensures Strip(products[i].reason) == products[i].reason <==> Trimmed(products[i].reason)
      ensures ValidCard(Normalized(products)[i])
      ensures Trimmed(Strip(products[i].reason))
    {
      StripTrims(products[i].reason);
      StripTrims(Strip(products[i].reason));
      StripKeepsClean(products[i].reason);
    }
    if Normalized(products) == products {
      forall i | 0 <= i < |products| ensures Trimmed(products[i].reason) {
        assert Normalized(products)[i] == products[i];
      }
    } else if TrimmedCards(products) {
      forall i | 0 <= i < |products| ensures Normalized(products)[i] == products[i] {
        assert products[i].Card?;
      }
    }
  }

  lemma {:induction false} StripKeepsClean(s: string)
    requires '\0' !in s
    ensures '\0' !in Strip(s)
  {
    StripLeftKeeps(s);
    StripRightShape(StripLeft(s));
  }

  lemma {:induction false} StripLeftKeeps(s: string)
    ensures forall c :: c in StripLeft(s) ==> c in s
  {
    if s != "" && IsSpace(s[0]) {
      StripLeftKeeps(s[1..]);
    }
  }

  predicate AtMostOneCards(blocks: seq<Block>) {
    forall i, j :: 0 <= i < j < |blocks| ==> !(blocks[i].CardsBlock? && blocks[j].CardsBlock?)
  }

  /** Blocks as the store writes them: one cards block at most, valid and already trimmed. */
  predicate PublicBlocks(blocks: seq<Block>) {
    && AtMostOneCards(blocks)
    && forall i :: 0 <= i < |blocks| && blocks[i].CardsBlock? ==> ValidCards(blocks[i].products) && TrimmedCards(blocks[i].products)
  }

  predicate HasCards(blocks: seq<Block>) {
    exists i :: 0 <= i < |blocks| && blocks[i].CardsBlock?
  }

  /** An event list as the store writes it: one cards event at most, valid and already trimmed. */
  predicate PublicEvents(events: seq<Event>) {
    && (forall i :: 0 <= i < |events| ==> PublicEvent(events[i]))
    && (forall i, j :: 0 <= i < j < |events| ==> !(events[i].payload.Cards? && events[j].payload.Cards?))
  }

  predicate PublicEvent(e: Event) {
    e.payload.Cards? ==> ValidCards(e.payload.products) && TrimmedCards(e.payload.products)
  }
}
