/** What the emissions of a turn leave behind: its text, its cards, its status, and the event of each. */
module StoredAnswers {
  import opened Outcomes
  import opened PythonText
  import opened TurnLog
  import opened TurnStore

  /** All the text of an answer, in order. */
  function TextOf(blocks: seq<Block>): string {
    if blocks == [] then ""
    else
      var last := blocks[|blocks| - 1];
      TextOf(blocks[..|blocks| - 1]) + if last.TextBlock? then last.text else ""
  }

  /** The product lists of an answer, in order. */
  function CardsOf(blocks: seq<Block>): seq<seq<Card>> {
    if blocks == [] then []
    else
      var last := blocks[|blocks| - 1];
      CardsOf(blocks[..|blocks| - 1]) + if last.CardsBlock? then [last.products] else []
  }

  /** The same products, each with its reason trimmed. */
  predicate AreTrimmed(given: seq<Card>, kept: seq<Card>) {
    && |kept| == |given|
    && forall i :: 0 <= i < |given| ==>
         given[i].Card? && kept[i].Card? && kept[i].productId == given[i].productId && kept[i].reason == Strip(given[i].reason)
  }

  lemma {:induction false} ContentsGrow(blocks: seq<Block>, block: Block)
    ensures TextOf(blocks + [block]) == TextOf(blocks) + if block.TextBlock? then block.text else ""
    ensures CardsOf(blocks + [block]) == CardsOf(blocks) + if block.CardsBlock? then [block.products] else []
  {
    assert (blocks + [block])[..|blocks|] == blocks;
  }

  lemma {:induction false} AppendedContents(blocks: seq<Block>, delta: string)
    ensures TextOf(AppendText(blocks, delta)) == TextOf(blocks) + delta
    ensures CardsOf(AppendText(blocks, delta)) == CardsOf(blocks)
  {
    if blocks != [] && blocks[|blocks| - 1].TextBlock? {
      var front := blocks[..|blocks| - 1];
      ContentsGrow(front, TextBlock(blocks[|blocks| - 1].text + delta));
    } else {
      ContentsGrow(blocks, TextBlock(delta));
    }
  }

  // ----- Lease and admission -----------------------------------------------------------------

  /** The column is taken or renewed exactly by its holder, or from the expected holder unless a claim finds it live. */
  lemma {:induction false} WhenARotationIsAnswered(db: Db, expected: Option<Owner>, next: Owner, claim: bool, now: int)
    ensures var (d, ok) := Rotated(db, expected, next, claim, now);
      && (ok <==>
            || (db.lease.Some? && db.lease.value.owner == next)
            || ((if db.lease.None? then expected == None else expected == Some(db.lease.value.owner))
                && (claim ==> db.lease.None? || db.lease.value.expires <= now)))
      && (ok ==> d.lease == Some(Lease(next, now + 40)))
      && (!ok ==> d == db)
      && d.conversations == db.conversations && d.paused == db.paused && d.rows.Keys == db.rows.Keys
  {
  }

  /** A release takes the column from its holder only: an expired tombstone stands in it then, and no turn is closed. */
  lemma {:induction false} WhenALeaseIsReleased(db: Db, owner: Owner, tombstone: Owner, now: int)
    ensures var d := Released(db, owner, tombstone, now);
      if db.lease.Some? && db.lease.value.owner == owner then d == db.(lease := Some(Lease(tombstone, now))) else d == db
  {
  }

  /** A replay answers with the state and every event after the cursor, and refuses a cursor outside the log. */
  lemma {:induction false} WhatAReplayAnswers(db: Db, conversation: nat, tid: nat, after: int)
    requires tid in db.rows ==> SoundRow(tid, db.rows[tid])
    ensures Replayed(db, conversation, tid, after)
            == if tid !in db.rows || db.rows[tid].request.conversation != conversation then Err(UnknownTurn)
               else if 0 <= after <= |db.rows[tid].events| then Ok((db.rows[tid].events[after..], db.rows[tid].turn))
               else Err(CursorOutOfRange)
  {
    hide PublicEvents, PublicBlocks;
    if tid in db.rows && 0 <= after <= |db.rows[tid].events| {
      ReplayIsSuffix(db.rows[tid].events, 0, after);
    }
  }

  /** No turn of this conversation is open. */
  predicate IsFree(rows: map<nat, Row>, conversation: nat) {
    forall t :: t in rows && rows[t].request.conversation == conversation ==> rows[t].turn.status != Processing
  }

  predicate NamesRecipient(db: Db, request: Request) {
    && request.conversation in db.conversations
    && (request.recipient.Some? ==> request.recipient.value.userId == db.conversations[request.conversation])
  }

  /** A new turn is admitted exactly under these conditions, and is then an open turn without blocks or events. */
  lemma {:induction false} WhenATurnIsAdmitted(db: Db, tid: nat, request: Request, owner: Owner, now: int, limits: Limits)
    ensures var (d, r) := Started(db, tid, request, owner, now, limits);
      && ((r.Ok? && r.value.1) <==>
            && db.lease.Some? && db.lease.value.owner == owner && now < db.lease.value.expires
            && NamesRecipient(db, request) && tid !in db.rows && IsFree(db.rows, request.conversation) && !db.paused
            && |RecentTurns(db.rows, now)| < limits.daily && |ActiveTurns(db.rows)| < limits.active)
      && (r.Ok? && r.value.1 ==>
            && d == db.(rows := d.rows) && d.rows.Keys == db.rows.Keys + {tid}
            && (forall t :: t in db.rows ==> d.rows[t] == db.rows[t])
            && d.rows[tid].request == request && d.rows[tid].events == [] && d.rows[tid].created == now
            && d.rows[tid].turn == r.value.0 == Turn(tid, request.message, Processing, None, [], None, 0))
      && (!(r.Ok? && r.value.1) ==> d == db)
  {
    assert Busy(db.rows, request.conversation) <==> !IsFree(db.rows, request.conversation);
  }

  /** The same request again, under a live lease, is answered with the stored turn; another one under its id is refused. */
  lemma {:induction false} RepeatedRequestFindsItsTurn(db: Db, tid: nat, request: Request, owner: Owner, now: int, limits: Limits)
    requires db.lease.Some? && db.lease.value.owner == owner && now < db.lease.value.expires
    requires NamesRecipient(db, request) && tid in db.rows
    ensures Started(db, tid, request, owner, now, limits)
            == (db, if db.rows[tid].request == request then Ok((db.rows[tid].turn, false)) else Err(DifferentRequest))
  {
  }

  // ----- One emission ------------------------------------------------------------------------

  /** One to three distinct products, each with a reason of 1 to 200 characters, outer space not counted. */
  predicate AreShowable(products: seq<Card>) {
    && 1 <= |products| <= 3
    && (forall k :: 0 <= k < |products| ==>
          var card := products[k];
          && card.Card? && 0 < card.productId < 0x20_0000_0000_0000
          && Strip(card.reason) != "" && |Strip(card.reason)| <= 200 && forall c :: c in card.reason ==> c as int != 0)
    && forall j, k :: 0 <= j < k < |products| && products[j].Card? && products[k].Card? ==> products[j].productId != products[k].productId
  }

  lemma {:induction false} ShowableIsValid(products: seq<Card>)
    ensures AreShowable(products) <==> ValidCards(products)
  {
    hide Strip;
    if AreShowable(products) {
      assert forall k :: 0 <= k < |products| ==> ValidCard(products[k]);
    }
    if ValidCards(products) {
      assert forall k :: 0 <= k < |products| ==> ValidCard(products[k]);
    }
  }

  /** The store takes this emission into an open turn in this state. */
  predicate IsFitting(turn: Turn, emission: Emission) {
    match emission
    case EmitProgress(_) => true
    case EmitDelta(_) => true
    case EmitCards(products) => CardsOf(turn.blocks) == [] && AreShowable(products)
    case EmitFinish(status, error) => status == Completed || status == Cancelled || (status == Failed && error.Some?)
    case EmitOther => false
  }

  lemma {:induction false} NoCards(blocks: seq<Block>)
    ensures CardsOf(blocks) == [] <==> !HasCards(blocks)
  {
    if blocks != [] {
      NoCards(blocks[..|blocks| - 1]);
    }
  }

  /** An emission is stored exactly when the lease is the sender's and live, the turn is open, and it fits. */
  lemma {:induction false} WhenAnEmissionIsStored(db: Db, conversation: nat, tid: nat, emission: Emission, owner: Owner, now: int)
    ensures var (d, r) := Emitted(db, conversation, tid, emission, owner, now);
      && (r == Ok(true) <==>
            && db.lease.Some? && db.lease.value.owner == owner && now < db.lease.value.expires
            && tid in db.rows && db.rows[tid].request.conversation == conversation
            && db.rows[tid].turn.status == Processing && IsFitting(db.rows[tid].turn, emission))
      && (r != Ok(true) ==> d == db)
  {
    hide AreShowable, ValidCards;
    if tid in db.rows {
      NoCards(db.rows[tid].turn.blocks);
    }
    if emission.EmitCards? {
      ShowableIsValid(emission.products);
    }
  }

  /** The turn and the event that an emission leaves, apart from their number. */
  predicate IsTakenUp(before: Turn, emission: Emission, after: Turn, payload: Payload) {
    match emission
    case EmitProgress(message) =>
      && payload == Progress(message) && after.progress == Some(message) && after.blocks == before.blocks
      && after.status == Processing && after.error == before.error
    case EmitDelta(delta) =>
      && payload == Delta(delta) && after.progress == None && after.status == Processing && after.error == before.error
      && TextOf(after.blocks) == TextOf(before.blocks) + delta && CardsOf(after.blocks) == CardsOf(before.blocks)
    case EmitCards(products) =>
      && after.progress == before.progress && after.status == Processing && after.error == before.error
      && |after.blocks| == |before.blocks| + 1 && before.blocks <= after.blocks
      && payload.Cards? && after.blocks[|before.blocks|] == CardsBlock(payload.products) && AreTrimmed(products, payload.products)
    case EmitFinish(status, error) =>
      && payload == Finished(after) && after.status == status && after.progress == None && after.blocks == before.blocks
      && after.error == if status == Failed then error else before.error
    case EmitOther => false
  }

  /** A stored emission changes its own turn only, adds one event with the next number, and says what was emitted. */
  lemma {:induction false} StoredEmission(db: Db, conversation: nat, tid: nat, emission: Emission, owner: Owner, now: int)
    requires Emitted(db, conversation, tid, emission, owner, now).1 == Ok(true)
    ensures var d := Emitted(db, conversation, tid, emission, owner, now).0;
      && tid in db.rows && d.rows.Keys == db.rows.Keys && d == db.(rows := d.rows)
      && (forall t :: t in db.rows && t != tid ==> d.rows[t] == db.rows[t])
      && var (before, after) := (db.rows[tid], d.rows[tid]);
      && after == before.(turn := after.turn, events := after.events, writers := after.writers)
      && after.turn.turnId == before.turn.turnId && after.turn.message == before.turn.message
      && after.turn.lastEventId == before.turn.lastEventId + 1
      && |after.events| == |before.events| + 1 && before.events <= after.events
      && var e := after.events[|before.events|];
      && e.id == after.turn.lastEventId && IsTakenUp(before.turn, emission, after.turn, e.payload)
  {
    hide TextOf, CardsOf;
    if emission.EmitDelta? {
      AppendedContents(db.rows[tid].turn.blocks, emission.delta);
    }
  }

  // ----- A whole answer ----------------------------------------------------------------------

  datatype Timed = Timed(emission: Emission, now: int)

  /** The emissions one after another, if all of them are stored. */
  function AllStored(db: Db, conversation: nat, tid: nat, sent: seq<Timed>, owner: Owner): Option<Db> {
    if sent == [] then Some(db)
    else
      var front := AllStored(db, conversation, tid, sent[..|sent| - 1], owner);
      if front.None? then None
      else
        var last := sent[|sent| - 1];
        var (d, r) := Emitted(front.value, conversation, tid, last.emission, owner, last.now);
        if r == Ok(true) then Some(d) else None
  }

  function SentText(sent: seq<Timed>): string {
    if sent == [] then ""
    else
      var last := sent[|sent| - 1].emission;
      SentText(sent[..|sent| - 1]) + if last.EmitDelta? then last.delta else ""
  }

  function SentCards(sent: seq<Timed>): seq<seq<Card>> {
    if sent == [] then []
    else
      var last := sent[|sent| - 1].emission;
      SentCards(sent[..|sent| - 1]) + if last.EmitCards? then [last.products] else []
  }

  predicate AllTrimmed(given: seq<seq<Card>>, kept: seq<seq<Card>>) {
    |kept| == |given| && forall k :: 0 <= k < |given| ==> AreTrimmed(given[k], kept[k])
  }

  /**
   However an answer is cut into deltas and whatever is emitted between them, the stored turn holds
   exactly the text that was sent, in order, and exactly the cards that were sent, trimmed; it is
   open until a finish is stored, the last emission, and then has its status and error.
   */
  lemma {:induction false} StoredAnswerIsWhatWasSent(db: Db, conversation: nat, tid: nat, sent: seq<Timed>, owner: Owner)
    requires sent != [] && tid in db.rows && db.rows[tid].turn.status == Processing && db.rows[tid].turn.blocks == []
    requires db.rows[tid].turn.error == None
    requires AllStored(db, conversation, tid, sent, owner).Some?
    ensures tid in AllStored(db, conversation, tid, sent, owner).value.rows
    ensures var (turn, last) := (AllStored(db, conversation, tid, sent, owner).value.rows[tid].turn, sent[|sent| - 1].emission);
      && TextOf(turn.blocks) == SentText(sent) && AllTrimmed(SentCards(sent), CardsOf(turn.blocks))
      && (if last.EmitFinish? then last.status != Processing && turn.status == last.status && turn.progress == None
            && turn.error == (if last.status == Failed then last.error else None)
          else turn.status == Processing && turn.error == None)
      && forall k :: 0 <= k < |sent| - 1 ==> !sent[k].emission.EmitFinish?
  {
    hide Emitted, AreTrimmed, TextOf, CardsOf;
    var front, last := sent[..|sent| - 1], sent[|sent| - 1];
    var before := AllStored(db, conversation, tid, front, owner).value;
    if front == [] {
      NothingSent();
    } else {
      StoredAnswerIsWhatWasSent(db, conversation, tid, front, owner);
    }
    WhenAnEmissionIsStored(before, conversation, tid, last.emission, owner, last.now);
    StoredEmission(before, conversation, tid, last.emission, owner, last.now);
    StoredContents(before.rows[tid].turn, last.emission, AllStored(db, conversation, tid, sent, owner).value.rows[tid].turn);
    if front != [] {
      assert !front[|front| - 1].emission.EmitFinish?;
      assert forall k :: 0 <= k < |front| ==> sent[k] == front[k];
    }
  }

  lemma {:induction false} NothingSent()
    ensures TextOf([]) == SentText([]) == "" && CardsOf([]) == [] && SentCards([]) == []
  {
  }

  lemma {:induction false} StoredContents(before: Turn, emission: Emission, after: Turn)
    requires exists payload :: IsTakenUp(before, emission, after, payload)
    ensures TextOf(after.blocks) == TextOf(before.blocks) + if emission.EmitDelta? then emission.delta else ""
    ensures if emission.EmitCards?
            then |CardsOf(after.blocks)| == |CardsOf(before.blocks)| + 1 && CardsOf(before.blocks) <= CardsOf(after.blocks)
                 && AreTrimmed(emission.products, CardsOf(after.blocks)[|CardsOf(before.blocks)|])
            else CardsOf(after.blocks) == CardsOf(before.blocks)
  {
    hide TextOf, CardsOf, AreTrimmed;
    var payload :| IsTakenUp(before, emission, after, payload);
    if emission.EmitCards? {
      assert after.blocks == before.blocks + [CardsBlock(payload.products)];
      ContentsGrow(before.blocks, CardsBlock(payload.products));
    }
  }
}
