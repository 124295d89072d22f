/**
 The PostgreSQL store of the chat runtime: the runtime lease and the turn transactions.
 Each transaction is a function on the database value; the class performs it in place.
 */
module TurnStore {
  import opened Outcomes
  import opened PythonText
  import opened TurnLog

  const LEASE_SECONDS := 40
  const DAY_SECONDS := 86400
  const RESTART_MESSAGE := "서버가 재시작되어 답변이 중단됐어요. 다시 질문해 주세요."

  /** The owner column: a runtime's own token, or the tombstone a release leaves. */
  datatype Owner = Runtime(token: nat) | Tombstone(token: nat)

  datatype Lease = Lease(owner: Owner, expires: int)

  datatype RecipientContext = RecipientContext(userId: int, facts: string)

  /** The immutable identity of a turn: a retry must repeat it exactly. */
  datatype Request = Request(
    conversation: nat,
    message: string,
    model: Option<string>,
    recipient: Option<RecipientContext>,
    prepared: Option<string>)

  /**
   A turns row with its events rows. The last two fields are bookkeeping of the model, read by
   no transaction: the owner that inserted the turn, and the owner that wrote each event.
   */
  datatype Row = Row(
    request: Request,
    turn: Turn,
    events: seq<Event>,
    created: int,
    admittedBy: Owner,
    writers: seq<Owner>)

  datatype Limits = Limits(daily: nat, active: nat)

  datatype Db = Db(
    lease: Option<Lease>,
    conversations: map<nat, int>,
    rows: map<nat, Row>,
    paused: bool)

  datatype Emission =
    | EmitProgress(message: string)
    | EmitDelta(delta: string)
    | EmitCards(products: seq<Card>)
    | EmitFinish(status: Status, error: Option<string>)
    | EmitOther

  datatype StoreError =
    | NotReady
    | UnknownConversation
    | UnknownTurn
    | WrongRecipient
    | DifferentRequest
    | ConversationBusy
    | DailyLimit
    | TooManyActive
    | AdmissionPaused
    | CardsAlreadyStored
    | InvalidCards
    | NotTerminalStatus
    | MissingErrorMessage
    | UnsupportedEvent
    | CursorOutOfRange

  // ----- The lease ---------------------------------------------------------------------------

  function Column(lease: Option<Lease>): Option<Owner> {
    if lease.Some? then Some(lease.value.owner) else None
  }

  predicate Active(lease: Option<Lease>, now: int) {
    lease.Some? && lease.value.expires > now
  }

  /** Only an unexpired lease of this very owner lets a transaction through. */
  predicate Guarded(lease: Option<Lease>, owner: Owner, now: int) {
    lease.Some? && lease.value.owner == owner && lease.value.expires > now
  }

  predicate Unfinished(row: Row) {
    row.turn.status.Processing?
  }

  /** `_event`: number the event, store the state, append the row. */
  function Recorded(row: Row, turn: Turn, payload: Payload, writer: Owner): Row {
    row.(turn := turn, events := row.events + [Event(turn.lastEventId, payload)], writers := row.writers + [writer])
  }

  /** The state an interrupted turn is closed with. */
  function Interrupted(turn: Turn): Turn {
    turn.(status := Failed, error := Some(RESTART_MESSAGE), progress := None, lastEventId := turn.lastEventId + 1)
  }

  function Swept(row: Row, writer: Owner): Row {
    if Unfinished(row)
    then Recorded(row, Interrupted(row.turn), Finished(Interrupted(row.turn)), writer)
    else row
  }

  function SweptAll(rows: map<nat, Row>, writer: Owner): map<nat, Row> {
    map tid | tid in rows :: Swept(rows[tid], writer)
  }

  /** Compare-and-swap of the owner column, or renewal when it already holds `next`. */
  function Rotated(db: Db, expected: Option<Owner>, next: Owner, claim: bool, now: int): (Db, bool) {
    if Column(db.lease) == Some(next) then
      (db.(lease := Some(Lease(next, now + LEASE_SECONDS))), true)
    else if Column(db.lease) != expected then
      (db, false)
    else if claim && Active(db.lease, now) then
      (db, false)
    else
      (db.(lease := Some(Lease(next, now + LEASE_SECONDS)), rows := SweptAll(db.rows, next)), true)
  }

  /** Release overwrites the releasing owner with a fresh, already expired tombstone. */
  function Released(db: Db, owner: Owner, tombstone: Owner, now: int): Db {
    if Column(db.lease) == Some(owner) then db.(lease := Some(Lease(tombstone, now))) else db
  }

  // ----- Admission ---------------------------------------------------------------------------

  predicate Busy(rows: map<nat, Row>, conversation: nat) {
    exists tid :: tid in rows && rows[tid].request.conversation == conversation && Unfinished(rows[tid])
  }

  function ActiveTurns(rows: map<nat, Row>): set<nat> {
    set tid | tid in rows && Unfinished(rows[tid])
  }

  function RecentTurns(rows: map<nat, Row>, now: int): set<nat> {
    set tid | tid in rows && rows[tid].created > now - DAY_SECONDS
  }

  function NewRow(tid: nat, request: Request, owner: Owner, now: int): Row {
    Row(request, Admitted(tid, request.message), [], now, owner, [])
  }

  function Started(db: Db, tid: nat, request: Request, owner: Owner, now: int, limits: Limits)
    : (Db, Result<(Turn, bool), StoreError>)
  {
    if !Guarded(db.lease, owner, now) then (db, Err(NotReady))
    else if request.conversation !in db.conversations then (db, Err(UnknownConversation))
    else if request.recipient.Some? && request.recipient.value.userId != db.conversations[request.conversation]
    then (db, Err(WrongRecipient))
    else if tid in db.rows then
      if db.rows[tid].request != request then (db, Err(DifferentRequest))
      else (db, Ok((db.rows[tid].turn, false)))
    else if Busy(db.rows, request.conversation) then (db, Err(ConversationBusy))
    else if |RecentTurns(db.rows, now)| >= limits.daily then (db, Err(DailyLimit))
    else if |ActiveTurns(db.rows)| >= limits.active then (db, Err(TooManyActive))
    else if db.paused then (db, Err(AdmissionPaused))
    else
      (db.(rows := db.rows[tid := NewRow(tid, request, owner, now)]),
       Ok((NewRow(tid, request, owner, now).turn, true)))
  }

  // ----- Events ------------------------------------------------------------------------------

  /** The new state and the payload to publish, before the event is numbered. */
  function Effect(turn: Turn, emission: Emission): Result<(Turn, Option<Payload>), StoreError> {
    match emission
    case EmitProgress(message) => Ok((turn.(progress := Some(message)), Some(Progress(message))))
    case EmitDelta(delta) =>
      Ok((turn.(progress := None, blocks := AppendText(turn.blocks, delta)), Some(Delta(delta))))
    case EmitCards(products) =>
      if HasCards(turn.blocks) then Err(CardsAlreadyStored)
      else if !ValidCards(products) then Err(InvalidCards)
      else Ok((turn.(blocks := turn.blocks + [CardsBlock(Normalized(products))]), Some(Cards(Normalized(products)))))
    case EmitFinish(status, error) =>
      if status.Processing? then Err(NotTerminalStatus)
      else if status.Failed? && error.None? then Err(MissingErrorMessage)
      else Ok((turn.(status := status, progress := None, error := if status.Failed? then error else turn.error), None))
    case EmitOther => Err(UnsupportedEvent)
  }

  predicate Addressed(db: Db, conversation: nat, tid: nat) {
    tid in db.rows && db.rows[tid].request.conversation == conversation
  }

  function Emitted(db: Db, conversation: nat, tid: nat, emission: Emission, owner: Owner, now: int)
    : (Db, Result<bool, StoreError>)
  {
    if !Guarded(db.lease, owner, now) then (db, Err(NotReady))
    else if !Addressed(db, conversation, tid) then (db, Err(UnknownTurn))
    else if !Unfinished(db.rows[tid]) then (db, Ok(false))
    else
      match Effect(db.rows[tid].turn, emission)
      case Err(error) => (db, Err(error))
      case Ok((next, payload)) =>
        var turn := next.(lastEventId := next.lastEventId + 1);
        // The closing event carries the whole state; the others carry their payload.
        var published := if payload.Some? then payload.value else Finished(turn);
        (db.(rows := db.rows[tid := Recorded(db.rows[tid], turn, published, owner)]), Ok(true))
  }

  /** The rows of the events table with seq > after, in order. */
  function EventsAfter(events: seq<Event>, after: int): seq<Event> {
    if events == [] then []
    else if events[0].id > after then [events[0]] + EventsAfter(events[1..], after)
    else EventsAfter(events[1..], after)
  }

  function Replayed(db: Db, conversation: nat, tid: nat, after: int): Result<(seq<Event>, Turn), StoreError> {
    if !Addressed(db, conversation, tid) then Err(UnknownTurn)
    else if after < 0 || after > db.rows[tid].turn.lastEventId then Err(CursorOutOfRange)
    else Ok((EventsAfter(db.rows[tid].events, after), db.rows[tid].turn))
  }

  /** Looking up a turn by its identity needs no lease. */
  function ExistingTurn(db: Db, tid: nat, request: Request): Result<Option<Turn>, StoreError> {
    if request.conversation !in db.conversations then Err(UnknownConversation)
    else if request.recipient.Some? && request.recipient.value.userId != db.conversations[request.conversation]
    then Err(WrongRecipient)
    else if tid !in db.rows then Ok(None)
    else if db.rows[tid].request != request then Err(DifferentRequest)
    else Ok(Some(db.rows[tid].turn))
  }

  // ----- The transactions in place -----------------------------------------------------------

  class Store {
    var lease: Option<Lease>
    var conversations: map<nat, int>
    var rows: map<nat, Row>
    var paused: bool

    constructor ()
      ensures View() == Db(None, map[], map[], false)
    {
      lease, conversations, rows, paused := None, map[], map[], false;
    }

    ghost function View(): Db
      reads this
    {
      Db(lease, conversations, rows, paused)
    }

    method RecordEvent(tid: nat, turn: Turn, payload: Option<Payload>, writer: Owner)
      requires tid in rows
      modifies this`rows
      ensures rows == old(rows)[tid :=
        var t := turn.(lastEventId := turn.lastEventId + 1);
        Recorded(old(rows)[tid], t, if payload.Some? then payload.value else Finished(t), writer)]
    {
      var state := turn;
      state := state.(lastEventId := state.lastEventId + 1);
      var published := Finished(state);
      if payload.Some? {
        published := payload.value;
      }
      var row := rows[tid];
      row := row.(turn := state);
      row := row.(events := row.events + [Event(state.lastEventId, published)], writers := row.writers + [writer]);
      rows := rows[tid := row];
    }

    method Rotate(expected: Option<Owner>, next: Owner, claim: bool, now: int) returns (ok: bool)
      modifies this`lease, this`rows
      ensures (View(), ok) == Rotated(old(View()), expected, next, claim, now)
    {
      if lease.Some? && lease.value.owner == next {
        lease := Some(Lease(next, now + LEASE_SECONDS));
        return true;
      }
      if (if lease.Some? then Some(lease.value.owner) else None) != expected {
        return false;
      }
      if claim && lease.Some? && lease.value.expires > now {
        return false;
      }
      lease := Some(Lease(next, now + LEASE_SECONDS));
      Sweep(next);
      return true;
    }

    /** Close every unfinished turn, in whatever order the rows come. */
    method Sweep(writer: Owner)
      modifies this`rows
      ensures rows == SweptAll(old(rows), writer)
    {
      ghost var before := rows;
      var todo := set tid | tid in rows && rows[tid].turn.status.Processing?;
      while todo != {}
        invariant rows.Keys == before.Keys
        invariant forall tid :: tid in todo ==> tid in before && Unfinished(before[tid])
        invariant forall tid :: tid in before ==>
          rows[tid] == if tid in todo then before[tid] else Swept(before[tid], writer)
      {
        var tid :| tid in todo;
        var state := rows[tid].turn;
        state := state.(status := Failed, error := Some(RESTART_MESSAGE));
        state := state.(progress := None);
        RecordEvent(tid, state, None, writer);
        todo := todo - {tid};
      }
    }

    method Release(owner: Owner, tombstone: Owner, now: int)
      modifies this`lease
      ensures View() == Released(old(View()), owner, tombstone, now)
    {
      if lease.Some? && lease.value.owner == owner {
        lease := Some(Lease(tombstone, now));
      }
    }

    method Start(tid: nat, request: Request, owner: Owner, now: int, limits: Limits)
      returns (r: Result<(Turn, bool), StoreError>)
      modifies this`rows
      ensures (View(), r) == Started(old(View()), tid, request, owner, now, limits)
    {
      if !(lease.Some? && lease.value.owner == owner && lease.value.expires > now) {
        return Err(NotReady);
      }
      if request.conversation !in conversations {
        return Err(UnknownConversation);
      }
      if request.recipient.Some? && request.recipient.value.userId != conversations[request.conversation] {
        return Err(WrongRecipient);
      }
      if tid in rows {
        if rows[tid].request != request {
          return Err(DifferentRequest);
        }
        return Ok((rows[tid].turn, false));
      }
      if exists t :: t in rows && rows[t].request.conversation == request.conversation && Unfinished(rows[t]) {
        return Err(ConversationBusy);
      }
      var processing := set t | t in rows && Unfinished(rows[t]);
      var recent := set t | t in rows && rows[t].created > now - DAY_SECONDS;
      assert processing == ActiveTurns(rows) && recent == RecentTurns(rows, now);
      if |recent| >= limits.daily {
        return Err(DailyLimit);
      }
      if |processing| >= limits.active {
        return Err(TooManyActive);
      }
      if paused {
        return Err(AdmissionPaused);
      }
      var state := Turn(tid, request.message, Processing, None, [], None, 0);
      rows := rows[tid := Row(request, state, [], now, owner, [])];
      return Ok((state, true));
    }

    method Emit(conversation: nat, tid: nat, emission: Emission, owner: Owner, now: int)
      returns (r: Result<bool, StoreError>)
      modifies this`rows
      ensures (View(), r) == Emitted(old(View()), conversation, tid, emission, owner, now)
    {
      if !(lease.Some? && lease.value.owner == owner && lease.value.expires > now) {
        return Err(NotReady);
      }
      if tid !in rows || rows[tid].request.conversation != conversation {
        return Err(UnknownTurn);
      }
      var s := rows[tid].turn;
      if !s.status.Processing? {
        return Ok(false);
      }
      var payload: Option<Payload> := None;
      match emission {
        case EmitProgress(message) =>
          s := s.(progress := Some(message));
          payload := Some(Progress(message));
        case EmitDelta(delta) =>
          s := s.(progress := None);
          var n := |s.blocks|;
          if n > 0 && s.blocks[n - 1].TextBlock? {
            s := s.(blocks := s.blocks[n - 1 := TextBlock(s.blocks[n - 1].text + delta)]);
            assert s.blocks == AppendText(rows[tid].turn.blocks, delta);
          } else {
            s := s.(blocks := s.blocks + [TextBlock(delta)]);
          }
          payload := Some(Delta(delta));
        case EmitCards(products) =>
          if exists i :: 0 <= i < |s.blocks| && s.blocks[i].CardsBlock? {
            return Err(CardsAlreadyStored);
          }
          if !ValidCards(products) {
            return Err(InvalidCards);
          }
          s := s.(blocks := s.blocks + [CardsBlock(Normalized(products))]);
          payload := Some(Cards(Normalized(products)));
        case EmitFinish(status, error) =>
          if status.Processing? {
            return Err(NotTerminalStatus);
          }
          s := s.(status := status);
          s := s.(progress := None);
          if status.Failed? {
            if error.None? {
              return Err(MissingErrorMessage);
            }
            s := s.(error := error);
          }
        case EmitOther =>
          return Err(UnsupportedEvent);
      }
      RecordEvent(tid, s, payload, owner);
      return Ok(true);
    }

    method Replay(conversation: nat, tid: nat, after: int) returns (r: Result<(seq<Event>, Turn), StoreError>)
      ensures r == Replayed(View(), conversation, tid, after)
    {
      if tid !in rows || rows[tid].request.conversation != conversation {
        return Err(UnknownTurn);
      }
      if after < 0 || after > rows[tid].turn.lastEventId {
        return Err(CursorOutOfRange);
      }
      return Ok((EventsAfter(rows[tid].events, after), rows[tid].turn));
    }
  }

  // ----- What every transaction keeps --------------------------------------------------------

  /** The stored state, its events and their writers agree. */
  predicate SoundRow(tid: nat, row: Row) {
    && Consistent(row.turn, row.events)
    && row.turn.turnId == tid
    && row.turn.message == row.request.message
    && PublicBlocks(row.turn.blocks)
    && PublicEvents(row.events)
    && (forall i :: 0 <= i < |row.events| && row.events[i].payload.Cards? ==> HasCards(row.turn.blocks))
    && |row.writers| == |row.events|
    // Every event but a closing one was written by the owner that admitted the turn.
    && (forall i :: 0 <= i < |row.writers| && !row.events[i].payload.Finished? ==> row.writers[i] == row.admittedBy)
  }

  lemma {:induction false} SweepKeepsRow(tid: nat, row: Row, writer: Owner)
    requires SoundRow(tid, row)
    ensures SoundRow(tid, Swept(row, writer)) && !Unfinished(Swept(row, writer))
  {
    if Unfinished(row) {
      ConsistentStep(row.turn, row.events, Interrupted(row.turn), Finished(Interrupted(row.turn)));
    }
  }

  /** No emission removes a cards block. */
  lemma {:induction false} CardsStay(blocks: seq<Block>, emission: Emission)
    requires HasCards(blocks)
    ensures emission.EmitDelta? ==> HasCards(AppendText(blocks, emission.delta))
  {
    if emission.EmitDelta? {
      var i :| 0 <= i < |blocks| && blocks[i].CardsBlock?;
      assert AppendText(blocks, emission.delta)[i] == blocks[i];
    }
  }

  lemma {:induction false} EmissionKeepsRow(db: Db, conversation: nat, tid: nat, emission: Emission, owner: Owner, now: int)
    requires tid in db.rows && SoundRow(tid, db.rows[tid])
    requires Unfinished(db.rows[tid]) ==> db.rows[tid].admittedBy == owner
    ensures SoundRow(tid, Emitted(db, conversation, tid, emission, owner, now).0.rows[tid])
  {
    var (after, r) := Emitted(db, conversation, tid, emission, owner, now);
    if r == Ok(true) {
      var row, row' := db.rows[tid], after.rows[tid];
      var payload := row'.events[|row.events|].payload;
      ConsistentStep(row.turn, row.events, row'.turn, payload);
      EffectIsPublic(row.turn.blocks, row.events, row'.turn.blocks, row.turn.lastEventId + 1, emission, payload);
    }
  }

  /** An emission keeps the blocks and the event list in the form readers expect. */
  lemma {:induction false} EffectIsPublic(
      blocks: seq<Block>, events: seq<Event>, blocks': seq<Block>, id: nat, emission: Emission, payload: Payload)
    requires PublicBlocks(blocks) && PublicEvents(events)
    requires forall i :: 0 <= i < |events| && events[i].payload.Cards? ==> HasCards(blocks)
    requires match emission
             case EmitDelta(delta) => blocks' == AppendText(blocks, delta) && payload == Delta(delta)
             case EmitCards(products) => !HasCards(blocks) && ValidCards(products) && payload == Cards(Normalized(products))
               && blocks' == blocks + [CardsBlock(Normalized(products))]
             case _ => blocks' == blocks && !payload.Cards?
    ensures PublicBlocks(blocks') && PublicEvents(events + [Event(id, payload)])
    ensures forall i :: 0 <= i < |events| + 1 && (events + [Event(id, payload)])[i].payload.Cards? ==> HasCards(blocks')
  {
    hide ValidCard, Trimmed;
    if emission.EmitCards? {
      NormalizedIsIdentity(emission.products);
      assert blocks'[|blocks|].CardsBlock?;
      assert forall i :: 0 <= i < |events| ==> !events[i].payload.Cards?;
    } else if HasCards(blocks) {
      CardsStay(blocks, emission);
    }
  }

  /** On a sound row, a replay is exactly the suffix of the event list after the cursor. */
  lemma {:induction false} ReplayIsSuffix(events: seq<Event>, first: nat, after: nat)
    requires forall i :: 0 <= i < |events| ==> events[i].id == first + i + 1
    requires first <= after <= first + |events|
    ensures EventsAfter(events, after) == events[after - first..]
    decreases |events|
  {
    if events == [] {
    } else if first < after {
      ReplayIsSuffix(events[1..], first + 1, after);
    } else {
      EverythingAfter(events, after);
    }
  }

  lemma {:induction false} EverythingAfter(events: seq<Event>, after: int)
    requires forall i :: 0 <= i < |events| ==> events[i].id > after
    ensures EventsAfter(events, after) == events
  {
    if events != [] {
      EverythingAfter(events[1..], after);
    }
  }
}
