/**
 Every run of the console relay: one admission at a time, its upstream requests with replies
 that may be lost, process deaths at any point, new logins, and logins that expire with their rows.
 */
module AdmissionRuns {
  import opened Outcomes
  import opened ChatAdmissions

  /** The admission in progress. `prior` is the row read at its start; `absent` a 404 answered for its turn. */
  datatype Call = Call(session: Session, request: Request, prior: Option<Row>, absent: bool)

  datatype Phase =
    | Idle
    | Fetched(call: Call)
    | Cleared(call: Call)
    | Composed(call: Call, body: Body)
    | Frozen(call: Call, body: Body)
    | Checked(call: Call, body: Body, known: bool)
    | Reached(call: Call, body: Body)
    | Marked(call: Call, body: Body)
    | Sent(call: Call, body: Body)

  /**
   `creators` says which login's request created each upstream conversation, if any of this console;
   `logins` are all sessions ever opened.
   */
  datatype World = World(
    admissions: Admissions,
    target: Target,
    live: bool,
    phase: Phase,
    logins: set<Session>,
    creators: map<nat, Option<Session>>)

  datatype Answer = Found | Missing | Unavailable
  datatype Put = Success | Rejected | LostBefore | LostAfter
  datatype Reply = Accepted | NoReply | ServerBusy | Definite

  /** A durable write may also fail for reasons outside the model. */
  datatype Action =
    | Login(session: Session)
    | Expire(session: Session)
    | Foreign(conversation: nat)
    | Restart(target: Target, live: bool)
    | Open(session: Session, request: Request)
    | Ask(answer: Answer)
    | Skip
    | Compose(context: Option<string>)
    | Freeze(writes: bool)
    | CheckOwner
    | PutConversation(put: Put, writes: bool)
    | MarkReadable(writes: bool)
    | SendTurn
    | Receive(reply: Reply, writes: bool)

  const INITIAL := World(Admissions({}, map[]), 0, false, Idle, {}, map[])

  predicate Allowed(w: World, a: Action) {
    match a
    case Login(session) => session !in w.logins && !w.phase.Marked?
    // Nothing else runs between marking the row and starting the send.
    case Expire(_) => !w.phase.Marked?
    case Foreign(_) => !w.phase.Marked?
    case Restart(_, _) => true
    case Open(_, _) => w.phase.Idle?
    case Ask(_) => w.phase.Fetched? && w.phase.call.prior.Some? && w.phase.call.prior.value.readable
    case Skip => w.phase.Fetched? && !(w.phase.call.prior.Some? && w.phase.call.prior.value.readable)
    case Compose(_) => w.phase.Cleared?
    case Freeze(_) => w.phase.Composed?
    case CheckOwner => w.phase.Frozen?
    case PutConversation(_, _) => w.phase.Checked?
    case MarkReadable(_) => w.phase.Reached?
    case SendTurn => w.phase.Marked?
    case Receive(_, _) => w.phase.Sent?
  }

  function RowFor(w: World, call: Call, body: Body, readable: bool, owned: bool): Row {
    Row(call.session, w.target, body, readable, owned)
  }

  function PriorReadable(call: Call): bool {
    call.prior.Some? && call.prior.value.readable
  }

  function PriorOwned(call: Call): bool {
    call.prior.Some? && call.prior.value.owned
  }

  /** A durable write that may be refused. */
  function Wrote(w: World, row: Row, writes: bool): Option<World> {
    var saved := Saved(w.admissions, row);
    if writes && saved.Ok? then Some(w.(admissions := saved.value)) else None
  }

  /** A write whose failure changes nothing else. */
  function Tried(w: World, row: Row, writes: bool): World {
    var done := Wrote(w, row, writes);
    if done.Some? then done.value else w
  }

  function Opened(w: World, session: Session, request: Request): World {
    match Admission(w.admissions, session, w.target, request.requestId)
    case Err(_) => w
    case Ok(prior) =>
      if prior.Some? && prior.value.body.request != request then w
      else w.(phase := Fetched(Call(session, request, prior, false)))
  }

  function Asked(w: World, answer: Answer): World
    requires w.phase.Fetched?
  {
    match answer
    case Missing => w.(phase := Cleared(w.phase.call.(absent := true)))
    case _ => w.(phase := Idle)
  }

  /** A live target resends the frozen body; a mock target has no recipient context to freeze. */
  function ComposedFor(w: World, context: Option<string>): World
    requires w.phase.Cleared?
  {
    var call := w.phase.call;
    var body := if !w.live then Body(call.request, None)
                else if call.prior.Some? then call.prior.value.body
                else Body(call.request, context);
    w.(phase := Composed(call, body))
  }

  function FrozenWith(w: World, writes: bool): World
    requires w.phase.Composed?
  {
    var call := w.phase.call;
    match Wrote(w, RowFor(w, call, w.phase.body, PriorReadable(call), PriorOwned(call)), writes)
    case None => w.(phase := Idle)
    case Some(n) => n.(phase := Frozen(call, w.phase.body))
  }

  function OwnerChecked(w: World): World
    requires w.phase.Frozen?
  {
    match OwnsConversation(w.admissions, w.phase.call.session, w.target, w.phase.call.request.conversation)
    case Err(_) => w.(phase := Idle)
    case Ok(known) => w.(phase := Checked(w.phase.call, w.phase.body, known))
  }

  /** The upstream creates a conversation once; any later request finds it. */
  function Created(w: World, session: Session, conversation: nat): World {
    if conversation in w.creators then w else w.(creators := w.creators[conversation := Some(session)])
  }

  function ConversationPut(w: World, put: Put, writes: bool): World
    requires w.phase.Checked?
  {
    var (call, body) := (w.phase.call, w.phase.body);
    var conversation := call.request.conversation;
    match put
    case LostBefore => w.(phase := Idle)
    case LostAfter => Created(w, call.session, conversation).(phase := Idle)
    case Rejected => Tried(w, RowFor(w, call, body, PriorReadable(call), PriorOwned(call)), writes).(phase := Idle)
    case Success =>
      if conversation in w.creators && !w.phase.known then w.(phase := Idle)
      else Created(w, call.session, conversation).(phase := Reached(call, body))
  }

  function ReadableMarked(w: World, writes: bool): World
    requires w.phase.Reached?
  {
    match Wrote(w, RowFor(w, w.phase.call, w.phase.body, true, true), writes)
    case None => w.(phase := Idle)
    case Some(n) => n.(phase := Marked(w.phase.call, w.phase.body))
  }

  function TurnSent(w: World): World
    requires w.phase.Marked?
  {
    w.(phase := Sent(w.phase.call, w.phase.body))
  }

  function Received(w: World, reply: Reply, writes: bool): World
    requires w.phase.Sent?
  {
    var (call, body) := (w.phase.call, w.phase.body);
    match reply
    case Definite => Tried(w, RowFor(w, call, body, PriorReadable(call), true), writes).(phase := Idle)
    case _ => Tried(w, RowFor(w, call, body, true, true), writes).(phase := Idle)
  }

  function Expired(w: World, session: Session): World {
    w.(admissions := Purged(w.admissions, session))
  }

  function After(w: World, a: Action): World
    requires Allowed(w, a)
  {
    match a
    case Login(session) =>
      w.(logins := w.logins + {session}, admissions := w.admissions.(sessions := w.admissions.sessions + {session}))
    case Expire(session) => Expired(w, session)
    case Foreign(conversation) =>
      if conversation in w.creators then w else w.(creators := w.creators[conversation := None])
    case Restart(target, live) => w.(target := target, live := live, phase := Idle)
    case Open(session, request) => Opened(w, session, request)
    case Ask(answer) => Asked(w, answer)
    case Skip => w.(phase := Cleared(w.phase.call))
    case Compose(context) => ComposedFor(w, context)
    case Freeze(writes) => FrozenWith(w, writes)
    case CheckOwner => OwnerChecked(w)
    case PutConversation(put, writes) => ConversationPut(w, put, writes)
    case MarkReadable(writes) => ReadableMarked(w, writes)
    case SendTurn => TurnSent(w)
    case Receive(reply, writes) => Received(w, reply, writes)
  }

  ghost predicate IsRun(worlds: seq<World>, actions: seq<Action>) {
    && |worlds| == |actions| + 1
    && worlds[0] == INITIAL
    && forall k :: 0 <= k < |actions| ==> Allowed(worlds[k], actions[k]) && worlds[k + 1] == After(worlds[k], actions[k])
  }

  // ----- The invariant -----------------------------------------------------------------------

  type Creators = map<nat, Option<Session>>

  predicate Rows(a: Admissions, logins: set<Session>) {
    && a.sessions <= logins
    && forall id :: id in a.rows ==> a.rows[id].body.request.requestId == id && a.rows[id].session in a.sessions
  }

  predicate TurnsUnique(a: Admissions) {
    forall i, j :: i in a.rows && j in a.rows && i != j ==> a.rows[i].body.request.turn != a.rows[j].body.request.turn
  }

  predicate CreatedFor(creators: Creators, session: Session, conversation: nat) {
    conversation in creators && creators[conversation] == Some(session)
  }

  predicate OwnedIsCreated(a: Admissions, creators: Creators) {
    forall id :: id in a.rows && a.rows[id].owned ==>
      CreatedFor(creators, a.rows[id].session, a.rows[id].body.request.conversation)
  }

  predicate Tables(a: Admissions, logins: set<Session>, creators: Creators) {
    Rows(a, logins) && TurnsUnique(a) && OwnedIsCreated(a, creators)
  }

  predicate Living(w: World, call: Call) {
    call.session in w.admissions.sessions
  }

  predicate CreatedBy(w: World, call: Call) {
    CreatedFor(w.creators, call.session, call.request.conversation)
  }

  /** What every call remembers truly, while its login lives. */
  predicate Remembers(w: World, call: Call) {
    && call.session in w.logins
    && (call.prior.Some? ==> call.prior.value.body.request == call.request)
    && (Living(w, call) && PriorOwned(call) ==> CreatedBy(w, call))
  }

  /** The row read at the start is still the stored one. */
  predicate PriorCurrent(w: World, call: Call) {
    Living(w, call) ==>
      match call.prior
      case None => call.request.requestId !in w.admissions.rows
      case Some(row) =>
        call.request.requestId in w.admissions.rows && w.admissions.rows[call.request.requestId] == row && row.session == call.session
  }

  /** The call's row is stored with its frozen body. */
  predicate Stores(w: World, call: Call, body: Body, readable: bool) {
    && body.request == call.request
    && (Living(w, call) ==>
          var id := call.request.requestId;
          && id in w.admissions.rows && w.admissions.rows[id].body == body && w.admissions.rows[id].session == call.session
          && w.admissions.rows[id].readable == readable)
  }

  predicate PhaseInv(w: World) {
    match w.phase
    case Idle => true
    case Fetched(call) => Remembers(w, call) && PriorCurrent(w, call) && !call.absent
    case Cleared(call) => Remembers(w, call) && PriorCurrent(w, call) && call.absent == PriorReadable(call)
    case Composed(call, body) =>
      Remembers(w, call) && PriorCurrent(w, call) && call.absent == PriorReadable(call) && body.request == call.request
    case Frozen(call, body) => Remembers(w, call) && Stores(w, call, body, PriorReadable(call)) && call.absent == PriorReadable(call)
    case Checked(call, body, known) =>
      && Remembers(w, call) && Stores(w, call, body, PriorReadable(call)) && call.absent == PriorReadable(call)
      && (known ==> CreatedBy(w, call))
    case Reached(call, body) =>
      Remembers(w, call) && Stores(w, call, body, PriorReadable(call)) && call.absent == PriorReadable(call) && CreatedBy(w, call)
    case Marked(call, body) =>
      && Remembers(w, call) && Stores(w, call, body, true) && call.absent == PriorReadable(call) && CreatedBy(w, call)
      && Living(w, call) && w.admissions.rows[call.request.requestId].target == w.target
    case Sent(call, body) => call.session in w.logins && Stores(w, call, body, true) && CreatedBy(w, call)
  }

  predicate TablesOf(w: World) {
    Tables(w.admissions, w.logins, w.creators)
  }

  predicate Inv(w: World) {
    TablesOf(w) && PhaseInv(w)
  }

  // ----- Preservation ------------------------------------------------------------------------

  /** What a successful write leaves behind. */
  lemma {:induction false} WriteShape(w: World, row: Row, writes: bool)
    requires Wrote(w, row, writes).Some?
    ensures var n := Wrote(w, row, writes).value;
      var id := row.body.request.requestId;
      && n == w.(admissions := n.admissions) && n.admissions.sessions == w.admissions.sessions
      && row.session in w.admissions.sessions
      && n.admissions.rows == w.admissions.rows[id := row.(owned := row.owned || (id in w.admissions.rows && w.admissions.rows[id].owned))]
      && (id in w.admissions.rows ==>
            w.admissions.rows[id].body == row.body && w.admissions.rows[id].session == row.session)
      && (forall j :: j in w.admissions.rows && w.admissions.rows[j].body.request.turn == row.body.request.turn ==>
            w.admissions.rows[j].body.request.requestId == id)
  {
    forall j | j in w.admissions.rows && Related(w.admissions.rows[j], row.body.request)
      ensures Compatible(w.admissions.rows[j], row.session, row.target, row.body.request)
    {
    }
  }

  lemma {:induction false} WriteKeepsTables(w: World, row: Row, writes: bool)
    requires TablesOf(w) && Wrote(w, row, writes).Some?
    requires row.owned ==> CreatedFor(w.creators, row.session, row.body.request.conversation)
    ensures TablesOf(Wrote(w, row, writes).value)
  {
    WriteShape(w, row, writes);
    hide Wrote;
  }

  /** Every write of a call's own row. */
  lemma {:induction false} CallWrites(w: World, call: Call, body: Body, readable: bool, owned: bool, writes: bool)
    requires TablesOf(w) && body.request == call.request
    requires Living(w, call) && owned ==> CreatedBy(w, call)
    ensures var row := RowFor(w, call, body, readable, owned);
      Wrote(w, row, writes).Some? ==>
        var n := Wrote(w, row, writes).value;
        && TablesOf(n) && n == w.(admissions := n.admissions) && n.admissions.sessions == w.admissions.sessions
        && Living(n, call) && Stores(n, call, body, readable) && n.admissions.rows[call.request.requestId].target == w.target
  {
    var row := RowFor(w, call, body, readable, owned);
    if Wrote(w, row, writes).Some? {
      WriteShape(w, row, writes);
      WriteKeepsTables(w, row, writes);
    }
    hide Wrote, TablesOf;
  }

  lemma {:induction false} OpenKeepsInv(w: World, session: Session, request: Request)
    requires Inv(w)
    ensures Inv(Opened(w, session, request))
  {
  }

  lemma {:induction false} ExpireKeepsTables(w: World, session: Session)
    requires TablesOf(w)
    ensures TablesOf(Expired(w, session))
  {
  }

  lemma {:induction false} ExpireKeepsInv(w: World, session: Session)
    requires Inv(w) && !w.phase.Marked?
    ensures Inv(Expired(w, session))
  {
    ExpireKeepsTables(w, session);
    assert Rows(w.admissions, w.logins);
    hide TablesOf;
  }

  lemma {:induction false} FreezeKeepsInv(w: World, writes: bool)
    requires Inv(w) && w.phase.Composed?
    ensures Inv(FrozenWith(w, writes))
  {
    hide Wrote, Tables;
    var call := w.phase.call;
    CallWrites(w, call, w.phase.body, PriorReadable(call), PriorOwned(call), writes);
  }

  lemma {:induction false} OwnerCheckKeepsInv(w: World)
    requires Inv(w) && w.phase.Frozen?
    ensures Inv(OwnerChecked(w))
  {
    var call := w.phase.call;
    if OwnsConversation(w.admissions, call.session, w.target, call.request.conversation) == Ok(true) {
      var id :| id in w.admissions.rows && w.admissions.rows[id].body.request.conversation == call.request.conversation
                && w.admissions.rows[id].owned;
      assert CreatedBy(w, call);
    }
    hide OwnsConversation, Tables;
  }

  lemma {:induction false} CreatedKeepsInv(w: World, session: Session, conversation: nat)
    requires Inv(w)
    ensures Inv(Created(w, session, conversation)) && Inv(Created(w, session, conversation).(phase := Idle))
  {
  }

  lemma {:induction false} PutKeepsInv(w: World, put: Put, writes: bool)
    requires Inv(w) && w.phase.Checked?
    ensures Inv(ConversationPut(w, put, writes))
  {
    hide Wrote, Tables;
    var call := w.phase.call;
    CreatedKeepsInv(w, call.session, call.request.conversation);
    if put.Rejected? {
      CallWrites(w, call, w.phase.body, PriorReadable(call), PriorOwned(call), writes);
    }
  }

  lemma {:induction false} MarkKeepsInv(w: World, writes: bool)
    requires Inv(w) && w.phase.Reached?
    ensures Inv(ReadableMarked(w, writes))
  {
    hide Wrote, Tables;
    CallWrites(w, w.phase.call, w.phase.body, true, true, writes);
  }

  lemma {:induction false} SendKeepsInv(w: World)
    requires Inv(w) && w.phase.Marked?
    ensures Inv(TurnSent(w))
  {
  }

  lemma {:induction false} ReceiveKeepsInv(w: World, reply: Reply, writes: bool)
    requires Inv(w) && w.phase.Sent?
    ensures Inv(Received(w, reply, writes))
  {
    hide Wrote, Tables;
    var call := w.phase.call;
    CallWrites(w, call, w.phase.body, if reply.Definite? then PriorReadable(call) else true, true, writes);
  }

  lemma {:induction false} LoginKeepsInv(w: World, session: Session)
    requires Inv(w) && session !in w.logins && !w.phase.Marked?
    ensures Inv(After(w, Login(session)))
  {
    var n := After(w, Login(session));
    assert TablesOf(n);
    hide Tables;
  }

  lemma {:induction false} ForeignKeepsInv(w: World, conversation: nat)
    requires Inv(w) && !w.phase.Marked?
    ensures Inv(After(w, Foreign(conversation)))
  {
    hide Tables;
    if conversation !in w.creators {
      ForeignKeepsTables(w, conversation);
    }
  }

  lemma {:induction false} ForeignKeepsTables(w: World, conversation: nat)
    requires TablesOf(w) && conversation !in w.creators
    ensures TablesOf(w.(creators := w.creators[conversation := None]))
  {
  }

  lemma {:induction false} PhaseStepKeepsInv(w: World, a: Action)
    requires Inv(w) && Allowed(w, a) && (a.Restart? || a.Ask? || a.Skip? || a.Compose?)
    ensures Inv(After(w, a))
  {
    hide Tables;
  }

  lemma {:induction false} StepKeepsInv(w: World, a: Action)
    requires Inv(w) && Allowed(w, a)
    ensures Inv(After(w, a))
  {
    hide Inv;
    match a
    case Open(session, request) => OpenKeepsInv(w, session, request);
    case Expire(session) => ExpireKeepsInv(w, session);
    case Login(session) => LoginKeepsInv(w, session);
    case Foreign(conversation) => ForeignKeepsInv(w, conversation);
    case Freeze(writes) => FreezeKeepsInv(w, writes);
    case CheckOwner => OwnerCheckKeepsInv(w);
    case PutConversation(put, writes) => PutKeepsInv(w, put, writes);
    case MarkReadable(writes) => MarkKeepsInv(w, writes);
    case SendTurn => SendKeepsInv(w);
    case Receive(reply, writes) => ReceiveKeepsInv(w, reply, writes);
    case _ => PhaseStepKeepsInv(w, a);
  }

  lemma {:induction false} InvAlongRun(worlds: seq<World>, actions: seq<Action>, k: nat)
    requires IsRun(worlds, actions) && k < |worlds|
    ensures Inv(worlds[k])
  {
    if k > 0 {
      InvAlongRun(worlds, actions, k - 1);
      StepKeepsInv(worlds[k - 1], actions[k - 1]);
    }
  }

  // ----- Main results ------------------------------------------------------------------------

  /** Each turn send follows a durable row of its own login and target, readable, with the very body that is sent. */
  lemma {:induction false} SendFollowsReadableRow(worlds: seq<World>, actions: seq<Action>, k: nat)
    requires IsRun(worlds, actions) && k < |actions| && actions[k].SendTurn?
    ensures worlds[k].phase.Marked?
    ensures var (call, body) := (worlds[k].phase.call, worlds[k].phase.body);
      var id := call.request.requestId;
      && id in worlds[k].admissions.rows
      && var row := worlds[k].admissions.rows[id];
         row.body == body && row.readable && row.session == call.session && row.target == worlds[k].target
         && body.request == call.request
  {
    InvAlongRun(worlds, actions, k);
  }

  /** A stored row keeps its login and its body until its login expires. */
  lemma {:induction false} RowStays(worlds: seq<World>, actions: seq<Action>, i: nat, k: nat, id: nat)
    requires IsRun(worlds, actions) && i <= k < |worlds| && id in worlds[i].admissions.rows
    requires forall m :: i <= m < k ==> actions[m] != Expire(worlds[i].admissions.rows[id].session)
    ensures id in worlds[k].admissions.rows
    ensures worlds[k].admissions.rows[id].session == worlds[i].admissions.rows[id].session
    ensures worlds[k].admissions.rows[id].body == worlds[i].admissions.rows[id].body
    decreases k
  {
    if i < k {
      RowStays(worlds, actions, i, k - 1, id);
      StepKeepsRow(worlds[k - 1], actions[k - 1], id);
    }
  }

  lemma {:induction false} StepKeepsRow(w: World, a: Action, id: nat)
    requires Allowed(w, a) && id in w.admissions.rows && a != Expire(w.admissions.rows[id].session)
    ensures var n := After(w, a);
      && id in n.admissions.rows
      && n.admissions.rows[id].session == w.admissions.rows[id].session && n.admissions.rows[id].body == w.admissions.rows[id].body
  {
    match a
    case Freeze(writes) => AnyWriteKeepsRow(w, RowFor(w, w.phase.call, w.phase.body, PriorReadable(w.phase.call), PriorOwned(w.phase.call)), writes, id);
    case PutConversation(_, writes) => AnyWriteKeepsRow(w, RowFor(w, w.phase.call, w.phase.body, PriorReadable(w.phase.call), PriorOwned(w.phase.call)), writes, id);
    case MarkReadable(writes) => AnyWriteKeepsRow(w, RowFor(w, w.phase.call, w.phase.body, true, true), writes, id);
    case Receive(_, writes) =>
      AnyWriteKeepsRow(w, RowFor(w, w.phase.call, w.phase.body, true, true), writes, id);
      AnyWriteKeepsRow(w, RowFor(w, w.phase.call, w.phase.body, PriorReadable(w.phase.call), true), writes, id);
    case _ =>
    hide Wrote;
  }

  lemma {:induction false} AnyWriteKeepsRow(w: World, row: Row, writes: bool, id: nat)
    requires id in w.admissions.rows
    ensures Wrote(w, row, writes).Some? ==>
              var rows := Wrote(w, row, writes).value.admissions.rows;
              id in rows && rows[id].session == w.admissions.rows[id].session && rows[id].body == w.admissions.rows[id].body
  {
    if Wrote(w, row, writes).Some? {
      WriteShape(w, row, writes);
    }
  }

  /**
   While the login lives, all turn sends for one request id, and all turn sends for one turn id,
   belong to that one request and carry the same frozen body, whatever the recipient context has
   become and however often the console restarted.
   */
  lemma {:induction false} SendsCarryOneFrozenBody(worlds: seq<World>, actions: seq<Action>, i: nat, k: nat)
    requires IsRun(worlds, actions) && i < k < |actions| && actions[i].SendTurn? && actions[k].SendTurn?
    requires worlds[i].phase.Marked? && worlds[k].phase.Marked?
    requires worlds[i].phase.call.request.requestId == worlds[k].phase.call.request.requestId
             || worlds[i].phase.call.request.turn == worlds[k].phase.call.request.turn
    requires forall m :: i <= m < k ==> actions[m] != Expire(worlds[i].phase.call.session)
    ensures worlds[i].phase.body == worlds[k].phase.body && worlds[i].phase.call.session == worlds[k].phase.call.session
  {
    SendFollowsReadableRow(worlds, actions, i);
    SendFollowsReadableRow(worlds, actions, k);
    var id := worlds[i].phase.call.request.requestId;
    RowStays(worlds, actions, i, k, id);
    InvAlongRun(worlds, actions, k);
  }

  /** Since the 404 was answered for this call's turn, nothing was sent. */
  ghost predicate AskedAt(worlds: seq<World>, actions: seq<Action>, j: nat, k: nat, request: Request)
    requires k < |worlds| == |actions| + 1
  {
    && j < k && actions[j] == Ask(Missing) && worlds[j].phase.Fetched? && worlds[j].phase.call.request == request
    && forall m :: j <= m < k ==> !actions[m].SendTurn?
  }

  function CallOf(phase: Phase): Option<Call> {
    match phase
    case Idle => None
    case Sent(_, _) => None
    case _ => Some(phase.call)
  }

  lemma {:induction false} AbsenceWasAnswered(worlds: seq<World>, actions: seq<Action>, k: nat)
    requires IsRun(worlds, actions) && k < |worlds|
    requires CallOf(worlds[k].phase).Some? && CallOf(worlds[k].phase).value.absent
    ensures exists j: nat :: AskedAt(worlds, actions, j, k, CallOf(worlds[k].phase).value.request)
  {
    var call := CallOf(worlds[k].phase).value;
    if k > 0 {
      CallStepBack(worlds[k - 1], actions[k - 1], call);
      if actions[k - 1] == Ask(Missing) {
        assert AskedAt(worlds, actions, k - 1, k, call.request);
      } else {
        AbsenceWasAnswered(worlds, actions, k - 1);
        var j: nat :| AskedAt(worlds, actions, j, k - 1, call.request);
        assert AskedAt(worlds, actions, j, k, call.request);
      }
    }
  }

  lemma {:induction false} CallStepBack(w: World, a: Action, call: Call)
    requires Allowed(w, a) && CallOf(After(w, a).phase) == Some(call) && call.absent
    ensures !a.SendTurn?
    ensures a == Ask(Missing) ==> w.phase.Fetched? && w.phase.call.request == call.request
    ensures a != Ask(Missing) ==> CallOf(w.phase) == Some(call)
  {
    hide Saved, OwnsConversation, Admission;
  }

  // ----- Sends whose fate is unknown ---------------------------------------------------------

  /** The row is readable, and so it was for the call that is working on it. */
  predicate Held(w: World, id: nat) {
    && id in w.admissions.rows && w.admissions.rows[id].readable
    && (!w.phase.Idle? && w.phase.call.request.requestId == id ==> PriorReadable(w.phase.call))
  }

  /** The call that is writing, with the readability it writes. */
  predicate WritesOwnRow(w: World) {
    (w.phase.Composed? || w.phase.Checked? || w.phase.Reached? || w.phase.Sent?) && w.phase.body.request == w.phase.call.request
  }

  lemma {:induction false} CallsWriteTheirOwnRows(w: World)
    requires Inv(w) && (w.phase.Composed? || w.phase.Checked? || w.phase.Reached? || w.phase.Sent?)
    ensures WritesOwnRow(w)
  {
  }

  /** A readable write of its own row, or any write of another row, leaves a readable row readable. */
  lemma {:induction false} WriteStaysReadable(w: World, call: Call, body: Body, readable: bool, owned: bool, writes: bool, id: nat)
    requires id in w.admissions.rows && w.admissions.rows[id].readable && body.request == call.request
    requires call.request.requestId == id ==> readable
    ensures var n := Tried(w, RowFor(w, call, body, readable, owned), writes);
      id in n.admissions.rows && n.admissions.rows[id].readable && n == w.(admissions := n.admissions)
  {
    var row := RowFor(w, call, body, readable, owned);
    if Wrote(w, row, writes).Some? {
      WriteShape(w, row, writes);
    }
    hide Wrote;
  }

  /** Only the expiry of its login releases a held row. */
  lemma {:induction false} HeldStays(w: World, a: Action, id: nat)
    requires Inv(w) && Allowed(w, a) && Held(w, id) && a != Expire(w.admissions.rows[id].session)
    ensures Held(After(w, a), id)
  {
    if a.Freeze? || a.PutConversation? || a.MarkReadable? || a.Receive? {
      HeldOverWrites(w, a, id);
    } else {
      HeldWithoutWrites(w, a, id);
    }
  }

  lemma {:induction false} HeldWithoutWrites(w: World, a: Action, id: nat)
    requires Allowed(w, a) && Held(w, id) && a != Expire(w.admissions.rows[id].session)
    requires !a.Freeze? && !a.PutConversation? && !a.MarkReadable? && !a.Receive?
    ensures Held(After(w, a), id)
  {
    hide Wrote, OwnsConversation;
  }

  lemma {:induction false} HeldOverWrites(w: World, a: Action, id: nat)
    requires Inv(w) && Allowed(w, a) && Held(w, id) && (a.Freeze? || a.PutConversation? || a.MarkReadable? || a.Receive?)
    ensures Held(After(w, a), id)
  {
    hide Wrote, Tried, Inv, Held, ConversationPut, Received;
    CallsWriteTheirOwnRows(w);
    match a
    case Freeze(writes) => HeldOverFreeze(w, writes, id);
    case PutConversation(put, writes) => HeldOverPut(w, put, writes, id);
    case MarkReadable(writes) => HeldOverMark(w, writes, id);
    case Receive(reply, writes) => HeldOverReceive(w, reply, writes, id);
  }

  lemma {:induction false} HeldOverFreeze(w: World, writes: bool, id: nat)
    requires w.phase.Composed? && WritesOwnRow(w) && Held(w, id)
    ensures Held(FrozenWith(w, writes), id)
  {
    hide Wrote;
    WriteStaysReadable(w, w.phase.call, w.phase.body, PriorReadable(w.phase.call), PriorOwned(w.phase.call), writes, id);
  }

  lemma {:induction false} HeldOverPut(w: World, put: Put, writes: bool, id: nat)
    requires w.phase.Checked? && WritesOwnRow(w) && Held(w, id)
    ensures Held(ConversationPut(w, put, writes), id)
  {
    hide Wrote, Tried;
    WriteStaysReadable(w, w.phase.call, w.phase.body, PriorReadable(w.phase.call), PriorOwned(w.phase.call), writes, id);
  }

  lemma {:induction false} HeldOverMark(w: World, writes: bool, id: nat)
    requires w.phase.Reached? && WritesOwnRow(w) && Held(w, id)
    ensures Held(ReadableMarked(w, writes), id)
  {
    hide Wrote;
    WriteStaysReadable(w, w.phase.call, w.phase.body, true, true, writes, id);
  }

  lemma {:induction false} HeldOverReceive(w: World, reply: Reply, writes: bool, id: nat)
    requires w.phase.Sent? && WritesOwnRow(w) && Held(w, id)
    ensures Held(Received(w, reply, writes), id)
  {
    hide Wrote, Tried;
    WriteStaysReadable(w, w.phase.call, w.phase.body, PriorReadable(w.phase.call), true, writes, id);
    WriteStaysReadable(w, w.phase.call, w.phase.body, true, true, writes, id);
  }

  lemma {:induction false} HeldAlongRun(worlds: seq<World>, actions: seq<Action>, i: nat, k: nat, id: nat)
    requires IsRun(worlds, actions) && i <= k < |worlds| && Held(worlds[i], id)
    requires forall n :: i <= n < k ==> actions[n] != Expire(worlds[i].admissions.rows[id].session)
    ensures Held(worlds[k], id)
    decreases k
  {
    hide Inv, After, Allowed, Held;
    assert id in worlds[i].admissions.rows by { HeldHasRow(worlds[i], id); }
    if i < k {
      HeldAlongRun(worlds, actions, i, k - 1, id);
      RowStays(worlds, actions, i, k - 1, id);
      InvAlongRun(worlds, actions, k - 1);
      HeldStays(worlds[k - 1], actions[k - 1], id);
    }
  }

  lemma {:induction false} HeldHasRow(w: World, id: nat)
    requires Held(w, id)
    ensures id in w.admissions.rows
  {
  }

  /** The first reply or process death after a send. */
  ghost predicate EndsSend(actions: seq<Action>, i: nat, m: nat) {
    && i < m < |actions| && (actions[m].Receive? || actions[m].Restart?)
    && forall n :: i < n < m ==> !actions[n].Receive? && !actions[n].Restart?
  }

  /** Until then the send is under way. */
  lemma {:induction false} SendIsUnderWay(worlds: seq<World>, actions: seq<Action>, i: nat, n: nat)
    requires IsRun(worlds, actions) && i < n < |worlds| && actions[i].SendTurn? && worlds[i].phase.Marked?
    requires forall m :: i < m < n ==> !actions[m].Receive? && !actions[m].Restart?
    ensures worlds[n].phase == Sent(worlds[i].phase.call, worlds[i].phase.body)
  {
    if i + 1 < n {
      SendIsUnderWay(worlds, actions, i, n - 1);
    }
    hide Saved, OwnsConversation, Admission;
  }

  /** A send that did not end in a refusal leaves its row held. */
  lemma {:induction false} UnknownSendHoldsRow(worlds: seq<World>, actions: seq<Action>, i: nat, m: nat)
    requires IsRun(worlds, actions) && EndsSend(actions, i, m) && actions[i].SendTurn? && worlds[i].phase.Marked?
    requires !(actions[m].Receive? && actions[m].reply.Definite?)
    requires forall n :: i < n <= m ==> actions[n] != Expire(worlds[i].phase.call.session)
    ensures var id := worlds[i].phase.call.request.requestId;
      Held(worlds[m + 1], id) && worlds[m + 1].admissions.rows[id].session == worlds[i].phase.call.session
  {
    var (call, body) := (worlds[i].phase.call, worlds[i].phase.body);
    var id := call.request.requestId;
    SendFollowsReadableRow(worlds, actions, i);
    SendIsUnderWay(worlds, actions, i, m);
    RowStays(worlds, actions, i, m + 1, id);
    RowStays(worlds, actions, i, m, id);
    InvAlongRun(worlds, actions, m);
    hide Wrote, After, Allowed;
    SentEndsHeld(worlds[m], actions[m]);
  }

  lemma {:induction false} SentEndsHeld(w: World, a: Action)
    requires Inv(w) && w.phase.Sent? && Living(w, w.phase.call)
    requires a.Restart? || (a.Receive? && !a.reply.Definite?)
    ensures Held(After(w, a), w.phase.call.request.requestId)
  {
    if a.Receive? {
      WriteStaysReadable(w, w.phase.call, w.phase.body, true, true, a.writes, w.phase.call.request.requestId);
    }
    hide Wrote;
  }

  /** A call for a held row that reaches its send has been answered 404. */
  lemma {:induction false} HeldCallIsAbsent(w: World)
    requires Inv(w) && w.phase.Marked? && Held(w, w.phase.call.request.requestId)
    ensures w.phase.call.absent
  {
  }

  /**
   A turn send whose fate is unknown, because its first reply was no refusal or the process died
   first: while its login lives, the same request or turn is sent again only after the upstream
   has answered 404 for it since that send, with no send between that answer and the new one,
   whatever happened to other sends, of this turn or of others, in the meantime.
   */
  lemma {:induction false} UnknownTurnIsSentAgainOnlyAfterAbsence(
    worlds: seq<World>, actions: seq<Action>, i: nat, m: nat, k: nat)
    requires IsRun(worlds, actions) && i < k < |actions| && actions[i].SendTurn? && actions[k].SendTurn?
    requires worlds[i].phase.Marked? && worlds[k].phase.Marked?
    requires worlds[i].phase.call.request.requestId == worlds[k].phase.call.request.requestId
             || worlds[i].phase.call.request.turn == worlds[k].phase.call.request.turn
    requires EndsSend(actions, i, m) && !(actions[m].Receive? && actions[m].reply.Definite?)
    requires forall n :: i <= n < k ==> actions[n] != Expire(worlds[i].phase.call.session)
    ensures exists j: nat :: i < j && AskedAt(worlds, actions, j, k, worlds[k].phase.call.request)
  {
    hide Inv, After, Allowed, Held;
    EndComesFirst(worlds, actions, i, m, k);
    SendsCarryOneFrozenBody(worlds, actions, i, k);
    SendFollowsReadableRow(worlds, actions, i);
    SendFollowsReadableRow(worlds, actions, k);
    var id := worlds[i].phase.call.request.requestId;
    UnknownSendHoldsRow(worlds, actions, i, m);
    HeldHasRow(worlds[m + 1], id);
    HeldAlongRun(worlds, actions, m + 1, k, id);
    InvAlongRun(worlds, actions, k);
    HeldCallIsAbsent(worlds[k]);
    AbsenceWasAnswered(worlds, actions, k);
    var j: nat :| AskedAt(worlds, actions, j, k, worlds[k].phase.call.request);
    assert i < j;
  }

  /** A send is over before the next one starts. */
  lemma {:induction false} EndComesFirst(worlds: seq<World>, actions: seq<Action>, i: nat, m: nat, k: nat)
    requires IsRun(worlds, actions) && i < k < |actions| && actions[i].SendTurn? && worlds[i].phase.Marked? && actions[k].SendTurn?
    requires EndsSend(actions, i, m)
    ensures m < k
  {
    if k <= m {
      SendIsUnderWay(worlds, actions, i, k);
    }
  }

  /** Who created a conversation never changes. */
  lemma {:induction false} CreatorStays(worlds: seq<World>, actions: seq<Action>, i: nat, k: nat, conversation: nat)
    requires IsRun(worlds, actions) && i <= k < |worlds| && conversation in worlds[i].creators
    ensures conversation in worlds[k].creators && worlds[k].creators[conversation] == worlds[i].creators[conversation]
    decreases k
  {
    hide After, Allowed, Inv;
    if i < k {
      CreatorStays(worlds, actions, i, k - 1, conversation);
      CreatorStep(worlds[k - 1], actions[k - 1], conversation);
    }
  }

  lemma {:induction false} CreatorStep(w: World, a: Action, conversation: nat)
    requires Allowed(w, a) && conversation in w.creators
    ensures conversation in After(w, a).creators && After(w, a).creators[conversation] == w.creators[conversation]
  {
    hide Saved, OwnsConversation, Admission;
  }

  /**
   Turns are sent only into conversations that the same login's own request created: no login ever
   sends into another's conversation, even after that login and all its rows have expired.
   */
  lemma {:induction false} ConversationIsNeverTakenOver(worlds: seq<World>, actions: seq<Action>, i: nat, k: nat)
    requires IsRun(worlds, actions) && i <= k < |actions| && actions[i].SendTurn? && actions[k].SendTurn?
    requires worlds[i].phase.Marked? && worlds[k].phase.Marked?
    requires worlds[i].phase.call.request.conversation == worlds[k].phase.call.request.conversation
    ensures CreatedBy(worlds[i], worlds[i].phase.call)
    ensures worlds[i].phase.call.session == worlds[k].phase.call.session
  {
    InvAlongRun(worlds, actions, i);
    InvAlongRun(worlds, actions, k);
    CreatorStays(worlds, actions, i, k, worlds[i].phase.call.request.conversation);
  }
}
