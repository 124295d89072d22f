/**
 The console's durable chat admissions: one row per request id, bound to the login and the exact
 target that made it, holding the frozen body of the turn.
 */
module ChatAdmissions {
  import opened Outcomes

  type Session = nat
  type Target = nat

  /** What a client sends: the fingerprint stands for the whole of it. */
  datatype Request = Request(requestId: nat, conversation: nat, turn: nat, message: string)

  /** A request with the recipient context that was current when the body was frozen. */
  datatype Body = Body(request: Request, context: Option<string>)

  datatype Row = Row(session: Session, target: Target, body: Body, readable: bool, owned: bool)

  datatype Admissions = Admissions(sessions: set<Session>, rows: map<nat, Row>)

  datatype AdmissionError = LoginRequired | OwnershipMismatch | BodyChanged | HistoryLimit

  const ROW_LIMIT := 256

  /** Only an admission recorded by this login for this target may be read. */
  function Admission(a: Admissions, session: Session, target: Target, requestId: nat): Result<Option<Row>, AdmissionError> {
    if session !in a.sessions then Err(LoginRequired)
    else if requestId !in a.rows then Ok(None)
    else if a.rows[requestId].session != session || a.rows[requestId].target != target then Err(OwnershipMismatch)
    else Ok(Some(a.rows[requestId]))
  }

  /** The row shares the request, the turn or the conversation. */
  predicate Related(row: Row, request: Request) {
    row.body.request.requestId == request.requestId || row.body.request.turn == request.turn
    || row.body.request.conversation == request.conversation
  }

  predicate Compatible(row: Row, session: Session, target: Target, request: Request) {
    && row.session == session && row.target == target
    && (row.body.request.requestId == request.requestId || row.body.request.turn == request.turn ==>
          row.body.request.(message := request.message) == request)
  }

  predicate Conflicts(a: Admissions, session: Session, target: Target, request: Request) {
    exists id :: id in a.rows && Related(a.rows[id], request) && !Compatible(a.rows[id], session, target, request)
  }

  function RowsOf(a: Admissions, session: Session): set<nat> {
    set id | id in a.rows && a.rows[id].session == session
  }

  /** Ownership of the conversation, once recorded, stays. */
  function SavedRow(a: Admissions, row: Row): Row {
    var id := row.body.request.requestId;
    row.(owned := row.owned || (id in a.rows && a.rows[id].owned))
  }

  function Saved(a: Admissions, row: Row): Result<Admissions, AdmissionError> {
    var request := row.body.request;
    if row.session !in a.sessions then Err(LoginRequired)
    else if Conflicts(a, row.session, row.target, request) then Err(OwnershipMismatch)
    else if request.requestId in a.rows && a.rows[request.requestId].body != row.body then Err(BodyChanged)
    else if request.requestId !in a.rows && |RowsOf(a, row.session)| >= ROW_LIMIT then Err(HistoryLimit)
    else Ok(a.(rows := a.rows[request.requestId := SavedRow(a, row)]))
  }

  function OwnsConversation(a: Admissions, session: Session, target: Target, conversation: nat): Result<bool, AdmissionError> {
    if session !in a.sessions then Err(LoginRequired)
    else if exists id :: id in a.rows && a.rows[id].body.request.conversation == conversation
                         && (a.rows[id].session != session || a.rows[id].target != target) then Err(OwnershipMismatch)
    else Ok(exists id :: id in a.rows && a.rows[id].body.request.conversation == conversation && a.rows[id].owned)
  }

  /** A login that expires takes its rows with it. */
  function Purged(a: Admissions, session: Session): Admissions {
    Admissions(a.sessions - {session}, map id | id in a.rows && a.rows[id].session != session :: a.rows[id])
  }

  class AdmissionStore {
    var sessions: set<Session>
    var rows: map<nat, Row>

    ghost function View(): Admissions
      reads this
    {
      Admissions(sessions, rows)
    }

    constructor ()
      ensures View() == Admissions({}, map[])
    {
      sessions, rows := {}, map[];
    }

    method ChatAdmission(session: Session, target: Target, requestId: nat) returns (r: Result<Option<Row>, AdmissionError>)
      ensures r == Admission(View(), session, target, requestId)
    {
      if session !in sessions { return Err(LoginRequired); }
      if requestId !in rows { return Ok(None); }
      var row := rows[requestId];
      if row.session != session || row.target != target { return Err(OwnershipMismatch); }
      return Ok(Some(row));
    }

    method SaveChatAdmission(row: Row) returns (error: Option<AdmissionError>)
      modifies this
      ensures match Saved(old(View()), row)
              case Err(e) => error == Some(e) && View() == old(View())
              case Ok(a) => error == None && View() == a
    {
      if row.session !in sessions { return Some(LoginRequired); }
      var request := row.body.request;
      var rest := rows.Keys;
      while rest != {}
        invariant rest <= rows.Keys
        invariant forall id :: id in rows.Keys - rest && Related(rows[id], request) ==>
                                 Compatible(rows[id], row.session, row.target, request)
        decreases |rest|
      {
        var id :| id in rest;
        if Related(rows[id], request) && !Compatible(rows[id], row.session, row.target, request) {
          return Some(OwnershipMismatch);
        }
        rest := rest - {id};
      }
      var previous := if request.requestId in rows then Some(rows[request.requestId]) else None;
      if previous.Some? && previous.value.body != row.body { return Some(BodyChanged); }
      var own := set id | id in rows && rows[id].session == row.session;
      assert own == RowsOf(View(), row.session);
      if previous.None? && |own| >= ROW_LIMIT { return Some(HistoryLimit); }
      var owned := row.owned || (previous.Some? && previous.value.owned);
      rows := rows[request.requestId := row.(owned := owned)];
      return None;
    }

    method OwnsChatConversation(session: Session, target: Target, conversation: nat) returns (r: Result<bool, AdmissionError>)
      ensures r == OwnsConversation(View(), session, target, conversation)
    {
      if session !in sessions { return Err(LoginRequired); }
      if exists id :: id in rows && rows[id].body.request.conversation == conversation
                      && (rows[id].session != session || rows[id].target != target) {
        return Err(OwnershipMismatch);
      }
      return Ok(exists id :: id in rows && rows[id].body.request.conversation == conversation && rows[id].owned);
    }

    method Purge(session: Session)
      modifies this
      ensures View() == Purged(old(View()), session)
    {
      sessions := sessions - {session};
      rows := map id | id in rows && rows[id].session != session :: rows[id];
    }
  }
}
