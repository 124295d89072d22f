/** What the console relay gets done: a new turn is sent, and a turn that the upstream never saw is sent again. */
module AdmissionProgress {
  import opened Outcomes
  import opened ChatAdmissions
  import opened AdmissionRuns

  // ----- The rows ----------------------------------------------------------------------------

  /** No row stands in the way of a row of this login and target for this request. */
  predicate IsUndisputed(a: Admissions, session: Session, target: Target, request: Request) {
    forall id :: id in a.rows ==>
      var other := a.rows[id].body.request;
      && (other.conversation == request.conversation ==> a.rows[id].session == session && a.rows[id].target == target)
      && (other.turn == request.turn || other.requestId == request.requestId ==>
            && a.rows[id].session == session && a.rows[id].target == target
            && other.requestId == request.requestId && other.turn == request.turn && other.conversation == request.conversation)
  }

  /** A row is stored exactly when its login lives, nothing stands in its way, its body is not another one, and there is room. */
  lemma {:induction false} WhenARowIsSaved(a: Admissions, row: Row)
    ensures var (r, id) := (Saved(a, row), row.body.request.requestId);
      && (r.Ok? <==>
            && row.session in a.sessions && IsUndisputed(a, row.session, row.target, row.body.request)
            && (if id in a.rows then a.rows[id].body == row.body else |RowsOf(a, row.session)| < 256))
      && (r.Ok? ==>
            && id in r.value.rows && r.value == a.(rows := a.rows[id := r.value.rows[id]])
            && r.value.rows[id] == row.(owned := row.owned || (id in a.rows && a.rows[id].owned)))
  {
    hide RowsOf;
    forall id | id in a.rows
      ensures var other := a.rows[id].body.request;
        (Related(a.rows[id], row.body.request) ==> Compatible(a.rows[id], row.session, row.target, row.body.request))
        <==> && (other.conversation == row.body.request.conversation ==> a.rows[id].session == row.session && a.rows[id].target == row.target)
             && (other.turn == row.body.request.turn || other.requestId == row.body.request.requestId ==>
                   && a.rows[id].session == row.session && a.rows[id].target == row.target
                   && other.requestId == row.body.request.requestId && other.turn == row.body.request.turn
                   && other.conversation == row.body.request.conversation)
    {
    }
  }

  /** A stored row is read back by its login and target, and by no other. */
  lemma {:induction false} SavedRowIsReadBack(a: Admissions, row: Row, session: Session, target: Target)
    requires Saved(a, row).Ok? && session in a.sessions
    ensures var (n, id) := (Saved(a, row).value, row.body.request.requestId);
      Admission(n, session, target, id)
      == if session == row.session && target == row.target then Ok(Some(n.rows[id])) else Err(OwnershipMismatch)
  {
    hide Conflicts, RowsOf;
  }

  /** An expired login leaves nothing behind, and takes nothing from anybody else. */
  lemma {:induction false} ExpiredLoginLeavesNothing(a: Admissions, session: Session)
    ensures var n := Purged(a, session);
      && n.sessions == a.sessions - {session}
      && (forall id :: id in n.rows <==> id in a.rows && a.rows[id].session != session)
      && (forall id :: id in n.rows ==> n.rows[id] == a.rows[id])
  {
  }

  // ----- Sending -----------------------------------------------------------------------------

  /** These steps can be taken one after another. */
  function Through(w: World, steps: seq<Action>): Option<World>
    decreases |steps|
  {
    if steps == [] then Some(w)
    else if !Allowed(w, steps[0]) then None
    else Through(After(w, steps[0]), steps[1..])
  }

  function Sending(context: Option<string>): seq<Action> {
    [Compose(context), Freeze(true), CheckOwner, PutConversation(Success, true), MarkReadable(true), SendTurn]
  }

  lemma {:induction false} OneStep(w: World, a: Action, rest: seq<Action>)
    requires Allowed(w, a)
    ensures Through(w, [a] + rest) == Through(After(w, a), rest)
  {
    hide Allowed, After;
    assert ([a] + rest)[0] == a && ([a] + rest)[1..] == rest;
  }

  /** Some row of this conversation records that this console created it. */
  predicate IsOurs(a: Admissions, conversation: nat) {
    exists id :: id in a.rows && a.rows[id].body.request.conversation == conversation && a.rows[id].owned
  }

  function BodyFor(w: World, call: Call, context: Option<string>): Body {
    if !w.live then Body(call.request, None)
    else if call.prior.Some? then call.prior.value.body
    else Body(call.request, context)
  }

  /** The row may be written with this body, and the conversation is a new one or ours. */
  predicate MaySend(w: World, call: Call, body: Body) {
    var (a, id) := (w.admissions, call.request.requestId);
    && call.session in a.sessions && body.request == call.request && IsUndisputed(a, call.session, w.target, call.request)
    && (if id in a.rows then a.rows[id].body == body && call.prior == Some(a.rows[id])
        else call.prior == None && |RowsOf(a, call.session)| < 256)
    && (call.request.conversation in w.creators ==> IsOurs(a, call.request.conversation))
  }

  /** A row of our own request changes nothing about what stands in its way. */
  lemma {:induction false} StillUndisputed(a: Admissions, row: Row, id: nat)
    requires IsUndisputed(a, row.session, row.target, row.body.request) && id == row.body.request.requestId
    ensures IsUndisputed(a.(rows := a.rows[id := row]), row.session, row.target, row.body.request)
  {
  }

  lemma {:induction false} FreezeGoesThrough(w: World)
    requires w.phase.Composed? && MaySend(w, w.phase.call, w.phase.body)
    ensures var (call, body) := (w.phase.call, w.phase.body);
      var row := RowFor(w, call, body, PriorReadable(call), PriorOwned(call));
      After(w, Freeze(true)) == w.(admissions := w.admissions.(rows := w.admissions.rows[call.request.requestId := row]), phase := Frozen(call, body))
  {
    hide Saved, IsUndisputed, RowsOf;
    var (call, body) := (w.phase.call, w.phase.body);
    WhenARowIsSaved(w.admissions, RowFor(w, call, body, PriorReadable(call), PriorOwned(call)));
  }

  lemma {:induction false} OwnerCheckGoesThrough(w: World)
    requires w.phase.Frozen? && w.phase.call.session in w.admissions.sessions
    requires IsUndisputed(w.admissions, w.phase.call.session, w.target, w.phase.call.request)
    ensures var (call, body) := (w.phase.call, w.phase.body);
      After(w, CheckOwner) == w.(phase := Checked(call, body, IsOurs(w.admissions, call.request.conversation)))
  {
  }

  lemma {:induction false} MarkGoesThrough(w: World)
    requires w.phase.Reached? && w.phase.call.session in w.admissions.sessions && w.phase.body.request == w.phase.call.request
    requires IsUndisputed(w.admissions, w.phase.call.session, w.target, w.phase.call.request)
    requires var id := w.phase.call.request.requestId; id in w.admissions.rows && w.admissions.rows[id].body == w.phase.body
    ensures var (call, body) := (w.phase.call, w.phase.body);
      After(w, MarkReadable(true))
      == w.(admissions := w.admissions.(rows := w.admissions.rows[call.request.requestId := RowFor(w, call, body, true, true)]),
            phase := Marked(call, body))
  {
    hide Saved, IsUndisputed, RowsOf;
    WhenARowIsSaved(w.admissions, RowFor(w, w.phase.call, w.phase.body, true, true));
  }

  lemma {:induction false} StillOurs(a: Admissions, row: Row, id: nat)
    requires id in a.rows ==> a.rows[id].body.request.conversation == row.body.request.conversation && (a.rows[id].owned ==> row.owned)
    ensures IsOurs(a, row.body.request.conversation) ==> IsOurs(a.(rows := a.rows[id := row]), row.body.request.conversation)
  {
    var n := a.(rows := a.rows[id := row]);
    if j :| j in a.rows && a.rows[j].body.request.conversation == row.body.request.conversation && a.rows[j].owned {
      assert j in n.rows && n.rows[j].owned && n.rows[j].body.request.conversation == row.body.request.conversation;
    }
  }

  /** What sending leaves behind: the readable row of the very body that is on its way. */
  predicate IsSent(w: World, n: World, call: Call, body: Body) {
    && n.phase == Sent(call, body) && n.target == w.target
    && n.admissions == w.admissions.(rows := w.admissions.rows[call.request.requestId := Row(call.session, w.target, body, true, true)])
    && call.request.conversation in n.creators
  }

  lemma {:induction false} SendingGoesThrough(w: World, context: Option<string>)
    requires w.phase.Cleared? && MaySend(w, w.phase.call, BodyFor(w, w.phase.call, context))
    ensures Through(w, Sending(context)).Some?
    ensures IsSent(w, Through(w, Sending(context)).value, w.phase.call, BodyFor(w, w.phase.call, context))
  {
    hide Allowed, After, Through, IsUndisputed, RowsOf, IsOurs;
    var (call, body) := (w.phase.call, BodyFor(w, w.phase.call, context));
    var id := call.request.requestId;
    var row := RowFor(w, call, body, PriorReadable(call), PriorOwned(call));
    var w1 := w.(phase := Composed(call, body));
    var w2 := w.(admissions := w.admissions.(rows := w.admissions.rows[id := row]), phase := Frozen(call, body));
    var known := IsOurs(w2.admissions, call.request.conversation);
    var w3 := w2.(phase := Checked(call, body, known));
    var w4 := Created(w3, call.session, call.request.conversation).(phase := Reached(call, body));
    var done := RowFor(w, call, body, true, true);
    var w5 := w4.(admissions := w4.admissions.(rows := w4.admissions.rows[id := done]), phase := Marked(call, body));
    var w6 := w5.(phase := Sent(call, body));
    FreezeGoesThrough(w1);
    StillUndisputed(w.admissions, row, id);
    OwnerCheckGoesThrough(w2);
    StillOurs(w.admissions, row, id);
    MarkGoesThrough(w4);
    assert w.admissions.rows[id := row][id := done] == w.admissions.rows[id := done];
    SendingSteps(w, context, w1, w2, w3, w4, w5, w6);
  }

  lemma {:induction false} SendingSteps(
    w: World, context: Option<string>, w1: World, w2: World, w3: World, w4: World, w5: World, w6: World)
    requires w.phase.Cleared? && w1 == w.(phase := Composed(w.phase.call, BodyFor(w, w.phase.call, context)))
    requires After(w1, Freeze(true)) == w2 && w2.phase.Frozen? && After(w2, CheckOwner) == w3 && w3.phase.Checked?
    requires w3.phase.call.request.conversation in w3.creators ==> w3.phase.known
    requires w4 == Created(w3, w3.phase.call.session, w3.phase.call.request.conversation).(phase := Reached(w3.phase.call, w3.phase.body))
    requires After(w4, MarkReadable(true)) == w5 && w5.phase.Marked? && w6 == w5.(phase := Sent(w5.phase.call, w5.phase.body))
    ensures Through(w, Sending(context)) == Some(w6)
  {
    hide Through, FrozenWith, OwnerChecked, ReadableMarked, Wrote, Tried, OwnsConversation;
    OneStep(w, Compose(context), [Freeze(true), CheckOwner, PutConversation(Success, true), MarkReadable(true), SendTurn]);
    OneStep(w1, Freeze(true), [CheckOwner, PutConversation(Success, true), MarkReadable(true), SendTurn]);
    OneStep(w2, CheckOwner, [PutConversation(Success, true), MarkReadable(true), SendTurn]);
    OneStep(w3, PutConversation(Success, true), [MarkReadable(true), SendTurn]);
    OneStep(w4, MarkReadable(true), [SendTurn]);
    OneStep(w5, SendTurn, []);
    Stopped(w6);
    assert [Compose(context)] + [Freeze(true), CheckOwner, PutConversation(Success, true), MarkReadable(true), SendTurn] == Sending(context);
    assert [Freeze(true)] + [CheckOwner, PutConversation(Success, true), MarkReadable(true), SendTurn]
        == [Freeze(true), CheckOwner, PutConversation(Success, true), MarkReadable(true), SendTurn];
    assert [CheckOwner] + [PutConversation(Success, true), MarkReadable(true), SendTurn]
        == [CheckOwner, PutConversation(Success, true), MarkReadable(true), SendTurn];
    assert [PutConversation(Success, true)] + [MarkReadable(true), SendTurn] == [PutConversation(Success, true), MarkReadable(true), SendTurn];
    assert [MarkReadable(true)] + [SendTurn] == [MarkReadable(true), SendTurn] && [SendTurn] + [] == [SendTurn];
  }

  lemma {:induction false} Stopped(w: World)
    ensures Through(w, []) == Some(w)
  {
  }

  /**
   A new request of a living login, into a new conversation or one of its own, with nothing in its
   way: it is sent, with the context current at that moment when the target is a live one, from a
   durable readable row of that very body.
   */
  lemma {:induction false} NewTurnIsSent(w: World, session: Session, request: Request, context: Option<string>)
    requires w.phase.Idle? && session in w.admissions.sessions && request.requestId !in w.admissions.rows
    requires IsUndisputed(w.admissions, session, w.target, request) && |RowsOf(w.admissions, session)| < 256
    requires request.conversation in w.creators ==> IsOurs(w.admissions, request.conversation)
    ensures var n := Through(w, [Open(session, request), Skip] + Sending(context));
      n.Some? && IsSent(w, n.value, Call(session, request, None, false), Body(request, if w.live then context else None))
  {
    hide Through, IsUndisputed, RowsOf, IsOurs;
    var call := Call(session, request, None, false);
    var (w1, w2) := (w.(phase := Fetched(call)), w.(phase := Cleared(call)));
    OneStep(w, Open(session, request), [Skip] + Sending(context));
    OneStep(w1, Skip, Sending(context));
    assert [Open(session, request), Skip] + Sending(context) == [Open(session, request)] + ([Skip] + Sending(context));
    SendingGoesThrough(w2, context);
  }

  /**
   A turn whose row is readable and for which the upstream answers 404 is sent again, with the
   frozen body of its first send, whatever the context is now.
   */
  lemma {:induction false} AbsentTurnIsSentAgain(w: World, session: Session, request: Request, context: Option<string>)
    requires w.phase.Idle? && session in w.admissions.sessions && request.requestId in w.admissions.rows
    requires var row := w.admissions.rows[request.requestId];
      && row.session == session && row.target == w.target && row.body.request == request && row.readable
      && (!w.live ==> row.body.context == None)
    requires IsUndisputed(w.admissions, session, w.target, request)
    requires request.conversation in w.creators ==> IsOurs(w.admissions, request.conversation)
    ensures var (row, n) := (w.admissions.rows[request.requestId], Through(w, [Open(session, request), Ask(Missing)] + Sending(context)));
      n.Some? && IsSent(w, n.value, Call(session, request, Some(row), true), row.body)
  {
    hide Through, IsUndisputed, RowsOf, IsOurs;
    var row := w.admissions.rows[request.requestId];
    var (w1, w2) := (w.(phase := Fetched(Call(session, request, Some(row), false))),
                     w.(phase := Cleared(Call(session, request, Some(row), true))));
    OneStep(w, Open(session, request), [Ask(Missing)] + Sending(context));
    OneStep(w1, Ask(Missing), Sending(context));
    assert [Open(session, request), Ask(Missing)] + Sending(context) == [Open(session, request)] + ([Ask(Missing)] + Sending(context));
    SendingGoesThrough(w2, context);
  }

  /**
   A turn whose row is not readable, because its earlier send was refused or never began, is sent
   again without asking, with the frozen body.
   */
  lemma {:induction false} UnreadTurnIsSentAgain(w: World, session: Session, request: Request, context: Option<string>)
    requires w.phase.Idle? && session in w.admissions.sessions && request.requestId in w.admissions.rows
    requires var row := w.admissions.rows[request.requestId];
      && row.session == session && row.target == w.target && row.body.request == request && !row.readable
      && (!w.live ==> row.body.context == None)
    requires IsUndisputed(w.admissions, session, w.target, request)
    requires request.conversation in w.creators ==> IsOurs(w.admissions, request.conversation)
    ensures var (row, n) := (w.admissions.rows[request.requestId], Through(w, [Open(session, request), Skip] + Sending(context)));
      n.Some? && IsSent(w, n.value, Call(session, request, Some(row), false), row.body)
  {
    hide Through, IsUndisputed, RowsOf, IsOurs;
    var call := Call(session, request, Some(w.admissions.rows[request.requestId]), false);
    var (w1, w2) := (w.(phase := Fetched(call)), w.(phase := Cleared(call)));
    OneStep(w, Open(session, request), [Skip] + Sending(context));
    OneStep(w1, Skip, Sending(context));
    assert [Open(session, request), Skip] + Sending(context) == [Open(session, request)] + ([Skip] + Sending(context));
    SendingGoesThrough(w2, context);
  }

  /** A refusal gives the row back the readability that it had before the send; any other reply leaves it readable. */
  lemma {:induction false} WhatAReplyRecords(w: World, reply: Reply)
    requires w.phase.Sent? && w.phase.call.session in w.admissions.sessions && w.phase.body.request == w.phase.call.request
    requires IsUndisputed(w.admissions, w.phase.call.session, w.target, w.phase.call.request)
    requires var id := w.phase.call.request.requestId; id in w.admissions.rows && w.admissions.rows[id].body == w.phase.body
    ensures var (call, body) := (w.phase.call, w.phase.body);
      var readable := reply.Definite? ==> call.prior.Some? && call.prior.value.readable;
      After(w, Receive(reply, true))
      == w.(admissions := w.admissions.(rows :=
              w.admissions.rows[call.request.requestId := Row(call.session, w.target, body, readable, true)]), phase := Idle)
  {
    hide Saved, IsUndisputed, RowsOf;
    var (call, body) := (w.phase.call, w.phase.body);
    WhenARowIsSaved(w.admissions, RowFor(w, call, body, true, true));
    WhenARowIsSaved(w.admissions, RowFor(w, call, body, PriorReadable(call), true));
  }
}
