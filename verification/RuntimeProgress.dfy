/** What the chat runtime gets done on its own: a new turn is started, emitted and finished by one task. */
module RuntimeProgress {
  import opened Outcomes
  import opened TurnLog
  import opened TurnStore
  import opened RuntimeTurns
  import opened StoredAnswers

  /** These steps can be taken one after another. */
  function Through(w: World, steps: seq<Action>): Option<World>
    decreases |steps|
  {
    if steps == [] then Some(w)
    else if !Allowed(w, steps[0]) then None
    else Through(After(w, steps[0]), steps[1..])
  }

  lemma {:induction false} OneStep(w: World, a: Action, rest: seq<Action>)
    requires Allowed(w, a)
    ensures Through(w, [a] + rest) == Through(After(w, a), rest)
  {
    hide Allowed, After;
    assert ([a] + rest)[0] == a && ([a] + rest)[1..] == rest;
  }

  lemma {:induction false} NoStep(w: World)
    ensures Through(w, []) == Some(w)
  {
  }

  /** The runtime works under a live lease of its own and the store has room for this turn. */
  predicate HasRoom(w: World, tid: nat, request: Request, now: int, limits: Limits) {
    && w.healthy && w.db.lease.Some? && w.db.lease.value.owner == w.owner && now < w.db.lease.value.expires
    && NamesRecipient(w.db, request) && tid !in w.db.rows && IsFree(w.db.rows, request.conversation) && !w.db.paused
    && |RecentTurns(w.db.rows, now)| < limits.daily && |ActiveTurns(w.db.rows)| < limits.active
    && tid !in w.tasks && StartsDecided(w, tid)
  }

  function Admitting(tid: nat, request: Request, now: int, limits: Limits): seq<Action> {
    [Accept(tid, request), Look(tid, Answered), Prepare(tid, true), CallStart(tid, Answered, now, limits)]
  }

  /** A new turn with nothing in its way gets its open row and a running task, and nothing else changes. */
  lemma {:induction false} NewTurnIsStarted(w: World, tid: nat, request: Request, now: int, limits: Limits)
    requires HasRoom(w, tid, request, now, limits)
    ensures var n := Through(w, Admitting(tid, request, now, limits));
      && n.Some? && n.value == w.(db := n.value.db, tasks := w.tasks[tid := Task(request, Running, false, false)])
      && n.value.db.rows.Keys == w.db.rows.Keys + {tid} && n.value.db == w.db.(rows := n.value.db.rows)
      && (forall t :: t in w.db.rows ==> n.value.db.rows[t] == w.db.rows[t])
      && var row := n.value.db.rows[tid];
      && row.request == request && row.events == [] && row.turn == Turn(tid, request.message, Processing, None, [], None, 0)
  {
    hide Through, Started, RecentTurns, ActiveTurns;
    WhenATurnIsAdmitted(w.db, tid, request, w.owner, now, limits);
    AdmittingSteps(w, tid, request, now, limits);
  }

  function InTask(w: World, tid: nat, request: Request, phase: Phase): World {
    w.(tasks := w.tasks[tid := Task(request, phase, false, false)])
  }

  lemma {:induction false} LookAndPrepare(w: World, tid: nat, request: Request)
    requires w.healthy && tid !in w.tasks && NamesRecipient(w.db, request) && tid !in w.db.rows
    ensures Allowed(w, Accept(tid, request)) && After(w, Accept(tid, request)) == InTask(w, tid, request, Looking)
    ensures var w1 := InTask(w, tid, request, Looking);
      Allowed(w1, Look(tid, Answered)) && After(w1, Look(tid, Answered)) == InTask(w, tid, request, Preparing)
    ensures var w2 := InTask(w, tid, request, Preparing);
      Allowed(w2, Prepare(tid, true)) && After(w2, Prepare(tid, true)) == InTask(w, tid, request, Starting(0, false))
  {
    assert InTask(w, tid, request, Looking).tasks[tid := Task(request, Preparing, false, false)] == InTask(w, tid, request, Preparing).tasks;
    assert InTask(w, tid, request, Preparing).tasks[tid := Task(request, Starting(0, false), false, false)]
        == InTask(w, tid, request, Starting(0, false)).tasks;
  }

  lemma {:induction false} StartIsAnswered(w: World, tid: nat, request: Request, now: int, limits: Limits)
    requires StartsDecided(w, tid)
    requires var (d, r) := Started(w.db, tid, request, w.owner, now, limits);
      r.Ok? && r.value.1 && r.value.0.status.Processing? && d.lease == w.db.lease
    ensures var (w3, a) := (InTask(w, tid, request, Starting(0, false)), CallStart(tid, Answered, now, limits));
      && Allowed(w3, a)
      && After(w3, a) == InTask(w.(db := Started(w.db, tid, request, w.owner, now, limits).0), tid, request, Running)
  {
    hide Started;
    var w3 := InTask(w, tid, request, Starting(0, false));
    assert StartsDecided(w3, tid);
    assert w3.tasks[tid := Task(request, Running, false, false)] == InTask(w, tid, request, Running).tasks;
  }

  lemma {:induction false} AdmittingSteps(w: World, tid: nat, request: Request, now: int, limits: Limits)
    requires w.healthy && tid !in w.tasks && StartsDecided(w, tid) && NamesRecipient(w.db, request) && tid !in w.db.rows
    requires var (d, r) := Started(w.db, tid, request, w.owner, now, limits);
      r.Ok? && r.value.1 && r.value.0.status.Processing? && d.lease == w.db.lease
    ensures Through(w, Admitting(tid, request, now, limits))
            == Some(InTask(w.(db := Started(w.db, tid, request, w.owner, now, limits).0), tid, request, Running))
  {
    hide Through, Started, After, Allowed, InTask;
    var (a1, a2, a3, a4) := (Accept(tid, request), Look(tid, Answered), Prepare(tid, true), CallStart(tid, Answered, now, limits));
    LookAndPrepare(w, tid, request);
    StartIsAnswered(w, tid, request, now, limits);
    OneStep(w, a1, [a2, a3, a4]);
    OneStep(InTask(w, tid, request, Looking), a2, [a3, a4]);
    OneStep(InTask(w, tid, request, Preparing), a3, [a4]);
    OneStep(InTask(w, tid, request, Starting(0, false)), a4, []);
    NoStep(InTask(w.(db := Started(w.db, tid, request, w.owner, now, limits).0), tid, request, Running));
    assert [a1] + [a2, a3, a4] == Admitting(tid, request, now, limits) && [a2] + [a3, a4] == [a2, a3, a4];
    assert [a3] + [a4] == [a3, a4] && [a4] + [] == [a4];
  }

  /**
   A running task whose lease still lives finishes its turn: the row is closed with the status it
   reached, its closing event says so, and the task is over.
   */
  lemma {:induction false} RunningTurnIsFinished(w: World, tid: nat, status: Status, error: string, now: int)
    requires tid in w.tasks && w.tasks[tid].phase.Running? && status != Processing
    requires w.db.lease.Some? && w.db.lease.value.owner == w.owner && now < w.db.lease.value.expires
    requires tid in w.db.rows && w.db.rows[tid].turn.status == Processing
    requires w.db.rows[tid].request.conversation == w.tasks[tid].request.conversation
    ensures var n := Through(w, [Generated(tid), Finish(tid, status, error, Answered, now)]);
      && n.Some? && tid in n.value.db.rows && tid !in n.value.tasks && n.value.healthy == w.healthy
      && var (before, after) := (w.db.rows[tid], n.value.db.rows[tid]);
      && after.turn.status == status && after.turn.progress == None && after.turn.blocks == before.turn.blocks
      && (status == Failed ==> after.turn.error == Some(error))
      && after.events == before.events + [Event(before.turn.lastEventId + 1, Finished(after.turn))]
  {
    hide Through, Emitted, IsFitting, IsTakenUp, Allowed, After;
    var (a1, a2) := (Generated(tid), Finish(tid, status, error, Answered, now));
    var emission := EmitFinish(status, Some(error));
    TerminalFits(w.db.rows[tid].turn, status, error);
    var conversation := w.tasks[tid].request.conversation;
    WhenAnEmissionIsStored(w.db, conversation, tid, emission, w.owner, now);
    StoredEmission(w.db, conversation, tid, emission, w.owner, now);
    FinishIsAnswered(w, tid, status, error, now);
    var d := Emitted(w.db, conversation, tid, emission, w.owner, now).0;
    OneStep(w, a1, [a2]);
    OneStep(After(w, a1), a2, []);
    NoStep(w.(db := d, tasks := w.tasks - {tid}));
    assert [a1] + [a2] == [a1, a2] && [a2] + [] == [a2];
    TakenUpFinish(w.db.rows[tid], d.rows[tid], status, error);
  }

  lemma {:induction false} TakenUpFinish(before: Row, after: Row, status: Status, error: string)
    requires |after.events| == |before.events| + 1 && before.events <= after.events
    requires var e := after.events[|before.events|];
      e.id == before.turn.lastEventId + 1 && IsTakenUp(before.turn, EmitFinish(status, Some(error)), after.turn, e.payload)
    ensures after.turn.status == status && after.turn.progress == None && after.turn.blocks == before.turn.blocks
    ensures status == Failed ==> after.turn.error == Some(error)
    ensures after.events == before.events + [Event(before.turn.lastEventId + 1, Finished(after.turn))]
  {
    assert after.events == before.events + [after.events[|before.events|]];
  }

  lemma {:induction false} FinishIsAnswered(w: World, tid: nat, status: Status, error: string, now: int)
    requires tid in w.tasks && w.tasks[tid].phase.Running? && status != Processing
    requires var (d, r) := Emitted(w.db, w.tasks[tid].request.conversation, tid, EmitFinish(status, Some(error)), w.owner, now);
      r == Ok(true) && d.lease == w.db.lease
    ensures var (a1, a2) := (Generated(tid), Finish(tid, status, error, Answered, now));
      && Allowed(w, a1) && Allowed(After(w, a1), a2)
      && After(After(w, a1), a2)
         == w.(db := Emitted(w.db, w.tasks[tid].request.conversation, tid, EmitFinish(status, Some(error)), w.owner, now).0,
               tasks := w.tasks - {tid})
  {
    hide Emitted;
    var w1 := After(w, Generated(tid));
    assert w1.tasks - {tid} == w.tasks - {tid};
  }

  lemma {:induction false} TerminalFits(turn: Turn, status: Status, error: string)
    requires status != Processing
    ensures IsFitting(turn, EmitFinish(status, Some(error)))
  {
  }

  /**
   A user's cancellation of an open turn that is answered: the turn is closed as cancelled, and the
   task that was running it ends, leaving the runtime as healthy as it was.
   */
  lemma {:induction false} CancelledTurnIsClosed(w: World, tid: nat, now: int)
    requires tid in w.tasks && w.tasks[tid].phase.Running?
    requires w.db.lease.Some? && w.db.lease.value.owner == w.owner && now < w.db.lease.value.expires
    requires tid in w.db.rows && w.db.rows[tid].turn.status == Processing
    requires w.db.rows[tid].request.conversation == w.tasks[tid].request.conversation
    ensures var n := Through(w, [UserCancel(tid, w.tasks[tid].request, Answered, now), CancelHits(tid)]);
      && n.Some? && n.value == w.(db := n.value.db, tasks := w.tasks - {tid}) && tid in n.value.db.rows
      && var (before, after) := (w.db.rows[tid], n.value.db.rows[tid]);
      && after.turn.status == Cancelled && after.turn.progress == None && after.turn.blocks == before.turn.blocks
      && after.events == before.events + [Event(before.turn.lastEventId + 1, Finished(after.turn))]
  {
    hide Through, Emitted, IsFitting, IsTakenUp, Allowed, After;
    var request := w.tasks[tid].request;
    var (a1, a2, emission) := (UserCancel(tid, request, Answered, now), CancelHits(tid), EmitFinish(Cancelled, None));
    CancelFits(w.db.rows[tid].turn);
    WhenAnEmissionIsStored(w.db, request.conversation, tid, emission, w.owner, now);
    StoredEmission(w.db, request.conversation, tid, emission, w.owner, now);
    CancelIsAnswered(w, tid, now);
    var d := Emitted(w.db, request.conversation, tid, emission, w.owner, now).0;
    OneStep(w, a1, [a2]);
    OneStep(After(w, a1), a2, []);
    NoStep(w.(db := d, tasks := w.tasks - {tid}));
    assert [a1] + [a2] == [a1, a2] && [a2] + [] == [a2];
    TakenUpCancel(w.db.rows[tid], d.rows[tid]);
  }

  lemma {:induction false} CancelFits(turn: Turn)
    ensures IsFitting(turn, EmitFinish(Cancelled, None))
  {
  }

  lemma {:induction false} TakenUpCancel(before: Row, after: Row)
    requires |after.events| == |before.events| + 1 && before.events <= after.events
    requires var e := after.events[|before.events|];
      e.id == before.turn.lastEventId + 1 && IsTakenUp(before.turn, EmitFinish(Cancelled, None), after.turn, e.payload)
    ensures after.turn.status == Cancelled && after.turn.progress == None && after.turn.blocks == before.turn.blocks
    ensures after.events == before.events + [Event(before.turn.lastEventId + 1, Finished(after.turn))]
  {
    assert after.events == before.events + [after.events[|before.events|]];
  }

  lemma {:induction false} CancelIsAnswered(w: World, tid: nat, now: int)
    requires tid in w.tasks && w.tasks[tid].phase.Running?
    requires var (d, r) := Emitted(w.db, w.tasks[tid].request.conversation, tid, EmitFinish(Cancelled, None), w.owner, now);
      r == Ok(true) && d.lease == w.db.lease
    ensures var (a1, a2) := (UserCancel(tid, w.tasks[tid].request, Answered, now), CancelHits(tid));
      && Allowed(w, a1) && Allowed(After(w, a1), a2)
      && After(After(w, a1), a2)
         == w.(db := Emitted(w.db, w.tasks[tid].request.conversation, tid, EmitFinish(Cancelled, None), w.owner, now).0,
               tasks := w.tasks - {tid})
  {
    hide Emitted;
    var w1 := After(w, UserCancel(tid, w.tasks[tid].request, Answered, now));
    assert w1.tasks - {tid} == w.tasks - {tid};
  }

  // ----- Recovery ----------------------------------------------------------------------------

  /** A rotation from the expected holder takes the column and closes every open turn. */
  lemma {:induction false} RotationTakesOver(db: Db, next: Owner, now: int)
    requires Column(db.lease) != Some(next)
    ensures var (d, ok) := Rotated(db, Column(db.lease), next, false, now);
      && ok && d.lease == Some(Lease(next, now + 40)) && d.rows.Keys == db.rows.Keys
      && forall t :: t in d.rows ==> d.rows[t].turn.status != Processing
  {
    WhenARotationIsAnswered(db, Column(db.lease), next, false, now);
  }

  /**
   A runtime that asked for recovery and still holds the lease column: with its tasks gone, one beat
   whose rotation is answered makes it healthy again, under a new token, over closed turns only.
   */
  lemma {:induction false} RecoveryGoesThrough(w: World, next: Owner, now: int)
    requires w.beat.Sleeping? && !w.healthy && w.owned && w.pending.None? && w.tasks == map[] && Fresh(w, next)
    requires Column(w.db.lease) == Some(w.owner) && w.owner != next
    ensures var n := Through(w, [BeatStarts(false), TasksStopped(next), Rotate(Answered, now)]);
      && n.Some? && n.value.healthy && n.value.owner == next && n.value.recovered == n.value.version && n.value.beat.Sleeping?
      && n.value.db.lease == Some(Lease(next, now + 40)) && n.value.db.rows.Keys == w.db.rows.Keys
      && forall t :: t in n.value.db.rows ==> n.value.db.rows[t].turn.status != Processing
  {
    hide Through, Rotated, Column, After, Allowed;
    RotationTakesOver(w.db, next, now);
    var (a1, a2, a3) := (BeatStarts(false), TasksStopped(next), Rotate(Answered, now));
    BeatProposes(w, next);
    var w2 := After(After(w, a1), a2);
    ProposalIsAnswered(w2, now);
    OneStep(w, a1, [a2, a3]);
    OneStep(After(w, a1), a2, [a3]);
    OneStep(w2, a3, []);
    NoStep(After(w2, a3));
    assert [a1] + [a2, a3] == [a1, a2, a3] && [a2] + [a3] == [a2, a3] && [a3] + [] == [a3];
  }

  lemma {:induction false} BeatProposes(w: World, next: Owner)
    requires w.beat.Sleeping? && !w.healthy && w.owned && w.pending.None? && w.tasks == map[] && Fresh(w, next)
    ensures Allowed(w, BeatStarts(false)) && Allowed(After(w, BeatStarts(false)), TasksStopped(next))
    ensures var w2 := After(After(w, BeatStarts(false)), TasksStopped(next));
      w2.beat.Rotating? && w2.db == w.db && w2.version == w.version && w2.pending == Some(Pending(Some(w.owner), next, false, w.version))
  {
  }

  lemma {:induction false} ProposalIsAnswered(w: World, now: int)
    requires w.beat.Rotating? && w.pending.Some? && w.pending.value.version == w.version
    requires var p := w.pending.value; Rotated(w.db, p.expected, p.next, p.claim, now).1
    ensures Allowed(w, Rotate(Answered, now))
    ensures var (n, p) := (After(w, Rotate(Answered, now)), w.pending.value);
      && n.healthy && n.owner == p.next && n.recovered == n.version && n.beat.Sleeping?
      && n.db == Rotated(w.db, p.expected, p.next, p.claim, now).0
  {
    hide Rotated;
  }

  /** The column is taken by a claim when nobody holds it or the lease has expired, and every open turn is closed. */
  lemma {:induction false} ClaimTakesOver(db: Db, next: Owner, now: int)
    requires Column(db.lease) != Some(next) && (db.lease.Some? ==> db.lease.value.expires <= now)
    ensures var (d, ok) := Rotated(db, Column(db.lease), next, true, now);
      && ok && d.lease == Some(Lease(next, now + 40)) && d.rows.Keys == db.rows.Keys
      && forall t :: t in d.rows ==> d.rows[t].turn.status != Processing
  {
    WhenARotationIsAnswered(db, Column(db.lease), next, true, now);
  }

  /** A runtime that owns nothing yet, or has lost its lease, claims an expired one in one answered beat. */
  lemma {:induction false} ClaimGoesThrough(w: World, next: Owner, skipped: Owner, now: int)
    requires w.beat.Sleeping? && !w.healthy && !w.owned && w.pending.None? && w.tasks == map[] && Fresh(w, next) && Fresh(w, skipped)
    requires Column(w.db.lease) != Some(next) && (w.db.lease.Some? ==> w.db.lease.value.expires <= now)
    ensures var n := Through(w, [BeatStarts(false), TasksStopped(skipped), Observe(next, now, Answered), Rotate(Answered, now)]);
      && n.Some? && n.value.healthy && n.value.owner == next && n.value.recovered == n.value.version
      && n.value.db.lease == Some(Lease(next, now + 40))
      && forall t :: t in n.value.db.rows ==> n.value.db.rows[t].turn.status != Processing
  {
    hide Through, Rotated, Column, After, Allowed;
    ClaimTakesOver(w.db, next, now);
    var (a1, a2, a3, a4) := (BeatStarts(false), TasksStopped(skipped), Observe(next, now, Answered), Rotate(Answered, now));
    BeatClaims(w, next, skipped, now);
    var w2 := After(After(w, a1), a2);
    var w3 := After(w2, a3);
    ProposalIsAnswered(w3, now);
    OneStep(w, a1, [a2, a3, a4]);
    OneStep(After(w, a1), a2, [a3, a4]);
    OneStep(w2, a3, [a4]);
    OneStep(w3, a4, []);
    NoStep(After(w3, a4));
    assert [a1] + [a2, a3, a4] == [a1, a2, a3, a4] && [a2] + [a3, a4] == [a2, a3, a4] && [a3] + [a4] == [a3, a4] && [a4] + [] == [a4];
  }

  lemma {:induction false} BeatClaims(w: World, next: Owner, skipped: Owner, now: int)
    requires w.beat.Sleeping? && !w.healthy && !w.owned && w.pending.None? && w.tasks == map[] && Fresh(w, next) && Fresh(w, skipped)
    requires w.db.lease.Some? ==> w.db.lease.value.expires <= now
    ensures Allowed(w, BeatStarts(false)) && Allowed(After(w, BeatStarts(false)), TasksStopped(skipped))
    ensures var w2 := After(After(w, BeatStarts(false)), TasksStopped(skipped));
      && Allowed(w2, Observe(next, now, Answered))
      && var w3 := After(w2, Observe(next, now, Answered));
      && w3.beat.Rotating? && w3.db == w.db && w3.version == w.version
      && w3.pending == Some(Pending(Column(w.db.lease), next, true, w.version))
  {
  }

  /** A healthy runtime that still holds the column renews its lease and stays healthy, and its tasks go on. */
  lemma {:induction false} RenewalGoesThrough(w: World, now: int)
    requires w.beat.Sleeping? && w.healthy && w.owned && w.version == w.recovered && Column(w.db.lease) == Some(w.owner)
    ensures Through(w, [BeatStarts(false), Renew(Answered, now)])
            == Some(w.(db := w.db.(lease := Some(Lease(w.owner, now + 40)))))
  {
    hide Through;
    var (a1, a2) := (BeatStarts(false), Renew(Answered, now));
    OneStep(w, a1, [a2]);
    OneStep(w.(beat := Renewing), a2, []);
    NoStep(w.(db := w.db.(lease := Some(Lease(w.owner, now + 40)))));
    assert [a1] + [a2] == [a1, a2] && [a2] + [] == [a2];
  }

  // ----- Late answers ------------------------------------------------------------------------

  /**
   A start whose answer is lost is tried again; when the lost call takes effect first, the next try
   finds the turn it made and the task runs it.
   */
  lemma {:induction false} LateStartIsTakenUp(w: World, tid: nat, request: Request, now: int, limits: Limits)
    requires HasRoom(w.(tasks := w.tasks - {tid}), tid, request, now, limits)
    requires tid in w.tasks && w.tasks[tid] == Task(request, Starting(0, false), false, false)
    ensures var call := StartCall(tid, request, w.owner);
      var n := Through(w, [CallStart(tid, NoAnswer, now, limits), Deliver(call, now, limits), CallStart(tid, Answered, now, limits)]);
      && n.Some? && tid in n.value.tasks && n.value.tasks[tid].phase == Running && n.value.healthy
      && tid in n.value.db.rows && n.value.db.rows[tid].turn == Turn(tid, request.message, Processing, None, [], None, 0)
      && n.value.db.rows[tid].events == []
  {
    hide Through, Started, RecentTurns, ActiveTurns;
    var call := StartCall(tid, request, w.owner);
    var (a1, a2, a3) := (CallStart(tid, NoAnswer, now, limits), Deliver(call, now, limits), CallStart(tid, Answered, now, limits));
    WhenATurnIsAdmitted(w.db, tid, request, w.owner, now, limits);
    var d := Started(w.db, tid, request, w.owner, now, limits).0;
    RepeatedRequestFindsItsTurn(d, tid, request, w.owner, now, limits);
    var w1 := w.(late := w.late + {call}, tasks := w.tasks[tid := Task(request, Starting(1, true), false, false)]);
    var w2 := w1.(late := w.late - {call}, db := d);
    OneStep(w, a1, [a2, a3]);
    OneStep(w1, a2, [a3]);
    assert StartsDecided(w2, tid);
    OneStep(w2, a3, []);
    NoStep(w2.(tasks := w2.tasks[tid := Task(request, Running, false, false)]));
    assert w1.late - {call} == w.late - {call};
    assert [a1] + [a2, a3] == [a1, a2, a3] && [a2] + [a3] == [a2, a3] && [a3] + [] == [a3];
  }

  /** A terminal write whose answer is lost is tried again; a late effect of the first try is enough. */
  lemma {:induction false} LateFinishIsEnough(w: World, tid: nat, status: Status, error: string, now: int, limits: Limits)
    requires tid in w.tasks && w.tasks[tid].phase == Finishing(0) && status != Processing
    requires w.db.lease.Some? && w.db.lease.value.owner == w.owner && now < w.db.lease.value.expires
    requires tid in w.db.rows && w.db.rows[tid].turn.status == Processing
    requires w.db.rows[tid].request.conversation == w.tasks[tid].request.conversation
    ensures var call := EmitCall(tid, w.tasks[tid].request, EmitFinish(status, Some(error)), w.owner);
      var n := Through(w, [Finish(tid, status, error, NoAnswer, now), Deliver(call, now, limits), Finish(tid, status, error, Answered, now)]);
      && n.Some? && tid !in n.value.tasks && n.value.healthy == w.healthy
      && tid in n.value.db.rows && n.value.db.rows[tid].turn.status == status
      && |n.value.db.rows[tid].events| == |w.db.rows[tid].events| + 1
  {
    hide Through, Emitted, IsFitting, IsTakenUp, Allowed, After;
    var (request, emission) := (w.tasks[tid].request, EmitFinish(status, Some(error)));
    var call := EmitCall(tid, request, emission, w.owner);
    var (a1, a2, a3) := (Finish(tid, status, error, NoAnswer, now), Deliver(call, now, limits), Finish(tid, status, error, Answered, now));
    TerminalFits(w.db.rows[tid].turn, status, error);
    WhenAnEmissionIsStored(w.db, request.conversation, tid, emission, w.owner, now);
    StoredEmission(w.db, request.conversation, tid, emission, w.owner, now);
    var d := Emitted(w.db, request.conversation, tid, emission, w.owner, now).0;
    TakenUpFinish(w.db.rows[tid], d.rows[tid], status, error);
    ClosedTurnIgnores(d, request.conversation, tid, emission, w.owner, now);
    LateFinishSteps(w, tid, status, error, now, limits);
    OneStep(w, a1, [a2, a3]);
    OneStep(After(w, a1), a2, [a3]);
    OneStep(After(After(w, a1), a2), a3, []);
    NoStep(After(After(After(w, a1), a2), a3));
    assert [a1] + [a2, a3] == [a1, a2, a3] && [a2] + [a3] == [a2, a3] && [a3] + [] == [a3];
  }

  lemma {:induction false} ClosedTurnIgnores(db: Db, conversation: nat, tid: nat, emission: Emission, owner: Owner, now: int)
    requires db.lease.Some? && db.lease.value.owner == owner && now < db.lease.value.expires
    requires tid in db.rows && db.rows[tid].request.conversation == conversation && db.rows[tid].turn.status != Processing
    ensures Emitted(db, conversation, tid, emission, owner, now) == (db, Ok(false))
  {
  }

  lemma {:induction false} LateFinishSteps(w: World, tid: nat, status: Status, error: string, now: int, limits: Limits)
    requires tid in w.tasks && w.tasks[tid].phase == Finishing(0) && status != Processing
    requires var (c, e) := (w.tasks[tid].request.conversation, EmitFinish(status, Some(error)));
      var d := Emitted(w.db, c, tid, e, w.owner, now).0;
      d.lease == w.db.lease && Emitted(d, c, tid, e, w.owner, now) == (d, Ok(false))
    ensures var (request, e) := (w.tasks[tid].request, EmitFinish(status, Some(error)));
      var (a1, a2, a3) := (Finish(tid, status, error, NoAnswer, now), Deliver(EmitCall(tid, request, e, w.owner), now, limits),
                           Finish(tid, status, error, Answered, now));
      && Allowed(w, a1) && Allowed(After(w, a1), a2) && Allowed(After(After(w, a1), a2), a3)
      && var n := After(After(After(w, a1), a2), a3);
      && n.db == Emitted(w.db, request.conversation, tid, e, w.owner, now).0 && n.tasks == w.tasks - {tid} && n.healthy == w.healthy
  {
    hide Emitted;
    var w1 := After(w, Finish(tid, status, error, NoAnswer, now));
    assert w1.tasks - {tid} == w.tasks - {tid};
  }
}
