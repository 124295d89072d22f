/** Every step of the chat runtime keeps its invariant; a healthy runtime answers for every open turn. */
module RuntimeProofs {
  import opened Outcomes
  import opened TurnLog
  import opened TurnStore
  import opened RuntimeTurns

  // ----- What the store's transactions do ----------------------------------------------------

  predicate SameRow(a: Row, b: Row) {
    b.request == a.request && b.admittedBy == a.admittedBy && (Unfinished(b) ==> Unfinished(a))
  }

  /** The same turns, none reopened. */
  predicate RowsKept(db: Db, d: Db) {
    d.rows.Keys == db.rows.Keys && forall tid :: tid in db.rows ==> SameRow(db.rows[tid], d.rows[tid])
  }

  lemma {:induction false} StartShape(db: Db, tid: nat, request: Request, owner: Owner, now: int, limits: Limits)
    ensures var (d, r) := Started(db, tid, request, owner, now, limits);
      && d.lease == db.lease && d.conversations == db.conversations
      && (d == db
          || (tid !in db.rows && Column(db.lease) == Some(owner) && Admissible(db, request)
              && d.rows == db.rows[tid := NewRow(tid, request, owner, now)] && r == Ok((d.rows[tid].turn, true))))
      && (r.Ok? && !r.value.1 ==> d == db && tid in db.rows && r.value.0 == db.rows[tid].turn)
      && (r.Ok? && r.value.1 ==> d != db)
      && (r.Err? && !r.error.NotReady? && !r.error.AdmissionPaused? ==>
            Column(db.lease) == Some(owner) && !(tid in db.rows && db.rows[tid].request == request && Admissible(db, request)))
  {
    hide Busy, RecentTurns, ActiveTurns;
  }

  lemma {:induction false} EmitShape(db: Db, tid: nat, request: Request, emission: Emission, owner: Owner, now: int)
    ensures var (d, r) := EmittedFor(db, tid, request, emission, owner, now);
      && d.lease == db.lease && d.conversations == db.conversations && RowsKept(db, d)
      && (r == Ok(false) ==> d == db && tid in d.rows && !Unfinished(d.rows[tid]))
      && (r.Ok? && emission.EmitFinish? && !emission.status.Processing? ==> tid in d.rows && !Unfinished(d.rows[tid]))
  {
    hide AppendText, HasCards, ValidCards, Normalized;
  }

  lemma {:induction false} RotateShape(db: Db, expected: Option<Owner>, next: Owner, claim: bool, now: int)
    ensures var (d, ok) := Rotated(db, expected, next, claim, now);
      && d.conversations == db.conversations && RowsKept(db, d)
      && (!ok ==> d == db)
      && (ok ==> Column(d.lease) == Some(next))
      && (ok && Column(db.lease) != Some(next) ==> Column(db.lease) == expected && AllClosed(d))
      && (ok && Column(db.lease) == Some(next) ==> d.rows == db.rows)
  {
  }

  // ----- Tokens ------------------------------------------------------------------------------

  /** Nothing that the token invariant looks at changed, but for calls that were lost or decided. */
  predicate TokensFramed(w: World, n: World) {
    && Column(n.db.lease) == Column(w.db.lease) && n.left == w.left && n.owner == w.owner && n.installed == w.installed
    && n.mine == w.mine && n.used == w.used && n.pending == w.pending
    && (forall m :: m in n.late && m.StartCall? ==> m in w.late || m.owner == w.owner)
    && (forall m :: m in n.late && m.LeaseCall? ==> m in w.late || w.pending == Some(m.pending))
  }

  lemma {:induction false} FramedTokens(w: World, n: World)
    requires TokenInv(w) && TokensFramed(w, n)
    ensures TokenInv(n)
  {
    assert forall p :: Proposed(n, p) ==> Proposed(w, p);
    assert forall o :: Dead(w, o) ==> Dead(n, o);
  }

  /** A proposal that takes effect: its token was never in the column before. */
  lemma {:induction false} ProposalTakesEffect(w: World, p: Pending, d: Db)
    requires TokenInv(w) && Proposed(w, p)
    requires Column(w.db.lease) == p.expected && Column(d.lease) == Some(p.next)
    ensures Some(p.next) !in w.left && p.next != w.owner && p.next !in w.installed
    ensures TokenInv(WithDb(w, d))
  {
    var n := WithDb(w, d);
    assert forall q :: Proposed(n, q) <==> Proposed(w, q);
    assert Some(p.next) !in w.left;
    assert !Dead(w, p.next);
    assert n.left == w.left + {p.expected};
    forall o | o in w.installed ensures Dead(n, o) {
      assert o != w.owner ==> Dead(w, o);
    }
    assert forall q :: Proposed(w, q) && q.next == p.next ==> q == p;
  }

  lemma {:induction false} ForeignTakes(w: World, next: Owner, d: Db)
    requires TokenInv(w) && next !in w.used
    requires Column(d.lease) == Column(w.db.lease) || Column(d.lease) == Some(next)
    ensures TokenInv(WithDb(w.(used := w.used + {next}), d))
  {
    var n := WithDb(w.(used := w.used + {next}), d);
    assert forall q :: Proposed(n, q) <==> Proposed(w, q);
    assert forall o :: o in w.installed && Dead(w, o) ==> Dead(n, o);
    if Column(d.lease) != Column(w.db.lease) {
      assert Column(w.db.lease) == Some(w.owner) ==> Dead(n, w.owner);
    }
  }

  lemma {:induction false} ProposingTokens(w: World, expected: Option<Owner>, next: Owner, claim: bool)
    requires TokenInv(w) && next !in w.used && w.pending.None?
    requires expected == Column(w.db.lease) || expected == Some(w.owner)
    ensures TokenInv(Proposing(w, expected, next, claim))
  {
    var n := Proposing(w, expected, next, claim);
    var p := n.pending.value;
    assert forall q :: Proposed(n, q) ==> q == p || Proposed(w, q);
    assert forall o :: o in w.installed && Dead(w, o) ==> Dead(n, o);
  }

  /** The answered rotation installs the new token. */
  lemma {:induction false} InstallTokens(w: World, p: Pending)
    requires TokenInv(w) && w.pending == Some(p) && Column(w.db.lease) == Some(p.next)
    ensures var n := w.(pending := None, owner := p.next, installed := w.installed + {p.next}); TokenInv(n)
  {
    var n := w.(pending := None, owner := p.next, installed := w.installed + {p.next});
    assert Proposed(w, p);
    assert forall q :: Proposed(n, q) ==> Proposed(w, q);
    assert forall o :: o in w.installed && Dead(w, o) ==> Dead(n, o);
  }

  // ----- The store without the runtime -------------------------------------------------------

  /** A transaction that keeps the lease and reopens nothing. */
  lemma {:induction false} KeptRowsKeepInv(w: World, d: Db)
    requires Inv(w) && d.lease == w.db.lease && d.conversations == w.db.conversations && RowsKept(w.db, d)
    ensures Inv(WithDb(w, d)) && WithDb(w, d) == w.(db := d)
  {
    hide TokenInv, RowInv, TaskInv, RowsKept;
    FramedTokens(w, w.(db := d));
    KeptRowsKeepRows(w, d);
    KeptRowsKeepTasks(w, d);
  }

  lemma {:induction false} KeptRowsKeepRows(w: World, d: Db)
    requires RowInv(w) && d.lease == w.db.lease && d.conversations == w.db.conversations && RowsKept(w.db, d)
    ensures RowInv(w.(db := d))
  {
  }

  lemma {:induction false} KeptRowsKeepTasks(w: World, d: Db)
    requires TaskInv(w) && RowsKept(w.db, d)
    ensures TaskInv(w.(db := d))
  {
  }

  lemma {:induction false} ConversationKeepsInv(w: World, c: nat, recipient: int)
    requires Inv(w) && c !in w.db.conversations
    ensures Inv(After(w, AddConversation(c, recipient)))
  {
    var n := After(w, AddConversation(c, recipient));
    FramedTokens(w, n);
    hide TokenInv;
  }

  lemma {:induction false} ForeignStartKeepsInv(w: World, tid: nat, request: Request, owner: Owner, now: int, limits: Limits)
    requires Inv(w) && owner !in w.mine
    ensures Inv(After(w, ForeignStart(tid, request, owner, now, limits)))
  {
    hide TokenInv, RowInv, TaskInv, Started;
    StartShape(w.db, tid, request, owner, now, limits);
    var n := After(w, ForeignStart(tid, request, owner, now, limits));
    FramedTokens(w, n);
    if n.db != w.db {
      OwnersAreKnown(w);
      ForeignRowKeepsTables(w, n, tid);
    }
  }

  lemma {:induction false} OwnersAreKnown(w: World)
    requires TokenInv(w)
    ensures w.owner in w.mine && w.mine <= w.used && (Column(w.db.lease).Some? ==> Column(w.db.lease).value in w.used)
  {
  }

  lemma {:induction false} ForeignRowKeepsTables(w: World, n: World, tid: nat)
    requires RowInv(w) && TaskInv(w) && w.owner in w.mine && w.mine <= w.used
    requires n == w.(db := n.db) && n.db.lease == w.db.lease && n.db.conversations == w.db.conversations
    requires tid !in w.db.rows && tid in n.db.rows && n.db.rows == w.db.rows[tid := n.db.rows[tid]]
    requires Admissible(w.db, n.db.rows[tid].request)
    requires Column(w.db.lease) == Some(n.db.rows[tid].admittedBy) && n.db.rows[tid].admittedBy in w.used - w.mine
    ensures RowInv(n) && TaskInv(n)
  {
  }

  lemma {:induction false} LateStartKeepsInv(w: World, m: Message, now: int, limits: Limits)
    requires Inv(w) && m in w.late && m.StartCall?
    ensures Inv(Delivered(w, m, now, limits))
  {
    StartShape(w.db, m.tid, m.request, m.owner, now, limits);
    hide Started;
    var n := Delivered(w, m, now, limits);
    FramedTokens(w, n);
    assert m.owner != w.owner ==> Dead(w, m.owner);
    LateStartTables(w, m, n);
    hide TokenInv, RowInv, TaskInv;
  }

  lemma {:induction false} LateStartTables(w: World, m: Message, n: World)
    requires RowInv(w) && TaskInv(w) && m in w.late && m.StartCall? && m.owner in w.mine && w.owner in w.mine && w.mine <= w.used
    requires m.owner != w.owner ==> Column(w.db.lease) != Some(m.owner)
    requires n == w.(late := w.late - {m}, db := n.db) && n.db.lease == w.db.lease && n.db.conversations == w.db.conversations
    requires n.db == w.db
             || (m.tid !in w.db.rows && Column(w.db.lease) == Some(m.owner) && Admissible(w.db, m.request)
                 && m.tid in n.db.rows && n.db.rows == w.db.rows[m.tid := n.db.rows[m.tid]]
                 && n.db.rows[m.tid].request == m.request && n.db.rows[m.tid].admittedBy == m.owner)
    ensures RowInv(n) && TaskInv(n)
  {
  }

  lemma {:induction false} LoseKeepsInv(w: World, m: Message)
    requires Inv(w)
    ensures Inv(w.(late := w.late - {m}))
  {
    FramedTokens(w, w.(late := w.late - {m}));
    hide TokenInv;
  }

  lemma {:induction false} LateEmitKeepsInv(w: World, m: Message, now: int, limits: Limits)
    requires Inv(w) && m in w.late && m.EmitCall?
    ensures Inv(Delivered(w, m, now, limits))
  {
    EmitShape(w.db, m.tid, m.request, m.emission, m.owner, now);
    LoseKeepsInv(w, m);
    hide EmittedFor, Inv, RowsKept;
    KeptRowsKeepInv(w.(late := w.late - {m}), EmittedFor(w.db, m.tid, m.request, m.emission, m.owner, now).0);
  }

  lemma {:induction false} LateLeaseKeepsInv(w: World, m: Message, now: int, limits: Limits)
    requires Inv(w) && m in w.late && m.LeaseCall?
    ensures Inv(Delivered(w, m, now, limits))
  {
    var p := m.pending;
    RotateShape(w.db, p.expected, p.next, p.claim, now);
    var d := Rotated(w.db, p.expected, p.next, p.claim, now).0;
    RotationKeepsInv(w, p, d);
    LoseKeepsInv(WithDb(w, d), m);
    hide Rotated, Inv;
    assert Delivered(w, m, now, limits) == WithDb(w, d).(late := WithDb(w, d).late - {m});
  }

  /** A proposal reaches the store: either nothing moves, or the column takes its token over a sweep. */
  lemma {:induction false} RotationKeepsInv(w: World, p: Pending, d: Db)
    requires Inv(w) && Proposed(w, p) && d.conversations == w.db.conversations && RowsKept(w.db, d)
    requires Column(d.lease) == Column(w.db.lease)
             || (Column(w.db.lease) == p.expected && Column(d.lease) == Some(p.next) && AllClosed(d))
    ensures Inv(WithDb(w, d))
    ensures Column(d.lease) != Column(w.db.lease) ==> AllClosed(d)
  {
    var n := WithDb(w, d);
    if Column(d.lease) == Column(w.db.lease) {
      FramedTokens(w, n);
    } else {
      ProposalTakesEffect(w, p, d);
    }
    hide TokenInv, Proposed;
  }

  lemma {:induction false} ForeignKeepsInv(w: World, next: Owner, d: Db)
    requires Inv(w) && next !in w.used && d.conversations == w.db.conversations && RowsKept(w.db, d)
    requires Column(d.lease) == Column(w.db.lease)
             || (Column(d.lease) == Some(next) && (AllClosed(d) || (Column(w.db.lease).Some? && Column(w.db.lease).value !in w.mine)))
    ensures Inv(WithDb(w.(used := w.used + {next}), d))
  {
    ForeignTakes(w, next, d);
    assert next !in w.mine;
    hide TokenInv;
  }

  lemma {:induction false} ReleaseShape(db: Db, owner: Owner, tombstone: Owner, now: int)
    ensures var d := Released(db, owner, tombstone, now);
      && d.conversations == db.conversations && RowsKept(db, d)
      && (Column(d.lease) == Column(db.lease) || (Column(d.lease) == Some(tombstone) && Column(db.lease) == Some(owner)))
  {
  }

  lemma {:induction false} StoreStepKeepsInv(w: World, a: Action)
    requires Inv(w) && Allowed(w, a)
    requires a.AddConversation? || a.ForeignRotate? || a.ForeignRelease? || a.ForeignStart? || a.ForeignEmit? || a.Deliver? || a.Lose?
    ensures Inv(After(w, a))
  {
    hide Inv, Rotated, EmittedFor, Started, Released, RowsKept, AllClosed;
    match a
    case AddConversation(c, recipient) => ConversationKeepsInv(w, c, recipient);
    case ForeignRotate(expected, next, claim, now) =>
      RotateShape(w.db, expected, next, claim, now);
      FreshIsUnseen(w, next);
      ForeignKeepsInv(w, next, Rotated(w.db, expected, next, claim, now).0);
    case ForeignRelease(owner, tombstone, now) =>
      ReleaseShape(w.db, owner, tombstone, now);
      ForeignKeepsInv(w, tombstone, Released(w.db, owner, tombstone, now));
    case ForeignStart(tid, request, owner, now, limits) => ForeignStartKeepsInv(w, tid, request, owner, now, limits);
    case ForeignEmit(tid, request, emission, owner, now) =>
      EmitShape(w.db, tid, request, emission, owner, now);
      KeptRowsKeepInv(w, EmittedFor(w.db, tid, request, emission, owner, now).0);
    case Deliver(m, now, limits) =>
      if m.StartCall? {
        LateStartKeepsInv(w, m, now, limits);
      } else if m.EmitCall? {
        LateEmitKeepsInv(w, m, now, limits);
      } else {
        LateLeaseKeepsInv(w, m, now, limits);
      }
    case Lose(m) => LoseKeepsInv(w, m);
  }

  lemma {:induction false} FreshIsUnseen(w: World, next: Owner)
    requires Inv(w) && next !in w.used
    ensures Column(w.db.lease) != Some(next)
  {
  }

  // ----- Tasks -------------------------------------------------------------------------------

  lemma {:induction false} RecoveringKeepsInv(w: World)
    requires Inv(w)
    ensures Inv(Recovering(w))
  {
    FramedTokens(w, Recovering(w));
    hide TokenInv;
  }

  /** A task may go, or step back before its start, when no open turn and no late start depends on it. */
  predicate Dispensable(w: World, tid: nat) {
    w.healthy ==>
      && (tid in w.db.rows && w.db.rows[tid].admittedBy in w.mine ==> !Unfinished(w.db.rows[tid]))
      && (forall m :: m in w.late && m.StartCall? && m.owner == w.owner && m.tid == tid ==> tid in w.db.rows)
  }

  lemma {:induction false} EndKeepsInv(w: World, tid: nat)
    requires Inv(w) && Dispensable(w, tid)
    ensures Inv(Ended(w, tid))
  {
    FramedTokens(w, Ended(w, tid));
    hide TokenInv, RowInv;
    assert RowInv(w) == RowInv(Ended(w, tid)) by {
      RowsOnly(w, Ended(w, tid));
    }
  }

  lemma {:induction false} RowsOnly(w: World, n: World)
    requires n.db == w.db && n.owner == w.owner && n.mine == w.mine && n.used == w.used
    ensures RowInv(w) == RowInv(n)
  {
  }

  /** Before its start is uncertain, a task answers for nothing. */
  lemma {:induction false} EarlyIsDispensable(w: World, tid: nat)
    requires Inv(w) && tid in w.tasks
    requires w.tasks[tid].phase.Looking? || w.tasks[tid].phase.Preparing? || (w.tasks[tid].phase.Starting? && !w.tasks[tid].phase.uncertain)
    ensures Dispensable(w, tid)
  {
  }

  lemma {:induction false} EarlyPhaseKeepsInv(w: World, tid: nat, phase: Phase)
    requires Inv(w) && tid in w.tasks && Dispensable(w, tid)
    ensures Inv(InPhase(w, tid, phase))
  {
    FramedTokens(w, InPhase(w, tid, phase));
    RowsOnly(w, InPhase(w, tid, phase));
    hide TokenInv, RowInv;
  }

  /** Running and finishing tasks answer for the turn whatever it is. */
  lemma {:induction false} LatePhaseKeepsInv(w: World, tid: nat, phase: Phase)
    requires Inv(w) && tid in w.tasks && Accepted(phase)
    requires w.healthy ==> forall m :: m in w.late && m.StartCall? && m.owner == w.owner && m.tid == tid ==> tid in w.db.rows
    ensures Inv(InPhase(w, tid, phase))
  {
    FramedTokens(w, InPhase(w, tid, phase));
    RowsOnly(w, InPhase(w, tid, phase));
    hide TokenInv, RowInv;
  }

  lemma {:induction false} AcceptKeepsInv(w: World, tid: nat, request: Request)
    requires Inv(w) && tid !in w.tasks
    ensures Inv(After(w, Accept(tid, request)))
  {
    var n := After(w, Accept(tid, request));
    FramedTokens(w, n);
    RowsOnly(w, n);
    hide TokenInv, RowInv;
  }

  lemma {:induction false} LookKeepsInv(w: World, tid: nat, answer: Answer)
    requires Inv(w) && tid in w.tasks && w.tasks[tid].phase.Looking?
    ensures Inv(Looked(w, tid, answer))
  {
    EarlyIsDispensable(w, tid);
    EndKeepsInv(w, tid);
    RecoveringKeepsInv(Ended(w, tid));
    EarlyPhaseKeepsInv(w, tid, Preparing);
    hide Inv;
  }

  lemma {:induction false} PrepareKeepsInv(w: World, tid: nat, ok: bool)
    requires Inv(w) && tid in w.tasks && w.tasks[tid].phase.Preparing?
    ensures Inv(After(w, Prepare(tid, ok)))
  {
    EarlyIsDispensable(w, tid);
    EndKeepsInv(w, tid);
    EarlyPhaseKeepsInv(w, tid, Starting(0, false));
    hide Inv;
  }

  // ----- Starting ----------------------------------------------------------------------------

  /** A start that nobody waits for any more. */
  lemma {:induction false} LateStartAdded(w: World, tid: nat)
    requires Inv(w) && tid in w.tasks
    requires w.healthy ==> tid in w.db.rows || (w.tasks[tid].phase.Starting? && w.tasks[tid].phase.uncertain)
    ensures Inv(w.(late := w.late + {StartCall(tid, w.tasks[tid].request, w.owner)}))
  {
    var n := w.(late := w.late + {StartCall(tid, w.tasks[tid].request, w.owner)});
    FramedTokens(w, n);
    RowsOnly(w, n);
    hide TokenInv, RowInv;
  }

  lemma {:induction false} RecoverEndKeepsInv(w: World, tid: nat)
    requires Inv(w)
    ensures Inv(Recovering(Ended(w, tid)))
  {
    var n := Recovering(Ended(w, tid));
    FramedTokens(w, n);
    RowsOnly(w, n);
    hide TokenInv, RowInv;
  }

  lemma {:induction false} RetryKeepsInv(w: World, tid: nat, attempt: nat)
    requires Inv(w) && tid in w.tasks && w.tasks[tid].phase.Starting?
    ensures Inv(InPhase(w, tid, Starting(attempt, true)))
  {
    var n := InPhase(w, tid, Starting(attempt, true));
    FramedTokens(w, n);
    RowsOnly(w, n);
    hide TokenInv, RowInv;
  }

  lemma {:induction false} StartAgainKeepsInv(w: World, tid: nat)
    requires Inv(w) && tid in w.tasks && w.tasks[tid].phase.Starting?
    ensures Inv(StartAgain(w, tid))
  {
    hide Inv;
    RecoverEndKeepsInv(w, tid);
    RetryKeepsInv(w, tid, w.tasks[tid].phase.attempt + 1);
  }

  /** The attempt or the recovery that follows a start without an answer. */
  lemma {:induction false} LostStartKeepsInv(w: World, tid: nat)
    requires Inv(w) && tid in w.tasks && w.tasks[tid].phase.Starting?
    ensures Inv(StartAgain(w.(late := w.late + {StartCall(tid, w.tasks[tid].request, w.owner)}), tid))
  {
    hide Inv;
    var m := StartCall(tid, w.tasks[tid].request, w.owner);
    var attempt := w.tasks[tid].phase.attempt;
    RetryKeepsInv(w, tid, attempt + 1);
    LateStartAdded(InPhase(w, tid, Starting(attempt + 1, true)), tid);
    RecoverEndKeepsInv(w, tid);
    LateAfterRecovery(Recovering(Ended(w, tid)), m);
    assert Recovering(Ended(w.(late := w.late + {m}), tid)) == Recovering(Ended(w, tid)).(late := w.late + {m});
    assert InPhase(w.(late := w.late + {m}), tid, Starting(attempt + 1, true))
        == InPhase(w, tid, Starting(attempt + 1, true)).(late := w.late + {m});
  }

  lemma {:induction false} LateAfterRecovery(w: World, m: Message)
    requires Inv(w) && !w.healthy && m.StartCall? && m.owner == w.owner
    ensures Inv(w.(late := w.late + {m}))
  {
    var n := w.(late := w.late + {m});
    FramedTokens(w, n);
    RowsOnly(w, n);
    hide TokenInv, RowInv;
  }

  lemma {:induction false} AnsweredStartKeepsInv(w: World, tid: nat, now: int, limits: Limits)
    requires Inv(w) && tid in w.tasks && w.tasks[tid].phase.Starting? && StartsDecided(w, tid)
    ensures Inv(StartCalled(w, tid, Answered, now, limits))
  {
    var task := w.tasks[tid];
    StartShape(w.db, tid, task.request, w.owner, now, limits);
    var (d, r) := Started(w.db, tid, task.request, w.owner, now, limits);
    hide Started;
    if r.Ok? && r.value.1 {
      MadeKeepsInv(w, tid, d);
    } else {
      assert WithDb(w, d) == w;
      UnmadeKeepsInv(w, tid, r);
    }
    hide Inv;
  }

  /** The start that created the turn leaves its task running. */
  lemma {:induction false} MadeKeepsInv(w: World, tid: nat, d: Db)
    requires Inv(w) && tid in w.tasks && StartsDecided(w, tid)
    requires tid !in w.db.rows && Column(w.db.lease) == Some(w.owner) && d.lease == w.db.lease && d.conversations == w.db.conversations
    requires tid in d.rows && d.rows == w.db.rows[tid := d.rows[tid]] && d.rows[tid].admittedBy == w.owner
    requires Admissible(w.db, d.rows[tid].request) && d.rows[tid].request == w.tasks[tid].request
    ensures Inv(InPhase(WithDb(w, d), tid, Running))
  {
    hide TokenInv, RowInv, TaskInv;
    var n := InPhase(WithDb(w, d), tid, Running);
    FramedTokens(w, n);
    OwnersAreKnown(w);
    MadeRowKeepsRows(w, n, tid);
    MadeRowKeepsTasks(w, n, tid);
  }

  lemma {:induction false} MadeRowKeepsRows(w: World, n: World, tid: nat)
    requires RowInv(w) && w.owner in w.used && Column(w.db.lease) == Some(w.owner)
    requires n.owner == w.owner && n.mine == w.mine && n.used == w.used
    requires n.db.lease == w.db.lease && n.db.conversations == w.db.conversations
    requires tid in n.db.rows && n.db.rows == w.db.rows[tid := n.db.rows[tid]] && n.db.rows[tid].admittedBy == w.owner
    requires Admissible(w.db, n.db.rows[tid].request)
    ensures RowInv(n)
  {
  }

  lemma {:induction false} MadeRowKeepsTasks(w: World, n: World, tid: nat)
    requires TaskInv(w) && tid in w.tasks && StartsDecided(w, tid) && tid !in w.db.rows
    requires n == w.(db := n.db, tasks := w.tasks[tid := w.tasks[tid].(phase := Running)])
    requires tid in n.db.rows && n.db.rows == w.db.rows[tid := n.db.rows[tid]]
    ensures TaskInv(n)
  {
  }

  /** A start that was answered without creating the turn. */
  lemma {:induction false} UnmadeKeepsInv(w: World, tid: nat, r: Result<(Turn, bool), StoreError>)
    requires Inv(w) && tid in w.tasks && w.tasks[tid].phase.Starting? && StartsDecided(w, tid)
    requires r.Ok? ==> !r.value.1 && tid in w.db.rows && r.value.0 == w.db.rows[tid].turn
    requires r.Err? && !r.error.NotReady? && !r.error.AdmissionPaused? ==>
               !(tid in w.db.rows && w.db.rows[tid].request == w.tasks[tid].request && Admissible(w.db, w.tasks[tid].request))
    ensures r.Err? && (r.error.NotReady? || r.error.AdmissionPaused?) ==> Inv(StartAgain(w, tid))
    ensures r.Err? && !r.error.NotReady? && !r.error.AdmissionPaused? ==> Inv(Ended(w, tid))
    ensures r.Ok? && !r.value.0.status.Processing? ==> Inv(Ended(w, tid))
    ensures r.Ok? && r.value.0.status.Processing? ==>
              if w.tasks[tid].phase.uncertain then Inv(InPhase(w, tid, Running)) else Inv(Recovering(Ended(w, tid)))
  {
    if r.Err? && (r.error.NotReady? || r.error.AdmissionPaused?) {
      StartAgainKeepsInv(w, tid);
    } else if r.Err? || !r.value.0.status.Processing? {
      assert Dispensable(w, tid);
      EndKeepsInv(w, tid);
    } else if w.tasks[tid].phase.uncertain {
      LatePhaseKeepsInv(w, tid, Running);
    } else {
      EarlyIsDispensable(w, tid);
      EndKeepsInv(w, tid);
      RecoveringKeepsInv(Ended(w, tid));
    }
    hide Inv;
  }

  // ----- Running and finishing ---------------------------------------------------------------

  lemma {:induction false} LateEmitAdded(w: World, m: Message)
    requires Inv(w) && m.EmitCall?
    ensures Inv(w.(late := w.late + {m}))
  {
    FramedTokens(w, w.(late := w.late + {m}));
    hide TokenInv;
  }

  /** For an accepted task no start is late, or its turn exists. */
  lemma {:induction false} AcceptedHasRow(w: World, tid: nat)
    requires Inv(w) && tid in w.tasks && Accepted(w.tasks[tid].phase)
    ensures w.healthy ==> forall m :: m in w.late && m.StartCall? && m.owner == w.owner && m.tid == tid ==> tid in w.db.rows
  {
  }

  lemma {:induction false} EmitKeepsInv(w: World, tid: nat, emission: Emission, answer: Answer, now: int)
    requires Inv(w) && tid in w.tasks && w.tasks[tid].phase.Running?
    ensures Inv(EmitCalled(w, tid, emission, answer, now))
  {
    AcceptedHasRow(w, tid);
    hide Inv, EmittedFor, RowsKept;
    var task := w.tasks[tid];
    if answer.NoAnswer? {
      var m := EmitCall(tid, task.request, emission, w.owner);
      LateEmitAdded(w, m);
      LatePhaseKeepsInv(w.(late := w.late + {m}), tid, Finishing(0));
    } else {
      AnsweredEmitKeepsInv(w, tid, emission, now);
    }
  }

  lemma {:induction false} AnsweredEmitKeepsInv(w: World, tid: nat, emission: Emission, now: int)
    requires Inv(w) && tid in w.tasks && w.tasks[tid].phase.Running?
    ensures Inv(EmitCalled(w, tid, emission, Answered, now))
  {
    hide Inv, EmittedFor, RowsKept;
    var (d, r) := EmittedFor(w.db, tid, w.tasks[tid].request, emission, w.owner, now);
    EmitShape(w.db, tid, w.tasks[tid].request, emission, w.owner, now);
    KeptRowsKeepInv(w, d);
    AcceptedHasRow(WithDb(w, d), tid);
    if r.Err? {
      LatePhaseKeepsInv(WithDb(w, d), tid, Finishing(0));
    } else if r == Ok(false) {
      EndKeepsInv(WithDb(w, d), tid);
    }
  }

  lemma {:induction false} FinishAgainKeepsInv(w: World, tid: nat)
    requires Inv(w) && tid in w.tasks && w.tasks[tid].phase.Finishing?
    ensures Inv(FinishAgain(w, tid))
  {
    hide Inv;
    AcceptedHasRow(w, tid);
    RecoverEndKeepsInv(w, tid);
    LatePhaseKeepsInv(w, tid, Finishing(w.tasks[tid].phase.attempt + 1));
  }

  lemma {:induction false} FinishKeepsInv(w: World, tid: nat, status: Status, error: string, answer: Answer, now: int)
    requires Inv(w) && tid in w.tasks && w.tasks[tid].phase.Finishing? && !status.Processing?
    ensures Inv(FinishCalled(w, tid, status, error, answer, now))
  {
    hide Inv, EmittedFor, RowsKept;
    var task := w.tasks[tid];
    var emission := EmitFinish(status, Some(error));
    if answer.NoAnswer? {
      var m := EmitCall(tid, task.request, emission, w.owner);
      LateEmitAdded(w, m);
      FinishAgainKeepsInv(w.(late := w.late + {m}), tid);
    } else {
      var (d, r) := EmittedFor(w.db, tid, task.request, emission, w.owner, now);
      EmitShape(w.db, tid, task.request, emission, w.owner, now);
      KeptRowsKeepInv(w, d);
      if r.Err? {
        FinishAgainKeepsInv(WithDb(w, d), tid);
      } else {
        EndKeepsInv(WithDb(w, d), tid);
      }
    }
  }

  lemma {:induction false} UserCancelKeepsInv(w: World, tid: nat, request: Request, answer: Answer, now: int)
    requires Inv(w)
    ensures Inv(UserCancelled(w, tid, request, answer, now))
  {
    hide Inv, EmittedFor, RowsKept;
    var emission := EmitFinish(Cancelled, None);
    if answer.NoAnswer? {
      LateEmitAdded(w, EmitCall(tid, request, emission, w.owner));
    } else {
      var (d, r) := EmittedFor(w.db, tid, request, emission, w.owner, now);
      EmitShape(w.db, tid, request, emission, w.owner, now);
      KeptRowsKeepInv(w, d);
      if r.Ok? && tid in w.tasks {
        CloseTask(WithDb(w, d), tid);
      }
    }
  }

  lemma {:induction false} CloseTask(w: World, tid: nat)
    requires Inv(w) && tid in w.tasks && tid in w.db.rows && !Unfinished(w.db.rows[tid])
    ensures Inv(w.(tasks := w.tasks[tid := w.tasks[tid].(closed := true)]))
  {
    var n := w.(tasks := w.tasks[tid := w.tasks[tid].(closed := true)]);
    FramedTokens(w, n);
    RowsOnly(w, n);
    hide TokenInv, RowInv;
  }

  lemma {:induction false} CancelHitKeepsInv(w: World, tid: nat)
    requires Inv(w) && tid in w.tasks && (w.tasks[tid].stopping || w.tasks[tid].closed)
    ensures Inv(CancelHit(w, tid))
  {
    var task := w.tasks[tid];
    CancelledIsSafe(w, tid);
    hide Inv;
    var n := if task.phase.Starting? then w.(late := w.late + {StartCall(tid, task.request, w.owner)}) else w;
    if task.phase.Starting? {
      LateStartAdded(w, tid);
    }
    RecoverEndKeepsInv(n, tid);
    if Accepted(task.phase) || task.closed {
      EndKeepsInv(n, tid);
    }
  }

  /** A cancelled task's turn is closed already, or the runtime is not healthy. */
  lemma {:induction false} CancelledIsSafe(w: World, tid: nat)
    requires Inv(w) && tid in w.tasks && (w.tasks[tid].stopping || w.tasks[tid].closed)
    ensures w.healthy ==> tid in w.db.rows && !Unfinished(w.db.rows[tid])
  {
  }

  // ----- The heartbeat -----------------------------------------------------------------------

  lemma {:induction false} BeatStartKeepsInv(w: World, reconnects: bool)
    requires Inv(w) && w.beat.Sleeping?
    ensures Inv(BeatStarted(w, reconnects))
  {
    var n := BeatStarted(w, reconnects);
    FramedTokens(w, n);
    RowsOnly(w, n);
    hide TokenInv, RowInv;
  }

  lemma {:induction false} ProposingKeepsInv(w: World, expected: Option<Owner>, next: Owner, claim: bool)
    requires Inv(w) && next !in w.used && w.pending.None? && !w.healthy
    requires forall tid :: tid in w.tasks ==> !w.tasks[tid].stopping
    requires expected == Column(w.db.lease) || expected == Some(w.owner)
    ensures Inv(Proposing(w, expected, next, claim))
  {
    ProposingTokens(w, expected, next, claim);
    hide TokenInv;
  }

  lemma {:induction false} BeatMoves(w: World, beat: Beat)
    requires Inv(w) && !w.healthy && (w.beat.Stopping? || w.beat.Observing?)
    requires beat.Sleeping? || (beat.Rotating? && w.pending.Some?) || (beat.Observing? && w.pending.None?)
    requires forall tid :: tid in w.tasks ==> !w.tasks[tid].stopping
    ensures Inv(w.(beat := beat))
  {
    var n := w.(beat := beat);
    FramedTokens(w, n);
    RowsOnly(w, n);
    hide TokenInv, RowInv;
  }

  lemma {:induction false} StoppedKeepsInv(w: World, a: Action)
    requires Inv(w) && Allowed(w, a) && (a.TasksStopped? || a.Observe?)
    ensures Inv(After(w, a))
  {
    NotHealthyWhileStopping(w);
    hide Inv;
    if w.pending.None? {
      ProposingKeepsInv(w, Some(w.owner), a.next, false);
      ProposingKeepsInv(w, Column(w.db.lease), a.next, true);
      BeatMoves(w, Observing);
    } else {
      BeatMoves(w, Rotating);
    }
    BeatMoves(w, Sleeping);
  }

  lemma {:induction false} NotHealthyWhileStopping(w: World)
    requires Inv(w)
    ensures w.beat.Stopping? || w.beat.Observing? || w.beat.Rotating? ==> !w.healthy
    ensures w.beat.Observing? ==> w.pending.None? && forall tid :: tid in w.tasks ==> !w.tasks[tid].stopping
    ensures w.beat.Rotating? ==> w.pending.Some? && forall tid :: tid in w.tasks ==> !w.tasks[tid].stopping
  {
  }

  lemma {:induction false} LostRotationKeepsInv(w: World)
    requires Inv(w) && w.pending.Some?
    ensures Inv(w.(late := w.late + {LeaseCall(w.pending.value)}, healthy := false, beat := Sleeping))
  {
    var n := w.(late := w.late + {LeaseCall(w.pending.value)}, healthy := false, beat := Sleeping);
    FramedTokens(w, n);
    RowsOnly(w, n);
    hide TokenInv, RowInv;
  }

  lemma {:induction false} RefusedRotationKeepsInv(w: World)
    requires Inv(w)
    ensures Inv(w.(pending := None, beat := Sleeping, owned := false, healthy := false))
  {
    var n := w.(pending := None, beat := Sleeping, owned := false, healthy := false);
    assert forall p :: Proposed(n, p) ==> Proposed(w, p);
    assert forall o :: Dead(w, o) ==> Dead(n, o);
    assert TokenInv(n);
    RowsOnly(w, n);
    hide TokenInv, RowInv, Dead, Proposed;
  }

  /** The new token works over a store whose turns are all closed. */
  lemma {:induction false} InstalledKeepsInv(w: World, p: Pending)
    requires Inv(w) && w.pending == Some(p) && w.beat.Rotating? && Column(w.db.lease) == Some(p.next)
    ensures Inv(w.(pending := None, beat := Sleeping, owner := p.next, installed := w.installed + {p.next},
                   recovered := p.version, owned := true, healthy := w.version == p.version))
  {
    var n := w.(pending := None, beat := Sleeping, owner := p.next, installed := w.installed + {p.next},
                recovered := p.version, owned := true, healthy := w.version == p.version);
    InstallTokens(w, p);
    FramedTokens(w.(pending := None, owner := p.next, installed := w.installed + {p.next}), n);
    assert Proposed(w, p);
    assert p.next in w.mine && p.next != w.owner;
    assert AllClosed(w.db);
    hide TokenInv, Proposed;
  }

  lemma {:induction false} RotateKeepsInv(w: World, answer: Answer, now: int)
    requires Inv(w) && w.beat.Rotating? && w.pending.Some?
    ensures Inv(RotateCalled(w, answer, now))
  {
    hide Inv, Rotated, RowsKept, AllClosed;
    var p := w.pending.value;
    if answer.NoAnswer? {
      LostRotationKeepsInv(w);
    } else {
      var (d, ok) := Rotated(w.db, p.expected, p.next, p.claim, now);
      RotateShape(w.db, p.expected, p.next, p.claim, now);
      RotationKeepsInv(w, p, d);
      if ok {
        InstalledKeepsInv(WithDb(w, d), p);
      } else {
        RefusedRotationKeepsInv(WithDb(w, d));
      }
    }
  }

  lemma {:induction false} RenewKeepsInv(w: World, answer: Answer, now: int)
    requires Inv(w) && w.beat.Renewing?
    ensures Inv(RenewCalled(w, answer, now))
  {
    hide RowsKept;
    var (d, ok) := Rotated(w.db, Some(w.owner), w.owner, false, now);
    RotateShape(w.db, Some(w.owner), w.owner, false, now);
    assert Column(d.lease) == Column(w.db.lease) && d.rows == w.db.rows && d.conversations == w.db.conversations;
    RenewedKeepsInv(w, w.(beat := Sleeping, healthy := false));
    RenewedKeepsInv(w, WithDb(w, d).(owned := w.owned && ok, healthy := ok && w.version == w.recovered, beat := Sleeping));
    hide Inv, Rotated;
  }

  lemma {:induction false} RenewedKeepsInv(w: World, n: World)
    requires Inv(w) && w.beat.Renewing? && n.beat.Sleeping? && (n.healthy ==> w.version == w.recovered)
    requires n == w.(db := n.db, owned := n.owned, healthy := n.healthy, beat := n.beat)
    requires Column(n.db.lease) == Column(w.db.lease) && n.db.rows == w.db.rows && n.db.conversations == w.db.conversations
    ensures Inv(n)
  {
    FramedTokens(w, n);
    hide TokenInv;
  }

  // ----- Every step --------------------------------------------------------------------------

  lemma {:induction false} RuntimeStepKeepsInv(w: World, a: Action)
    requires Inv(w) && Allowed(w, a)
    requires !a.AddConversation? && !a.ForeignRotate? && !a.ForeignRelease? && !a.ForeignStart? && !a.ForeignEmit? && !a.Deliver? && !a.Lose?
    ensures Inv(After(w, a))
  {
    hide Inv;
    match a
    case AcceptRead(_, _) => RecoveringKeepsInv(w);
    case Accept(tid, request) => AcceptKeepsInv(w, tid, request);
    case Look(tid, answer) => LookKeepsInv(w, tid, answer);
    case Prepare(tid, ok) => PrepareKeepsInv(w, tid, ok);
    case CallStart(tid, answer, now, limits) =>
      if answer.NoAnswer? {
        LostStartKeepsInv(w, tid);
      } else {
        AnsweredStartKeepsInv(w, tid, now, limits);
      }
    case Emit(tid, emission, answer, now) => EmitKeepsInv(w, tid, emission, answer, now);
    case Generated(tid) =>
      AcceptedHasRow(w, tid);
      LatePhaseKeepsInv(w, tid, Finishing(0));
    case Finish(tid, status, error, answer, now) => FinishKeepsInv(w, tid, status, error, answer, now);
    case UserCancel(tid, request, answer, now) => UserCancelKeepsInv(w, tid, request, answer, now);
    case CancelHits(tid) => CancelHitKeepsInv(w, tid);
    case BeatStarts(reconnects) => BeatStartKeepsInv(w, reconnects);
    case TasksStopped(_) => StoppedKeepsInv(w, a);
    case Observe(_, _, _) => StoppedKeepsInv(w, a);
    case Rotate(answer, now) => RotateKeepsInv(w, answer, now);
    case Renew(answer, now) => RenewKeepsInv(w, answer, now);
    case _ =>
  }

  lemma {:induction false} InitialInv(w: World)
    requires w == Initial(w.db, w.owner) && Sane(w.db) && Column(w.db.lease) != Some(w.owner)
    requires forall tid :: tid in w.db.rows ==> w.db.rows[tid].admittedBy != w.owner
    ensures Inv(w)
  {
  }

  lemma {:induction false} InvAlongRun(worlds: seq<World>, actions: seq<Action>, k: nat)
    requires IsRun(worlds, actions) && k < |worlds|
    ensures Inv(worlds[k])
  {
    hide Inv, After, Allowed;
    if k > 0 {
      InvAlongRun(worlds, actions, k - 1);
      var a := actions[k - 1];
      if a.AddConversation? || a.ForeignRotate? || a.ForeignRelease? || a.ForeignStart? || a.ForeignEmit? || a.Deliver? || a.Lose? {
        StoreStepKeepsInv(worlds[k - 1], a);
      } else {
        RuntimeStepKeepsInv(worlds[k - 1], a);
      }
    } else {
      InitialInv(worlds[0]);
    }
  }

  // ----- Main results ------------------------------------------------------------------------

  /**
   Whenever the runtime is healthy, every open turn that this process admitted has a task that
   will answer for it: one that is running, finishing, or retrying the very start that made it.
   */
  lemma {:induction false} HealthyRuntimeHasNoOrphan(worlds: seq<World>, actions: seq<Action>, k: nat, tid: nat)
    requires IsRun(worlds, actions) && k < |worlds| && worlds[k].healthy
    requires tid in worlds[k].db.rows && Unfinished(worlds[k].db.rows[tid]) && worlds[k].db.rows[tid].admittedBy in worlds[k].mine
    ensures tid in worlds[k].tasks && Answers(worlds[k].tasks[tid], worlds[k].db.rows[tid])
    ensures worlds[k].db.rows[tid].admittedBy == worlds[k].owner && Column(worlds[k].db.lease) == Some(worlds[k].owner)
  {
    InvAlongRun(worlds, actions, k);
  }

  /**
   A step that ends the task of a turn leaves the stored turn closed, or leaves the runtime
   unhealthy: it will not admit new work before a rotation has swept the turn.
   */
  lemma {:induction false} EndedTaskLeavesClosedTurnOrRecovery(worlds: seq<World>, actions: seq<Action>, k: nat, tid: nat)
    requires IsRun(worlds, actions) && k < |actions| && tid in worlds[k].tasks && tid !in worlds[k + 1].tasks
    requires tid in worlds[k + 1].db.rows && worlds[k + 1].db.rows[tid].admittedBy in worlds[k + 1].mine
    ensures !Unfinished(worlds[k + 1].db.rows[tid]) || !worlds[k + 1].healthy
    ensures !Unfinished(worlds[k + 1].db.rows[tid]) || !worlds[k].healthy || worlds[k + 1].version == worlds[k].version + 1
  {
    InvAlongRun(worlds, actions, k + 1);
    if worlds[k].healthy && !worlds[k + 1].healthy {
      EndingTurnsUnhealthyByRecovery(worlds[k], actions[k], tid);
    }
  }

  /** A step that ends a task takes the runtime's health only by a recovery request. */
  lemma {:induction false} EndingTurnsUnhealthyByRecovery(w: World, a: Action, tid: nat)
    requires Allowed(w, a) && tid in w.tasks && tid !in After(w, a).tasks && w.healthy && !After(w, a).healthy
    ensures After(w, a).version == w.version + 1
  {
    hide Rotated, Released, EmittedFor, Started, ExistingTurn, Column;
  }

  /** A turn left open while the runtime was unhealthy is closed by the time it is healthy again, unless a task took it up. */
  lemma {:induction false} RecoveryClosesLeftTurns(worlds: seq<World>, actions: seq<Action>, k: nat, m: nat, tid: nat)
    requires IsRun(worlds, actions) && k <= m < |worlds| && worlds[m].healthy && tid !in worlds[m].tasks
    requires tid in worlds[k].db.rows && worlds[k].db.rows[tid].admittedBy in worlds[k].mine
    ensures tid in worlds[m].db.rows && !Unfinished(worlds[m].db.rows[tid])
  {
    InvAlongRun(worlds, actions, m);
    RowsStay(worlds, actions, k, m, tid);
  }

  lemma {:induction false} RowsStay(worlds: seq<World>, actions: seq<Action>, k: nat, m: nat, tid: nat)
    requires IsRun(worlds, actions) && k <= m < |worlds| && tid in worlds[k].db.rows
    ensures tid in worlds[m].db.rows && worlds[m].db.rows[tid].admittedBy == worlds[k].db.rows[tid].admittedBy
    ensures worlds[k].mine <= worlds[m].mine
    ensures !Unfinished(worlds[k].db.rows[tid]) ==> !Unfinished(worlds[m].db.rows[tid])
    decreases m
  {
    hide After, Allowed;
    if k < m {
      RowsStay(worlds, actions, k, m - 1, tid);
      RowStays(worlds[m - 1], actions[m - 1], tid);
    }
  }

  lemma {:induction false} RowStays(w: World, a: Action, tid: nat)
    requires Allowed(w, a) && tid in w.db.rows
    ensures tid in After(w, a).db.rows && w.mine <= After(w, a).mine && SameRow(w.db.rows[tid], After(w, a).db.rows[tid])
  {
    hide After;
    match a
    case ForeignRotate(_, _, _, _) => StoreStepKeepsRow(w, a, tid);
    case ForeignStart(_, _, _, _, _) => StoreStepKeepsRow(w, a, tid);
    case ForeignEmit(_, _, _, _, _) => StoreStepKeepsRow(w, a, tid);
    case Deliver(_, _, _) => StoreStepKeepsRow(w, a, tid);
    case CallStart(_, _, _, _) => TaskStepKeepsRow(w, a, tid);
    case Emit(_, _, _, _) => TaskStepKeepsRow(w, a, tid);
    case Finish(_, _, _, _, _) => TaskStepKeepsRow(w, a, tid);
    case UserCancel(_, _, _, _) => TaskStepKeepsRow(w, a, tid);
    case _ => OtherStepKeepsRow(w, a, tid);
  }

  lemma {:induction false} StoreStepKeepsRow(w: World, a: Action, tid: nat)
    requires Allowed(w, a) && tid in w.db.rows && (a.ForeignRotate? || a.ForeignStart? || a.ForeignEmit? || a.Deliver?)
    ensures tid in After(w, a).db.rows && w.mine <= After(w, a).mine && SameRow(w.db.rows[tid], After(w, a).db.rows[tid])
  {
    hide Rotated, EmittedFor, Started, Delivered;
    match a
    case ForeignRotate(expected, next, claim, now) => RotateShape(w.db, expected, next, claim, now);
    case ForeignStart(t, request, owner, now, limits) => StartShape(w.db, t, request, owner, now, limits);
    case ForeignEmit(t, request, emission, owner, now) => EmitShape(w.db, t, request, emission, owner, now);
    case Deliver(m, now, limits) => MessageKeepsRow(w, m, now, limits, tid);
  }

  lemma {:induction false} TaskStepKeepsRow(w: World, a: Action, tid: nat)
    requires Allowed(w, a) && tid in w.db.rows && (a.CallStart? || a.Emit? || a.Finish? || a.UserCancel?)
    ensures tid in After(w, a).db.rows && w.mine <= After(w, a).mine && SameRow(w.db.rows[tid], After(w, a).db.rows[tid])
  {
    hide EmittedFor, Started, StartCalled, EmitCalled, FinishCalled, UserCancelled;
    match a
    case CallStart(t, answer, now, limits) =>
      StartShape(w.db, t, w.tasks[t].request, w.owner, now, limits);
      StartCallsOnce(w, t, answer, now, limits);
    case Emit(t, emission, answer, now) =>
      EmitShape(w.db, t, w.tasks[t].request, emission, w.owner, now);
      EmitCallsOnce(w, t, emission, answer, now);
    case Finish(t, status, error, answer, now) =>
      EmitShape(w.db, t, w.tasks[t].request, EmitFinish(status, Some(error)), w.owner, now);
      FinishCallsOnce(w, t, status, error, answer, now);
    case UserCancel(t, request, answer, now) =>
      EmitShape(w.db, t, request, EmitFinish(Cancelled, None), w.owner, now);
      CancelCallsOnce(w, t, request, answer, now);
  }

  lemma {:induction false} StartCallsOnce(w: World, t: nat, answer: Answer, now: int, limits: Limits)
    requires t in w.tasks && w.tasks[t].phase.Starting?
    ensures var n := StartCalled(w, t, answer, now, limits);
      n.mine == w.mine && (n.db == w.db || n.db == Started(w.db, t, w.tasks[t].request, w.owner, now, limits).0)
  {
    hide Started;
  }

  lemma {:induction false} EmitCallsOnce(w: World, t: nat, emission: Emission, answer: Answer, now: int)
    requires t in w.tasks
    ensures var n := EmitCalled(w, t, emission, answer, now);
      n.mine == w.mine && (n.db == w.db || n.db == EmittedFor(w.db, t, w.tasks[t].request, emission, w.owner, now).0)
  {
    hide EmittedFor;
  }

  lemma {:induction false} FinishCallsOnce(w: World, t: nat, status: Status, error: string, answer: Answer, now: int)
    requires t in w.tasks && w.tasks[t].phase.Finishing?
    ensures var n := FinishCalled(w, t, status, error, answer, now);
      n.mine == w.mine && (n.db == w.db || n.db == EmittedFor(w.db, t, w.tasks[t].request, EmitFinish(status, Some(error)), w.owner, now).0)
  {
    hide EmittedFor;
  }

  lemma {:induction false} CancelCallsOnce(w: World, t: nat, request: Request, answer: Answer, now: int)
    ensures var n := UserCancelled(w, t, request, answer, now);
      n.mine == w.mine && (n.db == w.db || n.db == EmittedFor(w.db, t, request, EmitFinish(Cancelled, None), w.owner, now).0)
  {
    hide EmittedFor;
  }

  lemma {:induction false} OtherStepKeepsRow(w: World, a: Action, tid: nat)
    requires Allowed(w, a) && tid in w.db.rows
    requires !a.ForeignRotate? && !a.ForeignStart? && !a.ForeignEmit? && !a.Deliver?
    requires !a.CallStart? && !a.Emit? && !a.Finish? && !a.UserCancel?
    ensures tid in After(w, a).db.rows && w.mine <= After(w, a).mine && SameRow(w.db.rows[tid], After(w, a).db.rows[tid])
  {
    hide Rotated, EmittedFor, Started, Delivered, StartCalled, EmitCalled, FinishCalled, UserCancelled, RotateCalled, RenewCalled;
    match a
    case Rotate(answer, now) => LeaseStepKeepsRow(w, a, tid);
    case Renew(answer, now) => LeaseStepKeepsRow(w, a, tid);
    case _ =>
  }

  lemma {:induction false} LeaseStepKeepsRow(w: World, a: Action, tid: nat)
    requires Allowed(w, a) && tid in w.db.rows && (a.Rotate? || a.Renew?)
    ensures tid in After(w, a).db.rows && w.mine <= After(w, a).mine && SameRow(w.db.rows[tid], After(w, a).db.rows[tid])
  {
    hide Rotated, RotateCalled, RenewCalled;
    if a.Rotate? {
      RotateShape(w.db, w.pending.value.expected, w.pending.value.next, w.pending.value.claim, a.now);
      RotateCallsOnce(w, a.answer, a.now);
    } else {
      RotateShape(w.db, Some(w.owner), w.owner, false, a.now);
      RenewCallsOnce(w, a.answer, a.now);
    }
  }

  lemma {:induction false} RotateCallsOnce(w: World, answer: Answer, now: int)
    requires w.pending.Some?
    ensures var (n, p) := (RotateCalled(w, answer, now), w.pending.value);
      n.mine == w.mine && (n.db == w.db || n.db == Rotated(w.db, p.expected, p.next, p.claim, now).0)
  {
    hide Rotated;
  }

  lemma {:induction false} RenewCallsOnce(w: World, answer: Answer, now: int)
    ensures var n := RenewCalled(w, answer, now);
      n.mine == w.mine && (n.db == w.db || n.db == Rotated(w.db, Some(w.owner), w.owner, false, now).0)
  {
    hide Rotated;
  }

  lemma {:induction false} MessageKeepsRow(w: World, m: Message, now: int, limits: Limits, tid: nat)
    requires tid in w.db.rows
    ensures tid in Delivered(w, m, now, limits).db.rows && SameRow(w.db.rows[tid], Delivered(w, m, now, limits).db.rows[tid])
    ensures Delivered(w, m, now, limits).mine == w.mine
  {
    hide Rotated, EmittedFor, Started;
    match m
    case StartCall(t, request, owner) => StartShape(w.db, t, request, owner, now, limits);
    case EmitCall(t, request, emission, owner) => EmitShape(w.db, t, request, emission, owner, now);
    case LeaseCall(p) => RotateShape(w.db, p.expected, p.next, p.claim, now);
  }
}
