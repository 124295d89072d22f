/** What every run of the serving protocol guarantees about the active pointer. */
module ServingTheorems {
  import opened Outcomes
  import opened CatalogGenerations
  import opened CatalogServing
  import opened CatalogRuns

  // ----- Readiness ---------------------------------------------------------------------------

  /**
   At most one process holds the serving lock. When it is ready, and not between a new claim and
   the read of the state, what it serves is the stored active generation.
   */
  lemma {:induction false} ReadyServesActive(worlds: seq<World>, actions: seq<Action>, digests: Digests, k: nat, s: nat)
    requires IsRun(worlds, actions, digests) && k < |worlds| && s in worlds[k].servers
    requires HoldsLock(worlds[k].db, worlds[k].servers[s])
    ensures forall t :: t in worlds[k].servers && t != s ==> !HoldsLock(worlds[k].db, worlds[k].servers[t])
    ensures var (db, r) := (worlds[k].db, worlds[k].servers[s]);
      r.ready && !r.phase.Claimed? ==> db.active == Some(r.loaded.id) && Stored(db, r.loaded) && !r.transition
  {
    InvAlongRun(worlds, actions, digests, k);
    assert ServerInv(worlds[k].db, worlds[k].servers[s]);
    StoredNamesItself(worlds[k].db, worlds[k].servers[s].loaded, digests);
  }

  /** While its session lives, the activation of a poll never meets a conflict. */
  lemma {:induction false} ActivationNeverConflicts(worlds: seq<World>, actions: seq<Action>, digests: Digests, k: nat, s: nat)
    requires IsRun(worlds, actions, digests) && k < |worlds| && s in worlds[k].servers
    requires HoldsLock(worlds[k].db, worlds[k].servers[s]) && worlds[k].servers[s].phase.Activating?
    ensures var phase := worlds[k].servers[s].phase; Activated(worlds[k].db, phase.candidate.id, phase.expected).Ok?
  {
    InvAlongRun(worlds, actions, digests, k);
    assert ServerInv(worlds[k].db, worlds[k].servers[s]);
  }

  // ----- The pointer moves only onto a validated pending generation --------------------------

  predicate Activates(w: World, s: nat) {
    s in w.servers && HoldsLock(w.db, w.servers[s]) && w.servers[s].phase.Activating?
  }

  /** The state of process `s` when it opened the candidate that it is now activating. */
  predicate Opens(w: World, a: Action, s: nat, candidate: Generation, digests: Digests) {
    && a == Poll(s, TryPending(true)) && s in w.servers && w.servers[s].phase.Loading?
    && w.db.pending == Some(candidate.id) && Stored(w.db, candidate)
    && Validate(candidate, digests).None?
    && candidate.manifest.modelRevision == w.servers[s].loaded.manifest.modelRevision
  }

  /** One step back from a live activation: either the candidate was just opened, or nothing relevant moved. */
  lemma {:induction false} ActivationStepBack(w: World, a: Action, digests: Digests, s: nat)
    requires Inv(w, digests) && Allowed(w, a) && Activates(After(w, a, digests), s)
    ensures var n := After(w, a, digests);
      && s in w.servers && w.servers[s].session == n.servers[s].session && w.db.lock == n.db.lock
      && (Opens(w, a, s, n.servers[s].phase.candidate, digests) || (Activates(w, s) && w.servers[s].phase == n.servers[s].phase))
  {
    match a
    case Poll(t, step) =>
      if t == s {
        OwnStepBack(w, s, step, digests);
      } else {
        OtherStepBack(w, t, step, digests, s);
      }
    case Confirm(_) => WriteStepBack(w, a, digests, s);
    case Prepare(_) => WriteStepBack(w, a, digests, s);
    case Propose(_) => WriteStepBack(w, a, digests, s);
    case DropSession => WriteStepBack(w, a, digests, s);
    case _ => RestStepBack(w, a, digests, s);
  }

  lemma {:induction false} OwnStepBack(w: World, s: nat, step: Step, digests: Digests)
    requires Inv(w, digests) && s in w.servers && Enabled(w.servers[s], step)
    requires Activates(Polling(w, s, step, digests), s)
    ensures var n := Polling(w, s, step, digests);
      && w.servers[s].session == n.servers[s].session && w.db.lock == n.db.lock
      && Opens(w, Poll(s, step), s, n.servers[s].phase.candidate, digests)
  {
    hide Validate, Coherent;
    var r := w.servers[s];
    assert ServerInv(w.db, r);
    if step.TryPending? {
      CandidateIsStored(w.db, r.phase.pending, r.loaded.manifest.modelRevision, step.opens, digests);
    }
  }

  lemma {:induction false} OtherStepBack(w: World, t: nat, step: Step, digests: Digests, s: nat)
    requires Inv(w, digests) && t in w.servers && Enabled(w.servers[t], step) && s != t
    requires Activates(Polling(w, t, step, digests), s)
    ensures var n := Polling(w, t, step, digests);
      && s in w.servers && w.servers[s] == n.servers[s] && w.db.lock == n.db.lock && Activates(w, s)
  {
    hide Stepped, Coherent, Undisturbed;
    StepShape(w.db, w.servers[t], step, digests);
    StepSession(w.db, w.servers[t], step, digests);
    SessionsAreOld(w.db, w.servers[s]);
    assert ServerInv(w.db, w.servers[s]);
  }

  lemma {:induction false} WriteStepBack(w: World, a: Action, digests: Digests, s: nat)
    requires a.Confirm? || a.Prepare? || a.Propose? || a.DropSession?
    requires Activates(After(w, a, digests), s)
    ensures var n := After(w, a, digests);
      && s in w.servers && w.servers[s] == n.servers[s] && w.db.lock == n.db.lock && Activates(w, s)
  {
    hide Buried, Removed, Latest, FindReceipt, Validate;
  }

  lemma {:induction false} RestStepBack(w: World, a: Action, digests: Digests, s: nat)
    requires Inv(w, digests) && Allowed(w, a) && Activates(After(w, a, digests), s)
    requires !a.Poll? && !a.Confirm? && !a.Prepare? && !a.Propose? && !a.DropSession?
    ensures var n := After(w, a, digests);
      && s in w.servers && w.servers[s].phase == n.servers[s].phase && w.servers[s].session == n.servers[s].session
      && w.db.lock == n.db.lock && Activates(w, s)
  {
    hide Coherent, ServerInv;
  }

  /** Since step `j`, when `s` opened its candidate, that generation was pending and the session of `s` held the lock. */
  ghost predicate PendingSince(worlds: seq<World>, actions: seq<Action>, digests: Digests, s: nat, j: nat, k: nat, candidate: Generation)
    requires k < |worlds| == |actions| + 1
  {
    && j < k && Opens(worlds[j], actions[j], s, candidate, digests)
    && forall m :: j <= m <= k ==> worlds[m].db.pending == Some(candidate.id) && worlds[m].db.lock == worlds[k].db.lock
  }

  lemma {:induction false} CandidateWasPending(worlds: seq<World>, actions: seq<Action>, digests: Digests, s: nat, k: nat)
    requires IsRun(worlds, actions, digests) && k < |worlds| && Activates(worlds[k], s)
    ensures exists j: nat :: PendingSince(worlds, actions, digests, s, j, k, worlds[k].servers[s].phase.candidate)
  {
    var candidate := worlds[k].servers[s].phase.candidate;
    InvAlongRun(worlds, actions, digests, k);
    assert ServerInv(worlds[k].db, worlds[k].servers[s]);
    if k > 0 {
      InvAlongRun(worlds, actions, digests, k - 1);
      ActivationStepBack(worlds[k - 1], actions[k - 1], digests, s);
      if Opens(worlds[k - 1], actions[k - 1], s, candidate, digests) {
        assert PendingSince(worlds, actions, digests, s, k - 1, k, candidate);
      } else {
        CandidateWasPending(worlds, actions, digests, s, k - 1);
        var j: nat :| PendingSince(worlds, actions, digests, s, j, k - 1, candidate);
        assert PendingSince(worlds, actions, digests, s, j, k, candidate);
      }
    }
  }

  /**
   The active id changes only in the activation step of the process that holds the serving lock,
   onto a generation which that process opened and validated when it was already pending, and
   which stayed pending ever since.
   */
  lemma {:induction false} PointerMovesOnlyOntoValidated(worlds: seq<World>, actions: seq<Action>, digests: Digests, k: nat)
    requires IsRun(worlds, actions, digests) && k < |actions|
    requires worlds[k + 1].db.active != worlds[k].db.active
    ensures actions[k].Poll? && actions[k].step.ActivatePending? && Activates(worlds[k], actions[k].s)
    ensures var candidate := worlds[k].servers[actions[k].s].phase.candidate;
      && worlds[k + 1].db.active == Some(candidate.id) && worlds[k + 1].db.pending.None?
      && worlds[k + 1].db.revision == worlds[k].db.revision + 1
      && exists j: nat :: PendingSince(worlds, actions, digests, actions[k].s, j, k, candidate)
  {
    MoveIsActivation(worlds[k], actions[k], digests);
    CandidateWasPending(worlds, actions, digests, actions[k].s, k);
  }

  lemma {:induction false} MoveIsActivation(w: World, a: Action, digests: Digests)
    requires Allowed(w, a) && After(w, a, digests).db.active != w.db.active
    ensures a.Poll? && a.step.ActivatePending? && Activates(w, a.s)
    ensures var n := After(w, a, digests);
      n.db.active == Some(w.servers[a.s].phase.candidate.id) && n.db.pending.None? && n.db.revision == w.db.revision + 1
  {
    hide Buried, Removed, Latest, FindReceipt, Validate, Candidate;
    if a.Confirm? || a.Prepare? || a.Propose? || a.DropSession? {
      WritesOnlyTheDatabase(w, a, digests);
    }
  }

  // ----- Readiness checks --------------------------------------------------------------------

  /** A check that is being answered was begun while ready, then probed a live lock, then read the state. */
  ghost predicate Begun(worlds: seq<World>, actions: seq<Action>, c: nat, s: nat, b: nat, k: nat)
    requires k < |worlds| == |actions| + 1
  {
    && b < k && actions[b] == BeginCheck(c, s) && s in worlds[b].servers
    && worlds[b].servers[s].ready && !worlds[b].servers[s].transition
  }

  ghost predicate ProbedLive(worlds: seq<World>, actions: seq<Action>, c: nat, s: nat, p: nat, k: nat)
    requires k < |worlds| == |actions| + 1
  {
    && p < k && actions[p] == ProbeCheck(c, true) && s in worlds[p].servers
    && HoldsLock(worlds[p].db, worlds[p].servers[s])
    && exists b: nat :: Begun(worlds, actions, c, s, b, p)
  }

  ghost predicate ReadAt(worlds: seq<World>, actions: seq<Action>, c: nat, s: nat, j: nat, k: nat, active: Option<Id>)
    requires k < |worlds| == |actions| + 1
  {
    && j < k && actions[j] == ReadForCheck(c, true) && worlds[j].db.active == active
    && exists p: nat :: ProbedLive(worlds, actions, c, s, p, j)
  }

  ghost predicate Trail(worlds: seq<World>, actions: seq<Action>, c: nat, k: nat)
    requires k < |worlds| == |actions| + 1 && c in worlds[k].checks
  {
    match worlds[k].checks[c]
    case Probing(s) => exists b: nat :: Begun(worlds, actions, c, s, b, k)
    case Reading(s) => exists p: nat :: ProbedLive(worlds, actions, c, s, p, k)
    case Comparing(s, active) => exists j: nat :: ReadAt(worlds, actions, c, s, j, k, active)
  }

  /** A check in progress comes from its own previous step. */
  lemma {:induction false} CheckStepBack(w: World, a: Action, digests: Digests, c: nat)
    requires Allowed(w, a) && c in After(w, a, digests).checks
    ensures var check := After(w, a, digests).checks[c];
      || (c in w.checks && w.checks[c] == check)
      || (a == BeginCheck(c, check.server) && check.Probing? && check.server in w.servers
          && w.servers[check.server].ready && !w.servers[check.server].transition)
      || (a == ProbeCheck(c, true) && c in w.checks && w.checks[c] == Probing(check.server) && check.Reading?
          && check.server in w.servers && HoldsLock(w.db, w.servers[check.server]))
      || (a == ReadForCheck(c, true) && c in w.checks && w.checks[c] == Reading(check.server)
          && check == Comparing(check.server, w.db.active))
  {
    hide Buried, Removed, Latest, FindReceipt, Validate, Stepped, HoldsLock;
  }

  lemma {:induction false} CheckTrail(worlds: seq<World>, actions: seq<Action>, digests: Digests, c: nat, k: nat)
    requires IsRun(worlds, actions, digests) && k < |worlds| && c in worlds[k].checks
    ensures Trail(worlds, actions, c, k)
  {
    hide HoldsLock, Serving;
    if k > 0 {
      CheckStepBack(worlds[k - 1], actions[k - 1], digests, c);
      if c in worlds[k - 1].checks {
        CheckTrail(worlds, actions, digests, c, k - 1);
      }
      CheckTrailStep(worlds, actions, digests, c, k);
    }
  }

  lemma {:induction false} CheckTrailStep(worlds: seq<World>, actions: seq<Action>, digests: Digests, c: nat, k: nat)
    requires IsRun(worlds, actions, digests) && 0 < k < |worlds| && c in worlds[k].checks
    requires c in worlds[k - 1].checks ==> Trail(worlds, actions, c, k - 1)
    ensures Trail(worlds, actions, c, k)
  {
    CheckStepBack(worlds[k - 1], actions[k - 1], digests, c);
    hide HoldsLock, Serving, After, Allowed;
    var check := worlds[k].checks[c];
    var s := check.server;
    if c in worlds[k - 1].checks && worlds[k - 1].checks[c] == check {
      match check
      case Probing(_) =>
        var b: nat :| Begun(worlds, actions, c, s, b, k - 1);
        assert Begun(worlds, actions, c, s, b, k);
      case Reading(_) =>
        var p: nat :| ProbedLive(worlds, actions, c, s, p, k - 1);
        assert ProbedLive(worlds, actions, c, s, p, k);
      case Comparing(_, active) =>
        var j: nat :| ReadAt(worlds, actions, c, s, j, k - 1, active);
        assert ReadAt(worlds, actions, c, s, j, k, active);
    } else if check.Probing? {
      assert Begun(worlds, actions, c, s, k - 1, k);
    } else if check.Reading? {
      assert ProbedLive(worlds, actions, c, s, k - 1, k);
    } else {
      assert ReadAt(worlds, actions, c, s, k - 1, k, check.active);
    }
  }

  /**
   A check that answers true: the catalog loaded at its return is a stored, self-named generation,
   and it is the one the database named active when the check read it, after the check found the
   process ready and its lock session alive.
   */
  lemma {:induction false} TrueCheckNamesTheActive(worlds: seq<World>, actions: seq<Action>, digests: Digests, k: nat)
    requires IsRun(worlds, actions, digests) && k < |actions| && actions[k].EndCheck?
    requires Answer(worlds[k], actions[k].c)
    ensures var s := worlds[k].checks[actions[k].c].server;
      var loaded := worlds[k].servers[s].loaded;
      && Stored(worlds[k].db, loaded)
      && exists j: nat :: ReadAt(worlds, actions, actions[k].c, s, j, k, Some(loaded.id))
  {
    CheckTrail(worlds, actions, digests, actions[k].c, k);
    InvAlongRun(worlds, actions, digests, k);
    var s := worlds[k].checks[actions[k].c].server;
    assert ServerInv(worlds[k].db, worlds[k].servers[s]);
    StoredNamesItself(worlds[k].db, worlds[k].servers[s].loaded, digests);
  }

  // ----- The steps of one poll ---------------------------------------------------------------

  function NextStep(phase: Phase, luck: Luck): Step {
    match phase
    case Idle => Claim(luck.probe, luck.connects)
    case Claimed => ReadState(luck.readable)
    case Reconciling(_, _) => Reconcile(luck.opensActive)
    case Loading(_, _) => TryPending(luck.opensPending)
    case Rejecting(_) => RejectPending(luck.commit)
    case Activating(_, _) => ActivatePending(luck.commit)
    case Committed(_) => SwapIn
    case Swapped => EndTransition
    case Finishing => ReadBack(luck.readableAgain)
  }

  function StepsLeft(phase: Phase): nat {
    match phase
    case Idle => 0
    case Claimed => 9
    case Reconciling(_, _) => 8
    case Loading(_, _) => 7
    case Rejecting(_) => 6
    case Activating(_, _) => 6
    case Committed(_) => 5
    case Swapped => 4
    case Finishing => 1
  }

  lemma {:induction false} StepsRunOut(db: Database, r: Runtime, luck: Luck, digests: Digests)
    requires !r.phase.Idle?
    ensures StepsLeft(Stepped(db, r, NextStep(r.phase, luck), digests).1.phase) < StepsLeft(r.phase)
  {
    hide Candidate, Activated, Rejected, HoldsLock;
  }

  /** A poll that has started, with nothing between its steps, until it is over. */
  function StepsToEnd(db: Database, r: Runtime, luck: Luck, digests: Digests): (Database, Runtime)
    decreases StepsLeft(r.phase)
  {
    if r.phase.Idle? then (db, r)
    else
      StepsRunOut(db, r, luck, digests);
      var (d, n) := Stepped(db, r, NextStep(r.phase, luck), digests);
      StepsToEnd(d, n, luck, digests)
  }

  /** The steps of an uninterrupted poll are, together, the poll of the runtime class. */
  lemma {:induction false} StepsMakeAPoll(db: Database, r: Runtime, luck: Luck, digests: Digests)
    requires r.phase.Idle?
    ensures var (d, n) := Stepped(db, r, NextStep(Idle, luck), digests);
      StepsToEnd(d, n, luck, digests) == Polled(db, r, luck, digests)
  {
    hide Served, StepsToEnd, StateRead;
    var (d, n) := Stepped(db, r, Claim(luck.probe, luck.connects), digests);
    if n.phase.Claimed? {
      StepsServe(d, n, luck, digests);
    } else {
      StepsEnd(d, n, luck, digests);
    }
  }

  lemma {:induction false} StepsEnd(db: Database, r: Runtime, luck: Luck, digests: Digests)
    requires r.phase.Idle? || r.phase.Finishing?
    ensures StepsToEnd(db, r, luck, digests) == Ended(db, r, luck)
  {
    if r.phase.Finishing? {
      assert StepsToEnd(db, ReadAgain(db, r, luck.readableAgain), luck, digests) == (db, ReadAgain(db, r, luck.readableAgain));
    }
  }

  lemma {:induction false} StepsServe(db: Database, r: Runtime, luck: Luck, digests: Digests)
    requires r.phase.Claimed?
    ensures StepsToEnd(db, r, luck, digests) == Served(db, r, luck, digests)
  {
    hide PendingHandled, Candidate;
    var read := StateRead(db, r, luck.readable);
    var handled := ActiveHandled(db, r, luck, digests);
    assert StepsToEnd(db, r, luck, digests) == StepsToEnd(db, read, luck, digests);
    assert StepsToEnd(db, read, luck, digests) == StepsToEnd(db, handled, luck, digests);
    if handled.phase.Loading? {
      StepsHandlePending(db, handled, luck, digests);
    } else {
      StepsEnd(db, handled, luck, digests);
    }
  }

  lemma {:induction false} StepsHandlePending(db: Database, r: Runtime, luck: Luck, digests: Digests)
    requires r.phase.Loading?
    ensures var (d, n) := PendingHandled(db, r, luck, digests);
      StepsToEnd(db, r, luck, digests) == Ended(d, n, luck)
  {
    hide Candidate, Activated, Rejected, HoldsLock;
    var tried := PendingTried(db, r, luck.opensPending, digests);
    var (d, n) := PendingHandled(db, r, luck, digests);
    assert StepsToEnd(db, r, luck, digests) == StepsToEnd(db, tried, luck, digests);
    if tried.phase.Activating? {
      var (e, a) := ActivateTried(db, tried, luck.commit);
      assert StepsToEnd(db, tried, luck, digests) == StepsToEnd(e, a, luck, digests);
      if a.phase.Committed? {
        assert StepsToEnd(e, a, luck, digests) == StepsToEnd(e, SwappedIn(a), luck, digests);
        assert StepsToEnd(e, SwappedIn(a), luck, digests) == StepsToEnd(e, TransitionEnded(SwappedIn(a)), luck, digests);
      }
    }
    StepsEnd(d, n, luck, digests);
  }

  /**
   In any reachable state, after any crash, lost reply or lost connection: a process whose poll
   is not under way and that can get the lock becomes ready on the active generation by one
   uninterrupted poll whose loads succeed.
   */
  lemma {:induction false} UndisturbedPollRecovers(worlds: seq<World>, actions: seq<Action>, digests: Digests, k: nat, s: nat)
    requires IsRun(worlds, actions, digests) && k < |worlds| && s in worlds[k].servers && worlds[k].servers[s].phase.Idle?
    requires HoldsLock(worlds[k].db, worlds[k].servers[s]) || worlds[k].db.lock.None?
    requires worlds[k].db.active.Some? || worlds[k].db.pending.Some?
    requires SameEncoder(worlds[k].db, worlds[k].servers[s])
    ensures var (start, r) := Stepped(worlds[k].db, worlds[k].servers[s], Claim(true, true), digests);
      var (d, n) := StepsToEnd(start, r, GoodLuck(), digests);
      && n.ready && HoldsLock(d, n) && d.active == Some(n.loaded.id) && Stored(d, n.loaded) && d.pending.None?
      && d.active == (if worlds[k].db.pending.Some? then worlds[k].db.pending else worlds[k].db.active)
  {
    var (db, r) := (worlds[k].db, worlds[k].servers[s]);
    InvAlongRun(worlds, actions, digests, k);
    assert ServerInv(db, r);
    UndisturbedPollServesActive(db, r, digests);
    AnyPollIsHonest(db, r, GoodLuck(), digests);
    StepsMakeAPoll(db, r, GoodLuck(), digests);
    var (d, n) := Polled(db, r, GoodLuck(), digests);
    StoredNamesItself(d, n.loaded, digests);
  }
}
