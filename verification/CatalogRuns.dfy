/**
 Every interleaving of the sync job's transactions, any number of Search processes with their
 polls and readiness checks, lost connections and lost replies, crashes and restarts.
 */
module CatalogRuns {
  import opened Outcomes
  import opened CatalogGenerations
  import opened CatalogServing

  /** One readiness check: which process it asks, and how far it has come. */
  datatype Check =
    | Probing(server: nat)
    | Reading(server: nat)
    | Comparing(server: nat, active: Option<Id>)

  /** `base` is the catalog that was active before the first confirmed export. */
  datatype World = World(db: Database, base: seq<Product>, servers: map<nat, Runtime>, checks: map<nat, Check>)

  datatype Step =
    | Claim(probe: bool, connects: bool)
    | ReadState(readable: bool)
    | Reconcile(opens: bool)
    | TryPending(opens: bool)
    | RejectPending(commit: Commit)
    | ActivatePending(commit: Commit)
    | SwapIn
    | EndTransition
    | ReadBack(readable: bool)

  datatype Action =
    | Confirm(receipt: Receipt)
    | Prepare(generation: Generation)
    | Propose(id: Id)
    | DropSession
    | Start(s: nat, opens: bool)
    | Crash(s: nat)
    | Poll(s: nat, step: Step)
    | BeginCheck(c: nat, s: nat)
    | ProbeCheck(c: nat, ok: bool)
    | ReadForCheck(c: nat, readable: bool)
    | EndCheck(c: nat)

  const INITIAL := World(EMPTY, [], map[], map[])

  predicate Enabled(r: Runtime, step: Step) {
    match step
    case Claim(_, _) => r.phase.Idle?
    case ReadState(_) => r.phase.Claimed?
    case Reconcile(_) => r.phase.Reconciling?
    case TryPending(_) => r.phase.Loading?
    case RejectPending(_) => r.phase.Rejecting?
    case ActivatePending(_) => r.phase.Activating?
    case SwapIn => r.phase.Committed?
    case EndTransition => r.phase.Swapped?
    case ReadBack(_) => r.phase.Finishing?
  }

  function Stepped(db: Database, r: Runtime, step: Step, digests: Digests): (Database, Runtime)
    requires Enabled(r, step)
  {
    match step
    case Claim(probe, connects) => ClaimTaken(db, r, probe, connects)
    case ReadState(readable) => (db, StateRead(db, r, readable))
    case Reconcile(opens) => (db, Reconciled(db, r, opens, digests))
    case TryPending(opens) => (db, PendingTried(db, r, opens, digests))
    case RejectPending(commit) => RejectTried(db, r, commit)
    case ActivatePending(commit) => ActivateTried(db, r, commit)
    case SwapIn => (db, SwappedIn(r))
    case EndTransition => (db, TransitionEnded(r))
    case ReadBack(readable) => (db, ReadAgain(db, r, readable))
  }

  predicate Allowed(w: World, a: Action) {
    match a
    case Start(s, _) => s !in w.servers && forall c :: c in w.checks ==> w.checks[c].server != s
    case Crash(s) => s in w.servers
    case Poll(s, step) => s in w.servers && Enabled(w.servers[s], step)
    case BeginCheck(c, s) => c !in w.checks && s in w.servers
    case ProbeCheck(c, _) => c in w.checks && w.checks[c].Probing? && w.checks[c].server in w.servers
    case ReadForCheck(c, _) => c in w.checks && w.checks[c].Reading? && w.checks[c].server in w.servers
    case EndCheck(c) => c in w.checks && w.checks[c].Comparing? && w.checks[c].server in w.servers
    case _ => true
  }

  /** A process starts on the active generation, or on the pending one when nothing is active yet. */
  function Started(w: World, s: nat, opens: bool, digests: Digests): World {
    var id := if w.db.active.Some? then w.db.active else w.db.pending;
    if id.None? || !opens then w
    else
      match Loaded(w.db, id.value, digests)
      case Err(_) => w
      case Ok(g) => w.(servers := w.servers[s := Runtime(None, false, false, g, Idle)])
  }

  function Crashed(w: World, s: nat): World
    requires s in w.servers
  {
    w.(db := if HoldsLock(w.db, w.servers[s]) then w.db.(lock := None) else w.db,
       servers := w.servers - {s},
       checks := map c | c in w.checks && w.checks[c].server != s :: w.checks[c])
  }

  /** A check that fails closes readiness and answers false. */
  function CheckFailed(w: World, c: nat): World
    requires c in w.checks && w.checks[c].server in w.servers
  {
    var s := w.checks[c].server;
    w.(servers := w.servers[s := w.servers[s].(ready := false)], checks := w.checks - {c})
  }

  function Probed(w: World, c: nat, ok: bool): World
    requires c in w.checks && w.checks[c].server in w.servers
  {
    if ok && HoldsLock(w.db, w.servers[w.checks[c].server])
    then w.(checks := w.checks[c := Reading(w.checks[c].server)])
    else CheckFailed(w, c)
  }

  function ReadFor(w: World, c: nat, readable: bool): World
    requires c in w.checks && w.checks[c].server in w.servers
  {
    if readable then w.(checks := w.checks[c := Comparing(w.checks[c].server, w.db.active)]) else CheckFailed(w, c)
  }

  /** The answer of a check that got as far as comparing. */
  predicate Answer(w: World, c: nat)
    requires Allowed(w, EndCheck(c))
  {
    w.checks[c].active == Serving(w.servers[w.checks[c].server])
  }

  function Exported(w: World, receipt: Receipt): World {
    match Confirmed(w.db, receipt)
    case Err(_) => w
    case Ok(d) => w.(db := d, base := if w.db.receipts == [] then ActiveProducts(w.db) else w.base)
  }

  function Polling(w: World, s: nat, step: Step, digests: Digests): World
    requires s in w.servers && Enabled(w.servers[s], step)
  {
    var (d, r) := Stepped(w.db, w.servers[s], step, digests);
    w.(db := d, servers := w.servers[s := r])
  }

  function After(w: World, a: Action, digests: Digests): World
    requires Allowed(w, a)
  {
    match a
    case Confirm(receipt) => Exported(w, receipt)
    case Prepare(g) => var d := Prepared(w.db, g, digests); if d.Ok? then w.(db := d.value) else w
    case Propose(id) => var d := Proposed(w.db, id); if d.Ok? then w.(db := d.value) else w
    case DropSession => w.(db := w.db.(lock := None))
    case Start(s, opens) => Started(w, s, opens, digests)
    case Crash(s) => Crashed(w, s)
    case Poll(s, step) => Polling(w, s, step, digests)
    case BeginCheck(c, s) =>
      if !w.servers[s].ready || w.servers[s].transition then w else w.(checks := w.checks[c := Probing(s)])
    case ProbeCheck(c, ok) => Probed(w, c, ok)
    case ReadForCheck(c, readable) => ReadFor(w, c, readable)
    case EndCheck(c) => w.(checks := w.checks - {c})
  }

  ghost predicate IsRun(worlds: seq<World>, actions: seq<Action>, digests: Digests) {
    && |worlds| == |actions| + 1
    && worlds[0] == INITIAL
    && forall k :: 0 <= k < |actions| ==> Allowed(worlds[k], actions[k]) && worlds[k + 1] == After(worlds[k], actions[k], digests)
  }

  // ----- The invariant -----------------------------------------------------------------------

  /** What the process whose session holds the lock knows about the pointer row, phase by phase. */
  predicate Knows(db: Database, r: Runtime) {
    && (r.ready && !r.phase.Claimed? ==> Serving(r) == db.active)
    && match r.phase
       case Idle => true
       case Claimed => true
       case Reconciling(active, waiting) => db.active == Some(active) && (waiting.Some? ==> db.pending == waiting)
       case Loading(expected, pending) =>
         db.active == expected && db.pending == Some(pending) && (expected.Some? ==> Serving(r) == expected)
       case Rejecting(pending) => db.pending == Some(pending) && (db.active.Some? ==> Serving(r) == db.active)
       case Activating(expected, candidate) =>
         db.active == expected && db.pending == Some(candidate.id) && (expected.Some? ==> Serving(r) == expected)
       case Committed(candidate) => db.active == Some(candidate.id)
       case Swapped => db.active == Serving(r)
       case Finishing => db.active.Some? ==> Serving(r) == db.active
  }

  predicate InTransition(phase: Phase) {
    phase.Activating? || phase.Committed? || phase.Swapped?
  }

  /** What holds of every process, serving or not. */
  predicate Plain(db: Database, r: Runtime) {
    && Stored(db, r.loaded)
    && (r.phase.Activating? || r.phase.Committed? ==> Stored(db, r.phase.candidate))
    && (r.session.Some? ==> r.session.value < db.sessions)
    && (r.transition <==> InTransition(r.phase))
    && (r.transition || r.phase.Reconciling? ==> !r.ready)
    && (r.ready ==> db.active.Some?)
  }

  predicate ServerInv(db: Database, r: Runtime) {
    Plain(db, r) && (HoldsLock(db, r) ==> Knows(db, r))
  }

  predicate OneServing(servers: map<nat, Runtime>) {
    forall s, t :: s in servers && t in servers && s != t && servers[s].session.Some? ==> servers[s].session != servers[t].session
  }

  predicate Inv(w: World, digests: Digests) {
    && Coherent(w.db, digests)
    && OneServing(w.servers)
    && forall s :: s in w.servers ==> ServerInv(w.db, w.servers[s])
  }

  // ----- Steps of the database seen by a process that does not take them ---------------------

  /** `d` keeps everything that `r` may rely on in `db`. */
  predicate Undisturbed(db: Database, d: Database, r: Runtime) {
    && (forall id :: id in db.generations ==> id in d.generations && d.generations[id] == db.generations[id])
    && db.sessions <= d.sessions
    && (db.active.Some? ==> d.active.Some?)
    && (HoldsLock(d, r) ==> HoldsLock(db, r) && d.active == db.active && (db.pending.Some? ==> d.pending == db.pending))
  }

  lemma {:induction false} UndisturbedKeeps(db: Database, d: Database, r: Runtime)
    requires ServerInv(db, r) && Undisturbed(db, d, r)
    ensures ServerInv(d, r)
  {
  }

  /** The sync job's transactions disturb nobody: they never touch the active id or replace a pending one. */
  lemma {:induction false} WritesUndisturbing(w: World, a: Action, digests: Digests, r: Runtime)
    requires a.Confirm? || a.Prepare? || a.Propose? || a.DropSession?
    ensures Undisturbed(w.db, After(w, a, digests).db, r)
  {
    hide Buried, Removed, Latest, FindReceipt, Validate;
    hide Polling, Started, Crashed, Probed, ReadFor;
  }

  lemma {:induction false} WritesOnlyTheDatabase(w: World, a: Action, digests: Digests)
    requires a.Confirm? || a.Prepare? || a.Propose? || a.DropSession?
    ensures var n := After(w, a, digests); n.servers == w.servers && n.checks == w.checks && n.db.active == w.db.active
  {
    hide Buried, Removed, Latest, FindReceipt, Validate;
    hide Polling, Started, Crashed, Probed, ReadFor;
  }

  lemma {:induction false} WritesCoherent(w: World, a: Action, digests: Digests)
    requires Coherent(w.db, digests)
    requires a.Confirm? || a.Prepare? || a.Propose? || a.DropSession?
    ensures Coherent(After(w, a, digests).db, digests)
  {
    hide Buried, Removed, Latest, FindReceipt, Validate, Sound;
    hide Polling, Started, Crashed, Probed, ReadFor;
    if a.Prepare? && Prepared(w.db, a.generation, digests).Ok? {
      PreparedIsSound(w.db, a.generation, digests);
    }
  }

  lemma {:induction false} PreparedIsSound(db: Database, g: Generation, digests: Digests)
    requires Prepared(db, g, digests).Ok?
    ensures Sound(g.id, g, digests)
  {
    hide SameContent, FindReceipt;
  }

  lemma {:induction false} StoredNamesItself(db: Database, g: Generation, digests: Digests)
    requires Coherent(db, digests) && Stored(db, g)
    ensures g.catalog.version == Some(g.id)
  {
    hide Validate;
    assert Sound(g.id, g, digests);
  }

  // ----- A poll step of one process ----------------------------------------------------------

  /** A step changes no stored generation, and the pointer and the lock only through a held session. */
  lemma {:induction false} StepShape(db: Database, r: Runtime, step: Step, digests: Digests)
    requires Enabled(r, step)
    ensures var (d, n) := Stepped(db, r, step, digests);
      && d.generations == db.generations && d.receipts == db.receipts && d.tombstones == db.tombstones
      && db.sessions <= d.sessions && (db.active.Some? ==> d.active.Some?)
      && (d.lock == db.lock || (d.lock.None? && HoldsLock(db, r)) || (d.lock == Some(db.sessions) && n.session == d.lock && step.Claim?))
      && (d.active != db.active || d.pending != db.pending ==> HoldsLock(db, r))
  {
    hide Candidate, StateRead, ReadAgain;
  }

  lemma {:induction false} StepSession(db: Database, r: Runtime, step: Step, digests: Digests)
    requires Enabled(r, step)
    ensures var (d, n) := Stepped(db, r, step, digests);
      n.session == r.session || n.session.None? || (n.session == Some(db.sessions) && d.sessions == db.sessions + 1)
  {
    hide Candidate, Activated, Rejected;
  }

  lemma {:induction false} StepCoherent(db: Database, r: Runtime, step: Step, digests: Digests)
    requires Enabled(r, step) && Coherent(db, digests)
    ensures Coherent(Stepped(db, r, step, digests).0, digests)
  {
    if r.phase.Idle? {
      HonestClaimCoherent(db, r, step.probe, step.connects, digests);
    } else {
      StepCoherentAfterClaim(db, r, step, digests);
    }
  }

  lemma {:induction false} HonestClaimCoherent(db: Database, r: Runtime, probe: bool, connects: bool, digests: Digests)
    requires Coherent(db, digests)
    ensures Coherent(ClaimTaken(db, r, probe, connects).0, digests)
  {
    hide Validate, Sound;
  }

  lemma {:induction false} StepCoherentAfterClaim(db: Database, r: Runtime, step: Step, digests: Digests)
    requires Enabled(r, step) && !step.Claim? && Coherent(db, digests)
    ensures Coherent(Stepped(db, r, step, digests).0, digests)
  {
    hide Coherent, Candidate, StateRead, ReadAgain;
    if r.phase.Rejecting? {
      PointerStaysCoherent(db, r.phase.pending, None, digests);
    } else if r.phase.Activating? {
      PointerStaysCoherent(db, r.phase.candidate.id, r.phase.expected, digests);
    }
  }

  lemma {:induction false} StepUndisturbing(db: Database, r: Runtime, step: Step, digests: Digests, other: Runtime)
    requires Enabled(r, step)
    requires other.session.Some? ==> other.session != r.session && other.session.value < db.sessions
    ensures Undisturbed(db, Stepped(db, r, step, digests).0, other)
  {
    hide Stepped;
    StepShape(db, r, step, digests);
  }

  lemma {:induction false} StepKeepsPlain(db: Database, r: Runtime, step: Step, digests: Digests)
    requires Enabled(r, step) && Coherent(db, digests) && Plain(db, r)
    ensures Plain(Stepped(db, r, step, digests).0, Stepped(db, r, step, digests).1)
  {
    hide Validate, Sound, Candidate;
    match step
    case Reconcile(opens) =>
      CandidateIsStored(db, r.phase.active, r.loaded.manifest.modelRevision, opens, digests);
    case TryPending(opens) =>
      CandidateIsStored(db, r.phase.pending, r.loaded.manifest.modelRevision, opens, digests);
    case ReadBack(_) =>
      StoredNamesItself(db, r.loaded, digests);
    case _ =>
  }

  lemma {:induction false} StepKeepsKnowledge(db: Database, r: Runtime, step: Step, digests: Digests)
    requires Enabled(r, step) && Coherent(db, digests) && ServerInv(db, r)
    ensures var (d, n) := Stepped(db, r, step, digests); HoldsLock(d, n) ==> Knows(d, n)
  {
    hide Validate, Sound, Candidate;
    match step
    case Reconcile(opens) =>
      CandidateIsStored(db, r.phase.active, r.loaded.manifest.modelRevision, opens, digests);
    case TryPending(opens) =>
      CandidateIsStored(db, r.phase.pending, r.loaded.manifest.modelRevision, opens, digests);
    case SwapIn =>
      StoredNamesItself(db, r.phase.candidate, digests);
    case _ =>
  }

  lemma {:induction false} StepKeepsServer(db: Database, r: Runtime, step: Step, digests: Digests)
    requires Enabled(r, step) && Coherent(db, digests) && ServerInv(db, r)
    ensures ServerInv(Stepped(db, r, step, digests).0, Stepped(db, r, step, digests).1)
  {
    hide Stepped, Plain, Knows;
    StepKeepsPlain(db, r, step, digests);
    StepKeepsKnowledge(db, r, step, digests);
  }

  // ----- Preservation ------------------------------------------------------------------------

  lemma {:induction false} PollKeepsInv(w: World, s: nat, step: Step, digests: Digests)
    requires Inv(w, digests) && s in w.servers && Enabled(w.servers[s], step)
    ensures Inv(Polling(w, s, step, digests), digests)
  {
    hide Stepped, Coherent, ServerInv, Undisturbed;
    var n := Polling(w, s, step, digests);
    StepCoherent(w.db, w.servers[s], step, digests);
    StepSession(w.db, w.servers[s], step, digests);
    StepKeepsServer(w.db, w.servers[s], step, digests);
    forall t | t in w.servers && t != s
      ensures ServerInv(n.db, w.servers[t]) && (w.servers[t].session.Some? ==> w.servers[t].session != n.servers[s].session)
    {
      SessionsAreOld(w.db, w.servers[t]);
      StepUndisturbing(w.db, w.servers[s], step, digests, w.servers[t]);
      UndisturbedKeeps(w.db, n.db, w.servers[t]);
    }
  }

  lemma {:induction false} SessionsAreOld(db: Database, r: Runtime)
    requires ServerInv(db, r)
    ensures r.session.Some? ==> r.session.value < db.sessions
  {
  }

  lemma {:induction false} WriteKeepsInv(w: World, a: Action, digests: Digests)
    requires Inv(w, digests) && (a.Confirm? || a.Prepare? || a.Propose? || a.DropSession?)
    ensures Inv(After(w, a, digests), digests)
  {
    hide After, Coherent, ServerInv, Undisturbed;
    WritesCoherent(w, a, digests);
    var n := After(w, a, digests);
    WritesOnlyTheDatabase(w, a, digests);
    forall s | s in w.servers ensures ServerInv(n.db, w.servers[s]) {
      WritesUndisturbing(w, a, digests, w.servers[s]);
      UndisturbedKeeps(w.db, n.db, w.servers[s]);
    }
  }

  lemma {:induction false} CrashKeepsInv(w: World, s: nat, digests: Digests)
    requires Inv(w, digests) && s in w.servers
    ensures Inv(Crashed(w, s), digests)
  {
    hide Validate, Sound, ServerInv;
    var n := Crashed(w, s);
    forall t | t in n.servers ensures ServerInv(n.db, n.servers[t]) {
      UndisturbedKeeps(w.db, n.db, w.servers[t]);
    }
  }

  lemma {:induction false} StartKeepsInv(w: World, s: nat, opens: bool, digests: Digests)
    requires Inv(w, digests) && s !in w.servers
    ensures Inv(Started(w, s, opens, digests), digests)
  {
    hide Validate, Knows;
    var id := if w.db.active.Some? then w.db.active else w.db.pending;
    if id.Some? {
      assert Sound(id.value, w.db.generations[id.value], digests);
    }
  }

  /** Closing readiness is always safe. */
  lemma {:induction false} CheckKeepsInv(w: World, a: Action, digests: Digests)
    requires Inv(w, digests) && Allowed(w, a) && (a.BeginCheck? || a.ProbeCheck? || a.ReadForCheck? || a.EndCheck?)
    ensures Inv(After(w, a, digests), digests)
  {
    hide Coherent;
    var n := After(w, a, digests);
    forall s | s in n.servers ensures ServerInv(n.db, n.servers[s]) {
      assert ServerInv(w.db, w.servers[s]);
    }
  }

  lemma {:induction false} StepKeepsInv(w: World, a: Action, digests: Digests)
    requires Inv(w, digests) && Allowed(w, a)
    ensures Inv(After(w, a, digests), digests)
  {
    hide Inv;
    match a
    case Start(s, opens) => StartKeepsInv(w, s, opens, digests);
    case Crash(s) => CrashKeepsInv(w, s, digests);
    case Poll(s, step) => PollKeepsInv(w, s, step, digests);
    case Confirm(_) => WriteKeepsInv(w, a, digests);
    case Prepare(_) => WriteKeepsInv(w, a, digests);
    case Propose(_) => WriteKeepsInv(w, a, digests);
    case DropSession => WriteKeepsInv(w, a, digests);
    case _ => CheckKeepsInv(w, a, digests);
  }

  lemma {:induction false} InvAlongRun(worlds: seq<World>, actions: seq<Action>, digests: Digests, k: nat)
    requires IsRun(worlds, actions, digests) && k < |worlds|
    ensures Inv(worlds[k], digests)
  {
    if k > 0 {
      InvAlongRun(worlds, actions, digests, k - 1);
      StepKeepsInv(worlds[k - 1], actions[k - 1], digests);
    }
  }
}
