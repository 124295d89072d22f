/**
 The serving Search: one poll claims the serving lock, reconciles the loaded catalog with the
 active pointer, and validates and activates a pending generation. Each function is what happens
 between two awaits of the poll.
 */
module CatalogServing {
  import opened Outcomes
  import opened CatalogGenerations

  datatype Phase =
    | Idle
    | Claimed
    | Reconciling(active: Id, waiting: Option<Id>)
    | Loading(expected: Option<Id>, pending: Id)
    | Rejecting(pending: Id)
    | Activating(expected: Option<Id>, candidate: Generation)
    | Committed(candidate: Generation)
    | Swapped
    | Finishing

  /** `session` is the connection whose advisory lock makes this process the serving one. */
  datatype Runtime = Runtime(session: Option<nat>, ready: bool, transition: bool, loaded: Generation, phase: Phase)

  /** A write on the lock-owning connection: done, lost after its commit, or without effect. */
  datatype Commit = Done | Lost | NotDone

  predicate HoldsLock(db: Database, r: Runtime) {
    r.session.Some? && db.lock == r.session
  }

  function Serving(r: Runtime): Option<Id> {
    r.loaded.catalog.version
  }

  /** Any exception out of the poll closes readiness. */
  function Abandoned(r: Runtime): Runtime {
    r.(ready := false, transition := false, phase := Idle)
  }

  function Connected(db: Database, r: Runtime, connects: bool): (Database, Runtime) {
    if connects && db.lock.None?
    then (db.(lock := Some(db.sessions), sessions := db.sessions + 1), r.(session := Some(db.sessions), phase := Claimed))
    else (db, Abandoned(r.(session := None)))
  }

  /** A live connection keeps its claim; a broken one is closed, which frees its lock, before a new attempt. */
  function ClaimTaken(db: Database, r: Runtime, probe: bool, connects: bool): (Database, Runtime) {
    if HoldsLock(db, r) && probe then (db, r.(phase := Claimed))
    else Connected(if HoldsLock(db, r) then db.(lock := None) else db, r, connects)
  }

  function PendingNext(r: Runtime, expected: Option<Id>, pending: Option<Id>): Runtime {
    r.(phase := if pending.Some? then Loading(expected, pending.value) else Finishing)
  }

  function StateRead(db: Database, r: Runtime, readable: bool): Runtime {
    if !readable then Abandoned(r)
    else if db.active.Some? && db.active != Serving(r) then r.(ready := false, phase := Reconciling(db.active.value, db.pending))
    else PendingNext(r, db.active, db.pending)
  }

  /** A candidate that opens, from a stored valid generation with the serving encoder revision. */
  function Candidate(db: Database, id: Id, revision: Option<string>, opens: bool, digests: Digests): Option<Generation> {
    match Loaded(db, id, digests)
    case Err(_) => None
    case Ok(g) => if opens && g.manifest.modelRevision == revision then Some(g) else None
  }

  function Reconciled(db: Database, r: Runtime, opens: bool, digests: Digests): Runtime
    requires r.phase.Reconciling?
  {
    match Candidate(db, r.phase.active, r.loaded.manifest.modelRevision, opens, digests)
    case None => Abandoned(r)
    case Some(g) => PendingNext(r.(loaded := g), Some(r.phase.active), r.phase.waiting)
  }

  function PendingTried(db: Database, r: Runtime, opens: bool, digests: Digests): Runtime
    requires r.phase.Loading?
  {
    match Candidate(db, r.phase.pending, r.loaded.manifest.modelRevision, opens, digests)
    case None => r.(phase := Rejecting(r.phase.pending))
    case Some(g) => r.(ready := false, transition := true, phase := Activating(r.phase.expected, g))
  }

  /** The rejection runs on the lock-owning connection. */
  function RejectTried(db: Database, r: Runtime, commit: Commit): (Database, Runtime)
    requires r.phase.Rejecting?
  {
    if !HoldsLock(db, r) || commit.NotDone? then (db, Abandoned(r))
    else
      var n := Rejected(db, r.phase.pending);
      if commit.Done? then (n, r.(phase := Finishing)) else (n.(lock := None), Abandoned(r))
  }

  function ActivateTried(db: Database, r: Runtime, commit: Commit): (Database, Runtime)
    requires r.phase.Activating?
  {
    if !HoldsLock(db, r) || commit.NotDone? then (db, Abandoned(r))
    else
      match Activated(db, r.phase.candidate.id, r.phase.expected)
      case Err(_) => (db, Abandoned(r))
      case Ok(n) => if commit.Done? then (n, r.(phase := Committed(r.phase.candidate))) else (n.(lock := None), Abandoned(r))
  }

  function SwappedIn(r: Runtime): Runtime
    requires r.phase.Committed?
  {
    r.(loaded := r.phase.candidate, phase := Swapped)
  }

  function TransitionEnded(r: Runtime): Runtime {
    r.(transition := false, phase := Finishing)
  }

  function ReadAgain(db: Database, r: Runtime, readable: bool): Runtime {
    if !readable then Abandoned(r) else r.(ready := db.active == Serving(r), phase := Idle)
  }

  // ----- A poll that nothing interrupts ------------------------------------------------------

  /** How the operations of one poll come out. */
  datatype Luck = Luck(probe: bool, connects: bool, readable: bool, opensActive: bool, opensPending: bool, commit: Commit, readableAgain: bool)

  function Ended(db: Database, r: Runtime, luck: Luck): (Database, Runtime) {
    if r.phase.Idle? then (db, r) else (db, ReadAgain(db, r, luck.readableAgain))
  }

  function PendingHandled(db: Database, r: Runtime, luck: Luck, digests: Digests): (Database, Runtime)
    requires r.phase.Loading?
  {
    var tried := PendingTried(db, r, luck.opensPending, digests);
    if tried.phase.Rejecting? then RejectTried(db, tried, luck.commit)
    else
      var (n, a) := ActivateTried(db, tried, luck.commit);
      if a.phase.Committed? then (n, TransitionEnded(SwappedIn(a))) else (n, a)
  }

  function ActiveHandled(db: Database, r: Runtime, luck: Luck, digests: Digests): Runtime {
    var read := StateRead(db, r, luck.readable);
    if read.phase.Reconciling? then Reconciled(db, read, luck.opensActive, digests) else read
  }

  /** What follows a successful claim. */
  function Served(db: Database, r: Runtime, luck: Luck, digests: Digests): (Database, Runtime) {
    var r2 := ActiveHandled(db, r, luck, digests);
    var (d3, r3) := if r2.phase.Loading? then PendingHandled(db, r2, luck, digests) else (db, r2);
    Ended(d3, r3, luck)
  }

  function Polled(db: Database, r: Runtime, luck: Luck, digests: Digests): (Database, Runtime) {
    var (d1, r1) := ClaimTaken(db, r, luck.probe, luck.connects);
    if r1.phase.Idle? then (d1, r1) else Served(d1, r1, luck, digests)
  }

  class CatalogRuntime {
    const store: CatalogStore
    var session: Option<nat>
    var ready: bool
    var transition: bool
    var loaded: Generation

    ghost function View(): Runtime
      reads this
    {
      Runtime(session, ready, transition, loaded, Idle)
    }

    constructor (store: CatalogStore, loaded: Generation)
      ensures View() == Runtime(None, false, false, loaded, Idle) && this.store == store
    {
      this.store := store;
      this.session, this.ready, this.transition, this.loaded := None, false, false, loaded;
    }

    method Claim(probe: bool, connects: bool) returns (ok: bool)
      modifies this`session, store`lock, store`sessions
      ensures var (db, r) := ClaimTaken(old(store.View()), old(View()), probe, connects);
        && store.View() == db && ok == r.phase.Claimed?
        && View() == Runtime(r.session, old(ready), old(transition), loaded, Idle)
    {
      if session.Some? {
        if store.lock == session {
          if probe { return true; }
          store.lock := None;
        }
        session := None;
      }
      if !connects || store.lock.Some? { return false; }
      store.lock := Some(store.sessions);
      session := store.lock;
      store.sessions := store.sessions + 1;
      return true;
    }

    method LoadCandidate(id: Id, opens: bool) returns (candidate: Option<Generation>)
      ensures candidate == Candidate(store.View(), id, loaded.manifest.modelRevision, opens, store.digests)
    {
      var result := store.Load(id);
      if result.Err? || !opens || result.value.manifest.modelRevision != loaded.manifest.modelRevision {
        return None;
      }
      return Some(result.value);
    }

    /** Bring the loaded catalog back to the active one; an exception is reported. */
    method Reconcile(active: Option<Id>, opens: bool) returns (ok: bool)
      modifies this`ready, this`loaded
      ensures ok == (active.None? || active == old(loaded.catalog.version) || Candidate(store.View(), active.value, old(loaded).manifest.modelRevision, opens, store.digests).Some?)
      ensures active.None? || active == old(loaded.catalog.version) ==> ready == old(ready) && loaded == old(loaded)
      ensures active.Some? && active != old(loaded.catalog.version) ==> !ready
      ensures active.Some? && active != old(loaded.catalog.version) ==>
                match Candidate(store.View(), active.value, old(loaded).manifest.modelRevision, opens, store.digests)
                case None => loaded == old(loaded)
                case Some(g) => loaded == g
    {
      if active.None? || active == loaded.catalog.version { return true; }
      ready := false;
      var current := LoadCandidate(active.value, opens);
      if current.None? { return false; }
      loaded := current.value;
      return true;
    }

    /** Activate the pending generation, or reject it when it does not load. */
    method HandlePending(pending: Id, expected: Option<Id>, luck: Luck) returns (ok: bool)
      requires !transition
      modifies this, store
      ensures !transition
      ensures var (db, r) := PendingHandled(old(store.View()), old(View()).(phase := Loading(expected, pending)), luck, store.digests);
        && store.View() == db && ok == r.phase.Finishing?
        && (if ok then View() == r.(phase := Idle) else View().(ready := false) == r)
    {
      hide Candidate;
      var candidate := LoadCandidate(pending, luck.opensPending);
      if candidate.None? {
        ok := Reject(pending, luck.commit);
      } else {
        ok := Activate(candidate.value, expected, luck.commit);
      }
    }

    method Serve(luck: Luck) returns (ok: bool)
      requires !transition
      modifies this, store
      ensures !transition
      ensures (store.View(), View().(ready := ok && ready)) == Served(old(store.View()), old(View()).(phase := Claimed), luck, store.digests)
    {
      hide PendingHandled, Candidate;
      if !luck.readable { return false; }
      var active, pending := store.active, store.pending;
      ok := Reconcile(active, luck.opensActive);
      if ok && pending.Some? {
        ok := HandlePending(pending.value, active, luck);
      }
      if !ok || !luck.readableAgain { return false; }
      ready := store.active == loaded.catalog.version;
    }

    /** One poll; an exception out of it is reported and leaves the process not ready. */
    method Poll(luck: Luck) returns (ok: bool)
      requires !transition
      modifies this, store
      ensures (store.View(), View()) == Polled(old(store.View()), old(View()), luck, store.digests)
    {
      hide Served;
      ok := Claim(luck.probe, luck.connects);
      if ok {
        ok := Serve(luck);
      }
      if !ok {
        ready := false;
      }
    }

    method Reject(id: Id, commit: Commit) returns (ok: bool)
      modifies store
      ensures var (db, r) := RejectTried(old(store.View()), View().(phase := Rejecting(id)), commit);
        store.View() == db && ok == r.phase.Finishing?
    {
      if session.None? || store.lock != session || commit.NotDone? { return false; }
      store.Reject(id);
      if commit.Lost? {
        store.lock := None;
        return false;
      }
      return true;
    }

    method Activate(candidate: Generation, expected: Option<Id>, commit: Commit) returns (ok: bool)
      modifies this, store
      ensures var (db, r) := ActivateTried(old(store.View()), old(View()).(phase := Activating(expected, candidate)), commit);
        && store.View() == db && ok == r.phase.Committed? && !transition && !ready
        && session == old(session) && loaded == if ok then candidate else old(loaded)
    {
      transition, ready := true, false;
      if session.None? || store.lock != session || commit.NotDone? {
        transition := false;
        return false;
      }
      var error := store.Activate(candidate.id, expected);
      if error.Some? || commit.Lost? {
        if error.None? { store.lock := None; }
        transition := false;
        return false;
      }
      loaded := candidate;
      transition := false;
      return true;
    }

    /** A broken lock connection, an unreadable state or a moved pointer all answer false. */
    method Check(probe: bool, readable: bool) returns (serving: bool)
      modifies this`ready
      ensures serving <==> old(ready) && !transition && probe && HoldsLock(store.View(), View()) && readable
                           && store.active == loaded.catalog.version
      ensures ready == (old(ready) && (transition || (probe && HoldsLock(store.View(), View()) && readable)))
    {
      if !ready || transition { return false; }
      if session.None? || store.lock != session || !probe || !readable {
        ready := false;
        return false;
      }
      return store.active == loaded.catalog.version;
    }
  }

  // ----- What one poll promises --------------------------------------------------------------

  predicate Stored(db: Database, g: Generation) {
    g.id in db.generations && db.generations[g.id] == g
  }

  /** A stored generation is filed under its own id, which its catalog carries, and passes validation. */
  predicate Sound(id: Id, g: Generation, digests: Digests) {
    g.id == id && g.catalog.version == Some(id) && Validate(g, digests).None?
  }

  /** The pointer row refers to stored, valid generations and never names one generation twice. */
  predicate Coherent(db: Database, digests: Digests) {
    && (forall id :: id in db.generations ==> Sound(id, db.generations[id], digests))
    && (db.active.Some? ==> db.active.value in db.generations)
    && (db.pending.Some? ==> db.pending.value in db.generations && db.pending != db.active)
    && (db.lock.Some? ==> db.lock.value < db.sessions)
  }

  /** A candidate is the stored generation of that id, and names itself. */
  lemma {:induction false} CandidateIsStored(db: Database, id: Id, revision: Option<string>, opens: bool, digests: Digests)
    requires Coherent(db, digests)
    ensures var candidate := Candidate(db, id, revision, opens, digests);
      && (candidate.Some? ==> Stored(db, candidate.value) && candidate.value.id == id && candidate.value.catalog.version == Some(id))
      && (candidate.Some? <==> id in db.generations && opens && db.generations[id].manifest.modelRevision == revision)
  {
    if id in db.generations {
      assert Sound(id, db.generations[id], digests);
    }
    hide Validate;
  }

  function GoodLuck(): Luck {
    Luck(true, true, true, true, true, Done, true)
  }

  predicate SameEncoder(db: Database, r: Runtime) {
    forall id :: id in db.generations && (db.active == Some(id) || db.pending == Some(id)) ==>
      db.generations[id].manifest.modelRevision == r.loaded.manifest.modelRevision
  }

  /** The state of a poll between reading the pointer row and handling the pending generation. */
  predicate Halfway(db: Database, r: Runtime) {
    && Stored(db, r.loaded)
    && match r.phase
       case Idle => !r.ready
       case Finishing => true
       case Loading(expected, pending) => expected == db.active && Some(pending) == db.pending
       case _ => false
  }

  /**
   Whatever an earlier poll left behind, an uninterrupted poll whose loads succeed ends ready,
   serving exactly the active generation, with nothing pending.
   */
  lemma {:induction false} UndisturbedPollServesActive(db: Database, r: Runtime, digests: Digests)
    requires Coherent(db, digests) && Stored(db, r.loaded) && SameEncoder(db, r)
    requires HoldsLock(db, r) || db.lock.None?
    requires db.active.Some? || db.pending.Some?
    ensures var (d, s) := Polled(db, r, GoodLuck(), digests);
      && d.active == (if db.pending.Some? then db.pending else db.active) && d.pending.None?
      && d.generations == db.generations
      && s.ready && Serving(s) == d.active && Stored(d, s.loaded) && HoldsLock(d, s) && s.phase.Idle?
  {
    hide Validate, Sound, ActiveHandled, PendingHandled;
    var (d1, r1) := ClaimTaken(db, r, true, true);
    UndisturbedReconcile(d1, r1, digests);
    var r2 := ActiveHandled(d1, r1, GoodLuck(), digests);
    if r2.phase.Loading? {
      UndisturbedActivation(d1, r2, digests);
    }
  }

  lemma {:induction false} UndisturbedReconcile(db: Database, r: Runtime, digests: Digests)
    requires Coherent(db, digests) && Stored(db, r.loaded) && SameEncoder(db, r) && r.phase.Claimed?
    ensures var s := ActiveHandled(db, r, GoodLuck(), digests);
      && s.session == r.session && Stored(db, s.loaded)
      && s.loaded.manifest.modelRevision == r.loaded.manifest.modelRevision
      && (db.active.Some? ==> Serving(s) == db.active)
      && s.phase == if db.pending.Some? then Loading(db.active, db.pending.value) else Finishing
  {
    hide Validate, Sound, Candidate;
    if db.active.Some? {
      CandidateIsStored(db, db.active.value, r.loaded.manifest.modelRevision, true, digests);
    }
  }

  lemma {:induction false} UndisturbedActivation(db: Database, r: Runtime, digests: Digests)
    requires Coherent(db, digests) && SameEncoder(db, r) && HoldsLock(db, r)
    requires r.phase.Loading? && r.phase.expected == db.active && db.pending == Some(r.phase.pending)
    ensures var (d, s) := PendingHandled(db, r, GoodLuck(), digests);
      && d.active == db.pending && d.pending.None? && d.generations == db.generations && s.phase.Finishing?
      && Serving(s) == d.active && Stored(d, s.loaded) && HoldsLock(d, s)
  {
    hide Validate, Sound, Candidate;
    CandidateIsStored(db, r.phase.pending, r.loaded.manifest.modelRevision, true, digests);
  }

  /**
   However its operations come out, an uninterrupted poll that ends ready serves the active
   generation, it moves the pointer only onto the generation that was pending, and every path
   keeps the pointer row coherent.
   */
  lemma {:induction false} AnyPollIsHonest(db: Database, r: Runtime, luck: Luck, digests: Digests)
    requires Coherent(db, digests) && Stored(db, r.loaded)
    ensures var (d, s) := Polled(db, r, luck, digests);
      && Coherent(d, digests) && Stored(d, s.loaded) && d.generations == db.generations && s.phase.Idle?
      && (s.ready ==> HoldsLock(d, s) && Serving(s) == d.active)
      && (d.active != db.active ==> d.active == db.pending && db.pending.Some?)
  {
    hide Validate, Sound, ClaimTaken, Served;
    HonestClaim(db, r, luck, digests);
    var (d1, r1) := ClaimTaken(db, r, luck.probe, luck.connects);
    if r1.phase.Claimed? {
      HonestServing(d1, r1, luck, digests);
    }
  }

  lemma {:induction false} HonestServing(db: Database, r: Runtime, luck: Luck, digests: Digests)
    requires Coherent(db, digests) && Stored(db, r.loaded) && r.phase.Claimed? && HoldsLock(db, r)
    ensures var (d, s) := Served(db, r, luck, digests);
      && Coherent(d, digests) && Stored(d, s.loaded) && d.generations == db.generations && s.phase.Idle?
      && (s.ready ==> HoldsLock(d, s) && Serving(s) == d.active)
      && (d.active != db.active ==> d.active == db.pending && db.pending.Some?)
  {
    hide Validate, Sound, ActiveHandled, PendingHandled;
    HonestReconcile(db, r, luck, digests);
    var r2 := ActiveHandled(db, r, luck, digests);
    if r2.phase.Loading? {
      HonestActivation(db, r2, luck, digests);
      var (d3, r3) := PendingHandled(db, r2, luck, digests);
      assert r3.phase.Finishing? ==> HoldsLock(d3, r3);
      assert r3.phase.Idle? ==> !r3.ready;
      assert Served(db, r, luck, digests) == Ended(d3, r3, luck);
    } else {
      assert Served(db, r, luck, digests) == Ended(db, r2, luck);
      assert r2.session == r.session;
      assert HoldsLock(db, r2);
    }
  }

  lemma {:induction false} HonestClaim(db: Database, r: Runtime, luck: Luck, digests: Digests)
    requires Coherent(db, digests) && Stored(db, r.loaded)
    ensures var (d, s) := ClaimTaken(db, r, luck.probe, luck.connects);
      && Coherent(d, digests) && d == db.(lock := d.lock, sessions := d.sessions) && s.loaded == r.loaded
      && (s.phase.Idle? || s.phase.Claimed?) && (s.phase.Idle? ==> !s.ready) && (s.phase.Claimed? ==> HoldsLock(d, s))
  {
    hide Validate, Sound;
  }

  lemma {:induction false} HonestReconcile(db: Database, r: Runtime, luck: Luck, digests: Digests)
    requires Coherent(db, digests) && Stored(db, r.loaded) && r.phase.Claimed?
    ensures var s := ActiveHandled(db, r, luck, digests); s.session == r.session && Halfway(db, s)
  {
    hide Validate, Sound, Candidate;
    if db.active.Some? {
      CandidateIsStored(db, db.active.value, r.loaded.manifest.modelRevision, luck.opensActive, digests);
    }
  }

  /** Moving or clearing the pointer keeps the row coherent, whether or not the session survives. */
  lemma {:induction false} PointerStaysCoherent(db: Database, id: Id, expected: Option<Id>, digests: Digests)
    requires Coherent(db, digests)
    ensures Coherent(Rejected(db, id), digests) && Coherent(Rejected(db, id).(lock := None), digests)
    ensures var moved := Activated(db, id, expected);
      moved.Ok? ==> Coherent(moved.value, digests) && Coherent(moved.value.(lock := None), digests)
  {
    hide Validate, Sound;
  }

  lemma {:induction false} HonestActivation(db: Database, r: Runtime, luck: Luck, digests: Digests)
    requires Coherent(db, digests) && Halfway(db, r) && r.phase.Loading? && HoldsLock(db, r)
    ensures var (d, s) := PendingHandled(db, r, luck, digests);
      && Coherent(d, digests) && Halfway(d, s) && !s.phase.Loading? && d.generations == db.generations
      && (s.phase.Finishing? ==> HoldsLock(d, s))
      && (d.active != db.active ==> d.active == db.pending)
  {
    hide Validate, Sound, Candidate, Coherent;
    PointerStaysCoherent(db, r.phase.pending, r.phase.expected, digests);
    CandidateIsStored(db, r.phase.pending, r.loaded.manifest.modelRevision, luck.opensPending, digests);
  }
}
