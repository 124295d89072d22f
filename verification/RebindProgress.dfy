/** What the threads of the profiler get done when nothing stands in their way. */
module RebindProgress {
  import opened Outcomes
  import opened CatalogBinding
  import opened RebindRuns

  /** These steps can be taken one after another and lead through these states. */
  ghost predicate IsPath(states: seq<World>, actions: seq<Action>) {
    |states| == |actions| + 1 && forall k :: 0 <= k < |actions| ==> Stepped(states[k], actions[k], states[k + 1])
  }

  /** Nothing keeps jobs, readers and a refresh from starting. */
  predicate IsOpen(w: World) {
    !w.m.closing && !w.m.paused && !w.m.closed
  }

  // ----- A refresh ---------------------------------------------------------------------------

  /** The steps of a refresh to another snapshot whose drain, build and checks succeed. */
  function RefreshTo(expected: nat, candidate: Catalog): seq<Action> {
    [TakeRefresh(expected), SeeDrained, CheckDurableWork(true), Build(Some(candidate), expected), Validate(true), Swap, LeaveRefresh]
  }

  /** The old catalog is closed at once by the refreshing thread, or retired while it has readers. */
  function SwappedTo(w: World, candidate: Catalog): World {
    var unread := w.m.readers[w.m.current] == 0;
    w.(m := w.m.(current := candidate, retired := if unread then w.m.retired else w.m.retired + {w.m.current}),
       toClose := if unread then w.toClose + multiset{w.m.current} else w.toClose)
  }

  lemma {:induction false} SwapRebinds(w: World, expected: nat, origin: Catalog, candidate: Catalog)
    requires !w.m.closing && w.refresh == Validated(expected, origin, candidate) && w.m.current !in w.m.retired
    ensures Stepped(w, Swap, SwappedTo(w, candidate).(refresh := Succeeding(expected, origin)))
  {
    assert w.m.retired + {w.m.current} - {w.m.current} == w.m.retired;
  }

  lemma {:induction false} QuietFacts(w: World)
    requires Inv(w) && !w.m.closing && w.jobs == map[]
    ensures w.m.pending == 0 && w.m.current !in w.m.retired && !w.m.closed && w.m.current in w.snapshot
    ensures w.m.readers[w.m.current] == 0 <==> ReadersOf(w.borrows, w.m.current) == {}
    ensures w.refresh.Idle? ==> !w.m.paused
  {
    hide ClosedOnce, ReadersOf;
  }

  /** The states of such a refresh, step by step. */
  function RefreshStates(w: World, expected: nat, candidate: Catalog): seq<World> {
    var origin := w.m.current;
    var taken := w.(m := w.m.(paused := true), refresh := Draining(expected, origin));
    var holding := taken.(snapshot := w.snapshot[candidate := expected], refresh := Holding(expected, origin, candidate));
    var swapped := SwappedTo(holding, candidate).(refresh := Succeeding(expected, origin));
    [w, taken, taken.(refresh := Drained(expected, origin)), taken.(refresh := Loading(expected, origin)), holding,
     holding.(refresh := Validated(expected, origin, candidate)), swapped,
     swapped.(m := swapped.m.(paused := false), refresh := Idle)]
  }

  /**
   From every reachable state with no refresh under way, no shutdown and no accepted job, a refresh
   to another snapshot whose build and checks succeed goes through without waiting: admission is
   paused from its first step on, and it ends with the new catalog current, the old one retired
   while it has readers and otherwise handed over for closing, and admission open.
   */
  lemma {:induction false} RefreshGoesThrough(
    worlds: seq<World>, actions: seq<Action>, k: nat, expected: nat, candidate: Catalog)
    requires IsRun(worlds, actions) && k < |worlds|
    requires worlds[k].refresh.Idle? && !worlds[k].m.closing && worlds[k].jobs == map[]
    requires candidate !in worlds[k].snapshot && !HasSnapshot(worlds[k], worlds[k].m.current, expected)
    ensures var (w, states) := (worlds[k], RefreshStates(worlds[k], expected, candidate));
      && IsPath(states, RefreshTo(expected, candidate)) && states[0] == w
      && (forall i :: 1 <= i < 7 ==> states[i].m.paused) && states[6].refresh.Succeeding?
      && var n := states[7];
      && n.m.current == candidate && HasSnapshot(n, candidate, expected) && n.refresh.Idle? && IsOpen(n)
      && n.jobs == map[] && n.borrows == w.borrows
      && (if ReadersOf(w.borrows, w.m.current) == {} then n.m.retired == w.m.retired && n.toClose == w.toClose + multiset{w.m.current}
          else n.m.retired == w.m.retired + {w.m.current} && n.toClose == w.toClose)
  {
    hide Inv, ReadersOf, IsRun, Stepped;
    InvAlongRun(worlds, actions, k);
    var (w, states, steps) := (worlds[k], RefreshStates(worlds[k], expected, candidate), RefreshTo(expected, candidate));
    QuietFacts(w);
    SwapStep(w, expected, candidate);
    DrainingSteps(w, expected, candidate);
    BuildingSteps(w, expected, candidate);
    LeavingStep(w, expected, candidate);
    StepsMakeAPath(states, steps);
  }

  lemma {:induction false} StepsMakeAPath(s: seq<World>, a: seq<Action>)
    requires |s| == |a| + 1 == 8
    requires Stepped(s[0], a[0], s[1]) && Stepped(s[1], a[1], s[2]) && Stepped(s[2], a[2], s[3]) && Stepped(s[3], a[3], s[4])
    requires Stepped(s[4], a[4], s[5]) && Stepped(s[5], a[5], s[6]) && Stepped(s[6], a[6], s[7])
    ensures IsPath(s, a)
  {
    hide Stepped;
  }

  lemma {:induction false} SwapStep(w: World, expected: nat, candidate: Catalog)
    requires !w.m.closing && w.m.current !in w.m.retired
    ensures var states := RefreshStates(w, expected, candidate); Stepped(states[5], RefreshTo(expected, candidate)[5], states[6])
  {
    hide Stepped;
    var states := RefreshStates(w, expected, candidate);
    SwapRebinds(states[5], expected, w.m.current, candidate);
    assert states[6] == SwappedTo(states[5], candidate).(refresh := Succeeding(expected, w.m.current));
  }

  lemma {:induction false} DrainingSteps(w: World, expected: nat, candidate: Catalog)
    requires w.refresh.Idle? && !w.m.closing && w.m.pending == 0 && !HasSnapshot(w, w.m.current, expected)
    ensures var (s, a) := (RefreshStates(w, expected, candidate), RefreshTo(expected, candidate));
      Stepped(s[0], a[0], s[1]) && Stepped(s[1], a[1], s[2]) && Stepped(s[2], a[2], s[3])
  {
    hide SwappedTo;
  }

  lemma {:induction false} BuildingSteps(w: World, expected: nat, candidate: Catalog)
    requires !w.m.closing && candidate !in w.snapshot
    ensures var (s, a) := (RefreshStates(w, expected, candidate), RefreshTo(expected, candidate));
      Stepped(s[3], a[3], s[4]) && Stepped(s[4], a[4], s[5])
  {
    hide SwappedTo;
  }

  lemma {:induction false} LeavingStep(w: World, expected: nat, candidate: Catalog)
    requires !w.m.closing
    ensures var (s, a) := (RefreshStates(w, expected, candidate), RefreshTo(expected, candidate)); Stepped(s[6], a[6], s[7])
  {
  }

  /** When the snapshot is the expected one and still usable, the refresh ends well without a new catalog. */
  lemma {:induction false} UnchangedRefreshGoesThrough(worlds: seq<World>, actions: seq<Action>, k: nat, expected: nat, b: nat)
    requires IsRun(worlds, actions) && k < |worlds|
    requires worlds[k].refresh.Idle? && !worlds[k].m.closing && worlds[k].jobs == map[] && b !in worlds[k].borrows
    requires HasSnapshot(worlds[k], worlds[k].m.current, expected)
    ensures var w := worlds[k];
      var (paused, origin) := (w.(m := w.m.(paused := true)), w.m.current);
      var probed := paused.(m := paused.m.(readers := w.m.readers + multiset{origin}), borrows := w.borrows[b := Borrow(origin, None)]);
      IsPath([w, paused.(refresh := Draining(expected, origin)), paused.(refresh := Drained(expected, origin)),
              probed.(refresh := Probing(expected, origin, b)), paused.(refresh := Succeeding(expected, origin)), w],
             [TakeRefresh(expected), SeeDrained, StartProbe(b), EndProbe(Usable), LeaveRefresh])
  {
    hide Inv, ReadersOf, IsRun;
    InvAlongRun(worlds, actions, k);
    var w := worlds[k];
    QuietFacts(w);
    assert w.borrows[b := Borrow(w.m.current, None)] - {b} == w.borrows;
    assert w.m.readers + multiset{w.m.current} - multiset{w.m.current} == w.m.readers;
    assert w.m.(paused := false) == w.m;
  }

  /** A refresh is refused exactly when the manager is shutting down, and then changes nothing under the lock. */
  lemma {:induction false} WhenARefreshStarts(w: World, expected: nat, next: World)
    requires Stepped(w, TakeRefresh(expected), next)
    ensures if w.m.closing then next == w.(refresh := Failing(w.m.current, None, false))
            else next == w.(m := w.m.(paused := true), refresh := Draining(expected, w.m.current))
  {
  }

  // ----- Jobs and readers --------------------------------------------------------------------

  /** A job is accepted exactly when admission is open and the supervisor takes it. */
  lemma {:induction false} WhenAJobIsAccepted(w: World, j: nat, queued: bool, next: World)
    requires Stepped(w, Submit(j, queued), next)
    ensures if !w.m.paused && !w.m.closing && queued
            then next == w.(m := w.m.(pending := w.m.pending + 1), jobs := w.jobs[j := Job(w.m.current, false)])
            else next == w
  {
  }

  /** A read starts exactly for a job, or while the manager is open and, if it asks for admission, not paused. */
  lemma {:induction false} WhenAReadStarts(w: World, b: nat, job: Option<nat>, admission: bool, next: World)
    requires Stepped(w, StartBorrow(b, job, admission), next)
    ensures var catalog := if job.Some? then w.jobs[job.value].catalog else w.m.current;
      if job.Some? || (!w.m.closed && (admission ==> !w.m.paused))
      then next == w.(m := w.m.(readers := w.m.readers + multiset{catalog}), borrows := w.borrows[b := Borrow(catalog, job)])
      else next == w
  {
  }

  /** A health read starts exactly while the manager is open, on the current catalog. */
  lemma {:induction false} WhenAHealthReadStarts(w: World, b: nat, next: World)
    requires Stepped(w, StartHealth(b), next)
    ensures if !w.m.paused && !w.m.closed
            then next == w.(m := w.m.(readers := w.m.readers + multiset{w.m.current}), borrows := w.borrows[b := Borrow(w.m.current, None)])
            else next == w
  {
  }

  /**
   From every reachable state that is open, a new job is accepted, starts, reads the catalog it was
   accepted on and ends, and leaves the state as it was.
   */
  lemma {:induction false} JobRunsThrough(worlds: seq<World>, actions: seq<Action>, k: nat, j: nat, b: nat)
    requires IsRun(worlds, actions) && k < |worlds| && IsOpen(worlds[k])
    requires j !in worlds[k].jobs && b !in worlds[k].borrows
    ensures var w := worlds[k];
      var accepted := w.(m := w.m.(pending := w.m.pending + 1), jobs := w.jobs[j := Job(w.m.current, false)]);
      var running := accepted.(m := accepted.m.(running := w.m.running + 1), jobs := w.jobs[j := Job(w.m.current, true)]);
      var reading := running.(m := running.m.(readers := w.m.readers + multiset{w.m.current}),
                              borrows := w.borrows[b := Borrow(w.m.current, Some(j))]);
      IsPath([w, accepted, running, reading, running, w],
             [Submit(j, true), StartJob(j), StartBorrow(b, Some(j), true), EndBorrow(b), EndJob(j)])
  {
    hide Inv, ReadersOf, IsRun, Stepped;
    InvAlongRun(worlds, actions, k);
    var w := worlds[k];
    OpenFacts(w, j);
    JobStarts(w, j);
    JobEnds(w, j, b);
  }

  lemma {:induction false} JobStarts(w: World, j: nat)
    requires IsOpen(w) && j !in w.jobs
    ensures var accepted := w.(m := w.m.(pending := w.m.pending + 1), jobs := w.jobs[j := Job(w.m.current, false)]);
      && Stepped(w, Submit(j, true), accepted)
      && Stepped(accepted, StartJob(j),
                 accepted.(m := accepted.m.(running := w.m.running + 1), jobs := w.jobs[j := Job(w.m.current, true)]))
  {
    assert w.jobs[j := Job(w.m.current, false)][j := Job(w.m.current, true)] == w.jobs[j := Job(w.m.current, true)];
  }

  lemma {:induction false} JobEnds(w: World, j: nat, b: nat)
    requires IsOpen(w) && j !in w.jobs && b !in w.borrows && w.m.current !in w.m.retired && !w.refresh.Probing?
    requires forall x :: x in w.borrows ==> w.borrows[x].job != Some(j)
    ensures var running := w.(m := w.m.(pending := w.m.pending + 1, running := w.m.running + 1),
                              jobs := w.jobs[j := Job(w.m.current, true)]);
      var reading := running.(m := running.m.(readers := w.m.readers + multiset{w.m.current}),
                              borrows := w.borrows[b := Borrow(w.m.current, Some(j))]);
      && Stepped(running, StartBorrow(b, Some(j), true), reading) && Stepped(reading, EndBorrow(b), running)
      && Stepped(running, EndJob(j), w)
  {
    assert w.borrows[b := Borrow(w.m.current, Some(j))] - {b} == w.borrows;
    assert w.m.readers + multiset{w.m.current} - multiset{w.m.current} == w.m.readers;
    assert w.jobs[j := Job(w.m.current, true)] - {j} == w.jobs;
  }

  lemma {:induction false} OpenFacts(w: World, j: nat)
    requires Inv(w) && IsOpen(w) && j !in w.jobs
    ensures w.m.current !in w.m.retired && !w.refresh.Probing?
    ensures forall b :: b in w.borrows ==> w.borrows[b].job != Some(j)
  {
    hide ClosedOnce, ReadersOf, Counted;
    assert forall b :: b in w.borrows ==> ReadBound(w.m.current, w.m.retired, w.jobs, w.borrows[b]);
  }

  // ----- Shutdown ----------------------------------------------------------------------------

  /** From every reachable state without jobs, reads or a refresh, a shutdown goes through and closes the last catalog, once. */
  lemma {:induction false} ShutdownGoesThrough(worlds: seq<World>, actions: seq<Action>, k: nat)
    requires IsRun(worlds, actions) && k < |worlds|
    requires worlds[k].refresh.Idle? && !worlds[k].stopBegan && worlds[k].jobs == map[] && worlds[k].borrows == map[]
    ensures var w := worlds[k];
      var stopping := w.(m := w.m.(closing := true, paused := true), stopBegan := true);
      var closed := stopping.(m := stopping.m.(closed := true), stopped := true);
      && w.closes[w.m.current] == 0
      && IsPath([w, stopping, stopping.(stopped := true), closed.(toClose := w.toClose + multiset{w.m.current}),
                 closed.(closes := w.closes + multiset{w.m.current})],
                [StartStop, FinishStop, CloseManager, CallClose(w.m.current)])
  {
    hide Inv, ReadersOf, IsRun, Stepped;
    InvAlongRun(worlds, actions, k);
    var w := worlds[k];
    IdleFacts(w);
    StopSteps(w);
    CloseSteps(w.(m := w.m.(closing := true, paused := true), stopBegan := true, stopped := true));
  }

  lemma {:induction false} IdleFacts(w: World)
    requires Inv(w) && !w.stopBegan && w.jobs == map[] && w.borrows == map[]
    ensures w.m.pending == 0 && w.m.running == 0 && w.m.current !in w.m.retired && !w.m.closing && !w.m.closed
    ensures w.m.readers[w.m.current] == 0 && w.closes[w.m.current] == 0 && !w.stopped
  {
    assert StartedJobs(w.jobs) == {} && ReadersOf(w.borrows, w.m.current) == {};
    assert !Doomed(w, w.m.current);
  }

  lemma {:induction false} StopSteps(w: World)
    requires !w.stopBegan && !w.stopped && w.m.pending == 0 && w.m.running == 0
    ensures var stopping := w.(m := w.m.(closing := true, paused := true), stopBegan := true);
      Stepped(w, StartStop, stopping) && Stepped(stopping, FinishStop, stopping.(stopped := true))
  {
  }

  lemma {:induction false} CloseSteps(w: World)
    requires w.stopped && w.m.closing && w.m.paused && !w.m.closed && w.m.running == 0
    requires w.m.current !in w.m.retired && w.m.readers[w.m.current] == 0
    ensures var closed := w.(m := w.m.(closed := true));
      var doomed := closed.(toClose := w.toClose + multiset{w.m.current});
      && Stepped(w, CloseManager, doomed)
      && Stepped(doomed, CallClose(w.m.current), closed.(closes := w.closes + multiset{w.m.current}))
  {
    assert w.m.retired + {w.m.current} - {w.m.current} == w.m.retired;
    assert w.toClose + multiset{w.m.current} - multiset{w.m.current} == w.toClose;
  }
}
