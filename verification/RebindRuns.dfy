/**
 Every interleaving of the threads that share a ManagedSearch: job workers, catalog readers,
 health checks, one refresh at a time, the stop and the final close. A step is one block under
 the condition lock, or one action of a thread between two blocks.
 */
module RebindRuns {
  import opened Outcomes
  import opened CatalogBinding

  /** A read in progress; the job whose thread performs it, if any. */
  datatype Borrow = Borrow(catalog: Catalog, job: Option<nat>)

  /** An accepted job that has not finished, bound to the catalog current at its acceptance. */
  datatype Job = Job(catalog: Catalog, started: bool)

  /**
   Where the thread that holds the refresh lock stands. `origin` is the catalog that was current
   when it took the lock; `disposed` records whether its finally block has closed the candidate.
   */
  datatype Refresh =
    | Idle
    | Draining(expected: nat, origin: Catalog)
    | Drained(expected: nat, origin: Catalog)
    | Probing(expected: nat, origin: Catalog, borrow: nat)
    | Loading(expected: nat, origin: Catalog)
    | Holding(expected: nat, origin: Catalog, candidate: Catalog)
    | Validated(expected: nat, origin: Catalog, candidate: Catalog)
    | Failing(origin: Catalog, abandoned: Option<Catalog>, disposed: bool)
    | Succeeding(expected: nat, origin: Catalog)

  datatype World = World(
    m: Manager,
    borrows: map<nat, Borrow>,
    jobs: map<nat, Job>,
    refresh: Refresh,
    snapshot: map<Catalog, nat>,   // every catalog object ever created, with its snapshot id
    toClose: multiset<Catalog>,    // close() calls that some thread is committed to make
    closes: multiset<Catalog>,     // close() calls made
    stopBegan: bool,
    stopped: bool)

  datatype Probe = Usable | Unusable | Broken

  datatype Action =
    | StartBorrow(b: nat, job: Option<nat>, admission: bool)
    | EndBorrow(b: nat)
    | StartHealth(b: nat)
    | Submit(j: nat, queued: bool)
    | StartJob(j: nat)
    | EndJob(j: nat)
    | TakeRefresh(expected: nat)
    | SeeDrained
    | GiveUpDraining
    | StartProbe(b: nat)
    | EndProbe(result: Probe)
    | CheckDurableWork(clear: bool)
    | Build(candidate: Option<Catalog>, snapshotId: nat)
    | Validate(ok: bool)
    | Swap
    | DisposeCandidate
    | LeaveRefresh
    | CallClose(catalog: Catalog)
    | StartStop
    | DropQueued(dropped: set<nat>)
    | FinishStop
    | CloseManager

  function Initial(catalog: Catalog, snapshotId: nat): World {
    World(Opened(catalog), map[], map[], Idle, map[catalog := snapshotId], multiset{}, multiset{}, false, false)
  }

  function Committed(w: World, catalog: Catalog, close: bool): World {
    if close then w.(toClose := w.toClose + multiset{catalog}) else w
  }

  predicate HasSnapshot(w: World, catalog: Catalog, id: nat) {
    catalog in w.snapshot && w.snapshot[catalog] == id
  }

  predicate Allowed(w: World, a: Action) {
    match a
    case StartBorrow(b, job, _) =>
      b !in w.borrows && (job.Some? ==> job.value in w.jobs && w.jobs[job.value].started)
    case EndBorrow(b) => b in w.borrows && !(w.refresh.Probing? && w.refresh.borrow == b)
    case StartHealth(b) => b !in w.borrows
    case Submit(j, _) => j !in w.jobs
    // No job starts after the final close.
    case StartJob(j) => j in w.jobs && !w.jobs[j].started && !w.m.closed
    case EndJob(j) =>
      && j in w.jobs && w.jobs[j].started
      && forall b :: b in w.borrows ==> w.borrows[b].job != Some(j)
    case TakeRefresh(_) => w.refresh.Idle?
    case SeeDrained => w.refresh.Draining? && w.m.pending == 0
    case GiveUpDraining => w.refresh.Draining?
    case StartProbe(b) => w.refresh.Drained? && HasSnapshot(w, w.m.current, w.refresh.expected) && b !in w.borrows
    case EndProbe(_) => w.refresh.Probing?
    case CheckDurableWork(_) => w.refresh.Drained? && !HasSnapshot(w, w.m.current, w.refresh.expected)
    case Build(candidate, _) => w.refresh.Loading? && (candidate.Some? ==> candidate.value !in w.snapshot)
    case Validate(_) => w.refresh.Holding?
    case Swap => w.refresh.Validated?
    case DisposeCandidate => w.refresh.Failing? && w.refresh.abandoned.Some? && !w.refresh.disposed
    case LeaveRefresh => w.refresh.Succeeding? || (w.refresh.Failing? && (w.refresh.abandoned.Some? ==> w.refresh.disposed))
    case CallClose(catalog) => catalog in w.toClose
    case StartStop => !w.stopBegan
    case DropQueued(dropped) => w.stopBegan && !w.stopped && forall j :: j in dropped ==> j in w.jobs && !w.jobs[j].started
    case FinishStop => w.stopBegan && !w.stopped
    // One close, after the stop.
    case CloseManager => w.stopped && !w.m.closed
  }

  function BorrowStarted(w: World, b: nat, job: Option<nat>, admission: bool): World
    requires job.Some? ==> job.value in w.jobs
  {
    var local := if job.Some? then Some(w.jobs[job.value].catalog) else None;
    match Borrowed(w.m, local, admission)
    case None => w
    case Some((m, catalog)) => w.(m := m, borrows := w.borrows[b := Borrow(catalog, job)])
  }

  function ReturnedBorrow(w: World, b: nat): World
    requires b in w.borrows
  {
    var (m, close) := Returned(w.m, w.borrows[b].catalog);
    Committed(w.(m := m, borrows := w.borrows - {b}), w.borrows[b].catalog, close)
  }

  function HealthStarted(w: World, b: nat): World {
    match HealthPinned(w.m)
    case None => w
    case Some((m, catalog)) => w.(m := m, borrows := w.borrows[b := Borrow(catalog, None)])
  }

  function JobSubmitted(w: World, j: nat, queued: bool): World {
    var (m, accepted) := Submitted(w.m, queued);
    w.(m := m, jobs := if accepted then w.jobs[j := Job(w.m.current, false)] else w.jobs)
  }

  function JobBegun(w: World, j: nat): World
    requires j in w.jobs
  {
    w.(m := RunBegun(w.m), jobs := w.jobs[j := w.jobs[j].(started := true)])
  }

  function JobFinished(w: World, j: nat): World
    requires j in w.jobs
  {
    var (m, close) := RunEnded(w.m, w.jobs[j].catalog);
    Committed(w.(m := m, jobs := w.jobs - {j}), w.jobs[j].catalog, close)
  }

  function RefreshTaken(w: World, expected: nat): World {
    match RefreshPaused(w.m)
    case None => w.(refresh := Failing(w.m.current, None, false))
    case Some(m) => w.(m := m, refresh := Draining(expected, w.m.current))
  }

  function ProbeStarted(w: World, b: nat): World
    requires w.refresh.Drained?
  {
    match Borrowed(w.m, None, false)
    case None => w.(refresh := Loading(w.refresh.expected, w.refresh.origin))
    case Some((m, catalog)) =>
      w.(m := m, borrows := w.borrows[b := Borrow(catalog, None)],
         refresh := Probing(w.refresh.expected, w.refresh.origin, b))
  }

  function ProbeResult(r: Refresh, result: Probe): Refresh
    requires r.Probing?
  {
    match result
    case Usable => Succeeding(r.expected, r.origin)
    case Unusable => Loading(r.expected, r.origin)
    case Broken => Failing(r.origin, None, false)
  }

  function Built(w: World, candidate: Option<Catalog>, snapshotId: nat): World
    requires w.refresh.Loading?
  {
    if candidate.None? then w.(refresh := Failing(w.refresh.origin, None, false))
    else
      w.(snapshot := w.snapshot[candidate.value := snapshotId],
         refresh := Holding(w.refresh.expected, w.refresh.origin, candidate.value))
  }

  function SwapTried(w: World): World
    requires w.refresh.Validated?
  {
    match Swapped(w.m, w.refresh.candidate)
    case None => w.(refresh := Failing(w.refresh.origin, Some(w.refresh.candidate), false))
    case Some((m, close)) =>
      Committed(w.(m := m, refresh := Succeeding(w.refresh.expected, w.refresh.origin)), w.m.current, close)
  }

  function ManagerClosed(w: World): World {
    var (m, close) := Closed(w.m);
    Committed(w.(m := m), w.m.current, close)
  }

  function After(w: World, a: Action): World
    requires Allowed(w, a)
    requires a.EndProbe? ==> w.refresh.borrow in w.borrows
  {
    match a
    case StartBorrow(b, job, admission) => BorrowStarted(w, b, job, admission)
    case EndBorrow(b) => ReturnedBorrow(w, b)
    case StartHealth(b) => HealthStarted(w, b)
    case Submit(j, queued) => JobSubmitted(w, j, queued)
    case StartJob(j) => JobBegun(w, j)
    case EndJob(j) => JobFinished(w, j)
    case TakeRefresh(expected) => RefreshTaken(w, expected)
    case SeeDrained =>
      w.(refresh := if w.m.closing then Failing(w.refresh.origin, None, false)
                    else Drained(w.refresh.expected, w.refresh.origin))
    case GiveUpDraining => w.(refresh := Failing(w.refresh.origin, None, false))
    case StartProbe(b) => ProbeStarted(w, b)
    case EndProbe(result) => ReturnedBorrow(w, w.refresh.borrow).(refresh := ProbeResult(w.refresh, result))
    case CheckDurableWork(clear) =>
      w.(refresh := if clear then Loading(w.refresh.expected, w.refresh.origin) else Failing(w.refresh.origin, None, false))
    case Build(candidate, snapshotId) => Built(w, candidate, snapshotId)
    case Validate(ok) =>
      w.(refresh := if HasSnapshot(w, w.refresh.candidate, w.refresh.expected) && ok
                    then Validated(w.refresh.expected, w.refresh.origin, w.refresh.candidate)
                    else Failing(w.refresh.origin, Some(w.refresh.candidate), false))
    case Swap => SwapTried(w)
    case DisposeCandidate =>
      w.(closes := w.closes + multiset{w.refresh.abandoned.value}, refresh := w.refresh.(disposed := true))
    case LeaveRefresh => w.(m := RefreshEnded(w.m), refresh := Idle)
    case CallClose(catalog) =>
      w.(toClose := w.toClose - multiset{catalog}, closes := w.closes + multiset{catalog})
    case StartStop => w.(m := StopBegun(w.m), stopBegan := true)
    case DropQueued(dropped) => w.(jobs := w.jobs - dropped)
    case FinishStop => w.(m := StopEnded(w.m), stopped := true)
    case CloseManager => ManagerClosed(w)
  }

  // ----- The invariant -----------------------------------------------------------------------

  function ReadersOf(borrows: map<nat, Borrow>, catalog: Catalog): set<nat> {
    set b | b in borrows && borrows[b].catalog == catalog
  }

  function StartedJobs(jobs: map<nat, Job>): set<nat> {
    set j | j in jobs && jobs[j].started
  }

  /** The counters count what they are meant to count. */
  ghost predicate Counted(w: World) {
    && (forall catalog :: w.m.readers[catalog] == |ReadersOf(w.borrows, catalog)|)
    && w.m.running == |StartedJobs(w.jobs)|
    && (!w.m.closing ==> w.m.pending == |w.jobs|)
  }

  /** The catalog a thread is committed to close, or has closed. */
  predicate Doomed(w: World, catalog: Catalog) {
    catalog in w.toClose || catalog in w.closes
  }

  function Candidate(r: Refresh): Option<Catalog> {
    match r
    case Holding(_, _, candidate) => Some(candidate)
    case Validated(_, _, candidate) => Some(candidate)
    case Failing(_, abandoned, disposed) => if disposed then None else abandoned
    case _ => None
  }

  /** Nobody can reach the catalog through the manager any more. */
  predicate Unreachable(w: World, catalog: Catalog) {
    && ReadersOf(w.borrows, catalog) == {}
    && catalog !in w.m.retired
    && (catalog == w.m.current ==> w.m.closed && w.m.running == 0)
  }

  predicate Flags(w: World) {
    && (w.m.closing ==> w.m.paused && w.stopBegan)
    && (w.stopBegan ==> w.m.closing)
    && (w.m.closed ==> w.m.closing && w.stopped)
    && (w.stopped ==> w.stopBegan)
    && w.m.current in w.snapshot
  }

  /** A read is of the current or a retired catalog; a job's read is of its own, the current one. */
  predicate ReadBound(current: Catalog, retired: set<Catalog>, jobs: map<nat, Job>, x: Borrow) {
    && (x.catalog == current || x.catalog in retired)
    && (x.job.Some? ==> x.catalog == current && x.job.value in jobs && jobs[x.job.value].started)
  }

  /** Unfinished jobs are bound to the current catalog, and retired catalogs still have readers. */
  predicate Bound(w: World) {
    && (forall j :: j in w.jobs ==> w.jobs[j].catalog == w.m.current)
    && (forall b :: b in w.borrows ==> ReadBound(w.m.current, w.m.retired, w.jobs, w.borrows[b]))
    && (forall catalog :: catalog in w.m.retired ==> w.m.readers[catalog] > 0 && catalog in w.snapshot)
    && (w.m.current in w.m.retired ==> w.m.closed && w.m.running == 0)
    && (w.m.closed && w.m.running == 0 ==> w.m.current in w.m.retired || Doomed(w, w.m.current))
  }

  ghost predicate ClosedOnce(w: World) {
    forall catalog ::
      && w.toClose[catalog] + w.closes[catalog] <= 1
      && (Doomed(w, catalog) ==> Unreachable(w, catalog) && catalog in w.snapshot)
  }

  predicate RefreshInv(w: World) {
    && (Candidate(w.refresh).Some? ==>
          var c := Candidate(w.refresh).value;
          c in w.snapshot && c != w.m.current && Unreachable(w, c) && !Doomed(w, c))
    && (match w.refresh
        case Idle => !w.m.closing ==> !w.m.paused
        case Draining(_, origin) => w.m.paused && w.m.current == origin
        case Drained(_, origin) => w.m.paused && w.m.current == origin && (!w.m.closing ==> w.m.pending == 0)
        case Probing(expected, origin, b) =>
          && w.m.paused && w.m.current == origin && (!w.m.closing ==> w.m.pending == 0)
          && b in w.borrows && w.borrows[b].job.None? && w.borrows[b].catalog == w.m.current
          && HasSnapshot(w, w.m.current, expected)
        case Loading(_, origin) => w.m.paused && w.m.current == origin && (!w.m.closing ==> w.m.pending == 0)
        case Holding(_, origin, _) => w.m.paused && w.m.current == origin && (!w.m.closing ==> w.m.pending == 0)
        case Validated(expected, origin, candidate) =>
          && w.m.paused && w.m.current == origin && (!w.m.closing ==> w.m.pending == 0)
          && HasSnapshot(w, candidate, expected)
        case Failing(origin, abandoned, disposed) =>
          && w.m.current == origin && (abandoned.Some? ==> abandoned.value != w.m.current)
          && (disposed ==> abandoned.Some? && w.closes[abandoned.value] == 1)
        case Succeeding(expected, _) => HasSnapshot(w, w.m.current, expected))
  }

  ghost predicate Inv(w: World) {
    Flags(w) && Counted(w) && Bound(w) && ClosedOnce(w) && RefreshInv(w)
  }

  lemma {:induction false} EnabledIsDefined(w: World, a: Action)
    requires Inv(w) && Allowed(w, a)
    ensures a.EndProbe? ==> w.refresh.borrow in w.borrows
  {
  }

  // ----- Steps that start or end a read ------------------------------------------------------

  function WithBorrow(w: World, b: nat, job: Option<nat>): World {
    w.(m := w.m.(readers := w.m.readers + multiset{w.m.current}), borrows := w.borrows[b := Borrow(w.m.current, job)])
  }

  lemma {:induction false} ReadersWithBorrow(w: World, b: nat, job: Option<nat>, catalog: Catalog)
    requires b !in w.borrows
    ensures ReadersOf(WithBorrow(w, b, job).borrows, catalog)
         == if catalog == w.m.current then ReadersOf(w.borrows, catalog) + {b} else ReadersOf(w.borrows, catalog)
  {
  }

  /** A read that may start: in a started job's thread, or while the manager is not closed. */
  predicate MayStart(w: World, b: nat, job: Option<nat>) {
    && b !in w.borrows
    && (job.Some? ==> job.value in w.jobs && w.jobs[job.value].started)
    && (job.None? ==> !w.m.closed)
  }

  lemma {:induction false} StartedReadCounted(w: World, b: nat, job: Option<nat>)
    requires Counted(w) && MayStart(w, b, job)
    ensures Counted(WithBorrow(w, b, job))
    ensures w.m.closed ==> w.m.running > 0
  {
    var w' := WithBorrow(w, b, job);
    forall catalog ensures w'.m.readers[catalog] == |ReadersOf(w'.borrows, catalog)| {
      ReadersWithBorrow(w, b, job, catalog);
    }
    if job.Some? {
      assert job.value in StartedJobs(w.jobs);
    }
  }

  lemma {:induction false} StartedReadUnreachable(w: World, b: nat, job: Option<nat>, catalog: Catalog)
    requires MayStart(w, b, job) && (w.m.closed ==> w.m.running > 0)
    ensures Unreachable(w, catalog) ==> Unreachable(WithBorrow(w, b, job), catalog)
  {
    ReadersWithBorrow(w, b, job, catalog);
  }

  lemma {:induction false} StartedReadBound(w: World, b: nat, job: Option<nat>)
    requires Bound(w) && MayStart(w, b, job) && (w.m.closed ==> w.m.running > 0)
    ensures Bound(WithBorrow(w, b, job))
  {
  }

  lemma {:induction false} StartedReadClosedOnce(w: World, b: nat, job: Option<nat>)
    requires ClosedOnce(w) && MayStart(w, b, job) && (w.m.closed ==> w.m.running > 0)
    ensures ClosedOnce(WithBorrow(w, b, job))
  {
    var w' := WithBorrow(w, b, job);
    hide Unreachable;
    forall catalog | Doomed(w', catalog) ensures Unreachable(w', catalog) {
      assert Doomed(w, catalog);
      StartedReadUnreachable(w, b, job, catalog);
    }
  }

  /** A new read of the current catalog, with no other change. */
  lemma {:induction false} AddedBorrow(w: World, b: nat, job: Option<nat>)
    requires Inv(w) && MayStart(w, b, job)
    ensures Inv(WithBorrow(w, b, job))
  {
    hide Unreachable, Bound, Counted, ClosedOnce;
    StartedReadCounted(w, b, job);
    StartedReadBound(w, b, job);
    StartedReadClosedOnce(w, b, job);
    if Candidate(w.refresh).Some? {
      StartedReadUnreachable(w, b, job, Candidate(w.refresh).value);
    }
  }

  lemma {:induction false} ReadersWithoutBorrow(w: World, b: nat, catalog: Catalog)
    requires b in w.borrows
    ensures ReadersOf(w.borrows - {b}, catalog) == ReadersOf(w.borrows, catalog) - {b}
    ensures b in ReadersOf(w.borrows, catalog) <==> catalog == w.borrows[b].catalog
  {
  }

  lemma {:induction false} EndedReadCounted(w: World, b: nat)
    requires Counted(w) && b in w.borrows
    ensures Counted(ReturnedBorrow(w, b))
  {
    var w' := ReturnedBorrow(w, b);
    forall catalog ensures w'.m.readers[catalog] == |ReadersOf(w'.borrows, catalog)| {
      ReadersWithoutBorrow(w, b, catalog);
    }
  }

  lemma {:induction false} EndedReadUnreachable(w: World, b: nat, catalog: Catalog)
    requires b in w.borrows && Unreachable(w, catalog)
    ensures Unreachable(ReturnedBorrow(w, b), catalog) && catalog != w.borrows[b].catalog
  {
    ReadersWithoutBorrow(w, b, catalog);
  }

  /** What the end of a read leaves alone. */
  lemma {:induction false} EndedReadShape(w: World, b: nat)
    requires b in w.borrows
    ensures var w', c := ReturnedBorrow(w, b), w.borrows[b].catalog;
      && w'.borrows == w.borrows - {b}
      && w' == w.(m := w.m.(readers := w'.m.readers, retired := w'.m.retired), borrows := w'.borrows, toClose := w'.toClose)
      && (if c in w.m.retired && w'.m.readers[c] == 0
          then w'.m.retired == w.m.retired - {c} && w'.toClose == w.toClose + multiset{c}
          else w'.m.retired == w.m.retired && w'.toClose == w.toClose)
      && forall x :: x != c ==> w'.m.readers[x] == w.m.readers[x]
  {
  }

  lemma {:induction false} StillRead(w: World, b: nat, x: nat)
    requires Counted(w) && b in w.borrows && x in w.borrows && x != b
    ensures ReturnedBorrow(w, b).m.readers[w.borrows[x].catalog] > 0
  {
    EndedReadCounted(w, b);
    assert x in ReadersOf(ReturnedBorrow(w, b).borrows, w.borrows[x].catalog);
  }

  lemma {:induction false} EndedReadBound(w: World, b: nat)
    requires b in w.borrows && Counted(w) && Bound(w)
    ensures Bound(ReturnedBorrow(w, b))
  {
    hide ReturnedBorrow, Counted;
    EndedReadShape(w, b);
    forall x | x in w.borrows && x != b ensures ReturnedBorrow(w, b).m.readers[w.borrows[x].catalog] > 0 {
      StillRead(w, b, x);
    }
  }

  /** If the read was the last of a retired catalog, that catalog becomes unreachable. */
  lemma {:induction false} EndedReadRetires(w: World, b: nat, catalog: Catalog)
    requires b in w.borrows && Counted(w) && Bound(w) && !Doomed(w, catalog)
    ensures var w' := ReturnedBorrow(w, b);
      w'.toClose[catalog] <= 1 && (Doomed(w', catalog) ==> Unreachable(w', catalog) && catalog in w'.snapshot)
  {
    var w', c := ReturnedBorrow(w, b), w.borrows[b].catalog;
    EndedReadCounted(w, b);
    if Doomed(w', catalog) {
      assert catalog == c && w'.m.readers[c] == 0;
      assert ReadersOf(w'.borrows, c) == {};
    }
  }

  lemma {:induction false} EndedReadClosedOnce(w: World, b: nat)
    requires b in w.borrows && Counted(w) && Bound(w) && ClosedOnce(w)
    ensures ClosedOnce(ReturnedBorrow(w, b))
  {
    hide Unreachable, Bound, Counted;
    var w' := ReturnedBorrow(w, b);
    forall catalog ensures w'.toClose[catalog] + w'.closes[catalog] <= 1
                   ensures Doomed(w', catalog) ==> Unreachable(w', catalog) && catalog in w'.snapshot {
      if Doomed(w, catalog) {
        EndedReadUnreachable(w, b, catalog);
      } else {
        EndedReadRetires(w, b, catalog);
      }
    }
  }

  /** The refreshing thread's own read ends with a move of that thread. */
  predicate NextRefresh(r: Refresh, b: nat, next: Refresh) {
    if r.Probing? && r.borrow == b then
      || next == Succeeding(r.expected, r.origin)
      || next == Loading(r.expected, r.origin)
      || next == Failing(r.origin, None, false)
    else next == r
  }

  lemma {:induction false} EndedReadRefresh(w: World, b: nat, next: Refresh)
    requires RefreshInv(w) && ClosedOnce(w) && Bound(w) && Counted(w) && b in w.borrows && NextRefresh(w.refresh, b, next)
    ensures RefreshInv(ReturnedBorrow(w, b).(refresh := next))
  {
    hide ReturnedBorrow, Bound, Counted, ClosedOnce, Unreachable;
    EndedReadShape(w, b);
    if Candidate(w.refresh).Some? {
      EndedReadUnreachable(w, b, Candidate(w.refresh).value);
    }
  }

  lemma {:induction false} RemovedBorrow(w: World, b: nat, next: Refresh)
    requires Inv(w) && b in w.borrows && NextRefresh(w.refresh, b, next)
    ensures Inv(ReturnedBorrow(w, b).(refresh := next))
  {
    hide ReturnedBorrow, Bound, Counted, ClosedOnce, Unreachable, RefreshInv;
    EndedReadCounted(w, b);
    EndedReadBound(w, b);
    EndedReadClosedOnce(w, b);
    SameButRefresh(ReturnedBorrow(w, b), next);
    EndedReadRefresh(w, b, next);
    EndedReadShape(w, b);
  }

  lemma {:induction false} SameButRefresh(w: World, next: Refresh)
    ensures Bound(w.(refresh := next)) <==> Bound(w)
    ensures Counted(w.(refresh := next)) <==> Counted(w)
    ensures ClosedOnce(w.(refresh := next)) <==> ClosedOnce(w)
  {
    var w' := w.(refresh := next);
    assert forall c :: (Doomed(w, c) <==> Doomed(w', c)) && (Unreachable(w, c) <==> Unreachable(w', c));
  }

  // ----- Jobs --------------------------------------------------------------------------------

  lemma {:induction false} SetOneJob(jobs: map<nat, Job>, j: nat, job: Job)
    ensures |jobs[j := job]| == if j in jobs then |jobs| else |jobs| + 1
    ensures StartedJobs(jobs[j := job]) == if job.started then StartedJobs(jobs) + {j} else StartedJobs(jobs) - {j}
  {
    var more := jobs[j := job];
    assert |more.Keys| == |more| && |jobs.Keys| == |jobs|;
    assert more.Keys == jobs.Keys + {j};
  }

  lemma {:induction false} DropOneJob(jobs: map<nat, Job>, j: nat)
    requires j in jobs
    ensures |jobs - {j}| == |jobs| - 1
    ensures StartedJobs(jobs - {j}) == StartedJobs(jobs) - {j}
  {
    var fewer := jobs - {j};
    assert |fewer.Keys| == |fewer| && |jobs.Keys| == |jobs|;
    assert fewer.Keys == jobs.Keys - {j};
  }

  lemma {:induction false} JobAdded(w: World, j: nat)
    requires Inv(w) && j !in w.jobs && !w.m.paused && !w.m.closing
    ensures Inv(JobSubmitted(w, j, true))
  {
    hide JobSubmitted, ReadersOf, StartedJobs;
    JobsChanged(w, j, Job(w.m.current, false), w.m.(pending := w.m.pending + 1));
    SubmitShape(w, j);
  }

  lemma {:induction false} SubmitShape(w: World, j: nat)
    requires !w.m.paused && !w.m.closing
    ensures JobSubmitted(w, j, true) == w.(m := w.m.(pending := w.m.pending + 1), jobs := w.jobs[j := Job(w.m.current, false)])
  {
  }

  lemma {:induction false} StartJobShape(w: World, j: nat)
    requires j in w.jobs
    ensures JobBegun(w, j) == w.(m := w.m.(running := w.m.running + 1), jobs := w.jobs[j := Job(w.jobs[j].catalog, true)])
  {
  }

  /** A job accepted, or an accepted job started, with the counters kept in step. */
  lemma {:induction false} JobsChanged(w: World, j: nat, job: Job, m: Manager)
    requires Inv(w) && job.catalog == w.m.current && !w.m.closed
    requires if j in w.jobs then !w.jobs[j].started && job.started && m == w.m.(running := w.m.running + 1)
             else !job.started && !w.m.paused && m == w.m.(pending := w.m.pending + 1)
    ensures Inv(w.(m := m, jobs := w.jobs[j := job]))
  {
    hide ClosedOnce, Unreachable, Doomed, Counted, Bound;
    var w' := w.(m := m, jobs := w.jobs[j := job]);
    JobsCounted(w, j, job, m);
    JobsBound(w, j, job, m);
    ReachableAlike(w, w');
  }

  lemma {:induction false} JobsCounted(w: World, j: nat, job: Job, m: Manager)
    requires Counted(w) && Flags(w) && !w.m.closed
    requires if j in w.jobs then !w.jobs[j].started && job.started && m == w.m.(running := w.m.running + 1)
             else !job.started && !w.m.paused && m == w.m.(pending := w.m.pending + 1)
    ensures Counted(w.(m := m, jobs := w.jobs[j := job]))
  {
    hide ReadersOf, StartedJobs;
    SetOneJob(w.jobs, j, job);
    StartedIsNotQueued(w.jobs, j);
  }

  lemma {:induction false} StartedIsNotQueued(jobs: map<nat, Job>, j: nat)
    ensures j !in jobs || !jobs[j].started ==> j !in StartedJobs(jobs)
    ensures j !in StartedJobs(jobs) ==>
              |StartedJobs(jobs) + {j}| == |StartedJobs(jobs)| + 1 && StartedJobs(jobs) - {j} == StartedJobs(jobs)
  {
  }

  lemma {:induction false} JobsBound(w: World, j: nat, job: Job, m: Manager)
    requires Bound(w) && job.catalog == w.m.current && !w.m.closed
    requires if j in w.jobs then !w.jobs[j].started && job.started && m == w.m.(running := w.m.running + 1)
             else !job.started && !w.m.paused && m == w.m.(pending := w.m.pending + 1)
    ensures Bound(w.(m := m, jobs := w.jobs[j := job]))
  {
    hide Doomed;
    forall b | b in w.borrows ensures ReadBound(w.m.current, w.m.retired, w.jobs[j := job], w.borrows[b]) {
      assert ReadBound(w.m.current, w.m.retired, w.jobs, w.borrows[b]);
    }
  }

  /** Worlds that agree on reads, retirement and closing agree on what is doomed and unreachable. */
  lemma {:induction false} ReachableAlike(w: World, w': World)
    requires w'.borrows == w.borrows && w'.toClose == w.toClose && w'.closes == w.closes
    requires w'.m.retired == w.m.retired && w'.m.current == w.m.current
    requires w.m.closed && w.m.running == 0 ==> w'.m.closed && w'.m.running == 0
    ensures forall c :: Doomed(w', c) <==> Doomed(w, c)
    ensures forall c :: Unreachable(w, c) ==> Unreachable(w', c)
    ensures ClosedOnce(w) && w.snapshot.Keys <= w'.snapshot.Keys ==> ClosedOnce(w')
  {
  }

  lemma {:induction false} JobStarted(w: World, j: nat)
    requires Inv(w) && Allowed(w, StartJob(j))
    ensures Inv(JobBegun(w, j))
  {
    hide JobBegun, ReadersOf, StartedJobs, RefreshInv, ClosedOnce;
    JobsChanged(w, j, Job(w.jobs[j].catalog, true), w.m.(running := w.m.running + 1));
    StartJobShape(w, j);
  }

  lemma {:induction false} EndJobCounters(w: World, j: nat)
    requires j in w.jobs
    ensures var w' := JobFinished(w, j);
      w'.m.running == w.m.running - 1 && w'.m.pending == w.m.pending - 1 && w'.m.readers == w.m.readers
      && w'.jobs == w.jobs - {j} && w'.borrows == w.borrows && w'.m.closing == w.m.closing
  {
  }

  lemma {:induction false} EndJobCounts(w: World, j: nat)
    requires Inv(w) && Allowed(w, EndJob(j))
    ensures Counted(JobFinished(w, j))
    ensures w.m.running > 0 && w.jobs[j].catalog == w.m.current
    ensures !w.m.closing ==> w.m.pending > 0
  {
    hide JobFinished, ClosedOnce, RefreshInv, Flags, ReadersOf;
    DropOneJob(w.jobs, j);
    EndJobCounters(w, j);
    assert j in StartedJobs(w.jobs);
  }

  lemma {:induction false} EndJobShape(w: World, j: nat)
    requires j in w.jobs && w.jobs[j].catalog == w.m.current && w.m.current !in w.m.retired
    ensures var w' := JobFinished(w, j);
      && w' == w.(m := w.m.(running := w.m.running - 1, pending := w.m.pending - 1, retired := w'.m.retired),
                  jobs := w.jobs - {j}, toClose := w'.toClose)
      && (if w.m.closed && w.m.running == 1 && w.m.readers[w.m.current] > 0
          then w'.m.retired == w.m.retired + {w.m.current} && w'.toClose == w.toClose
          else w'.m.retired == w.m.retired)
      && (if w.m.closed && w.m.running == 1 && w.m.readers[w.m.current] == 0
          then w'.toClose == w.toClose + multiset{w.m.current}
          else w'.toClose == w.toClose)
  {
    assert w.m.retired + {w.m.current} - {w.m.current} == w.m.retired;
  }

  lemma {:induction false} EndJobBound(w: World, j: nat)
    requires Inv(w) && Allowed(w, EndJob(j))
    ensures Bound(JobFinished(w, j))
  {
    hide JobFinished, RefreshInv, ClosedOnce, Counted, ReadersOf, StartedJobs;
    EndJobCounts(w, j);
    EndJobShape(w, j);
  }

  /** The last catalog is retired, or committed to be closed when nobody reads it. */
  predicate LastRetired(w: World, w': World) {
    && w'.m.current == w.m.current && w'.borrows == w.borrows && w'.closes == w.closes && w'.snapshot == w.snapshot
    && (forall j :: j in w'.jobs ==> j in w.jobs && w'.jobs[j] == w.jobs[j])
    && (w'.m.retired == w.m.retired || w'.m.retired == w.m.retired + {w.m.current})
    && (w'.toClose == w.toClose
        || (w'.toClose == w.toClose + multiset{w.m.current} && Unreachable(w', w.m.current) && w.m.current in w.snapshot))
  }

  lemma {:induction false} LastRetiredClosedOnce(w: World, w': World)
    requires ClosedOnce(w) && !Doomed(w, w.m.current) && LastRetired(w, w')
    ensures ClosedOnce(w')
    ensures forall c :: c != w.m.current && Unreachable(w, c) ==> Unreachable(w', c)
    ensures forall c :: c != w.m.current && !Doomed(w, c) ==> !Doomed(w', c)
  {
    forall catalog
      ensures w'.toClose[catalog] + w'.closes[catalog] <= 1
      ensures Doomed(w', catalog) ==> Unreachable(w', catalog) && catalog in w'.snapshot
    {
      assert Doomed(w, catalog) ==> Unreachable(w, catalog) && catalog in w.snapshot && w.toClose[catalog] + w.closes[catalog] <= 1;
    }
  }

  lemma {:induction false} EndJobRetires(w: World, j: nat)
    requires Inv(w) && Allowed(w, EndJob(j))
    ensures LastRetired(w, JobFinished(w, j)) && !Doomed(w, w.m.current)
  {
    hide JobFinished, RefreshInv;
    EndJobCounts(w, j);
    EndJobShape(w, j);
    assert !Doomed(w, w.m.current);
    assert w.m.readers[w.m.current] == 0 ==> ReadersOf(w.borrows, w.m.current) == {};
  }

  lemma {:induction false} EndJobClosedOnce(w: World, j: nat)
    requires Inv(w) && Allowed(w, EndJob(j))
    ensures ClosedOnce(JobFinished(w, j))
    ensures forall c :: c != w.m.current && Unreachable(w, c) ==> Unreachable(JobFinished(w, j), c)
    ensures forall c :: c != w.m.current && !Doomed(w, c) ==> !Doomed(JobFinished(w, j), c)
  {
    hide JobFinished, Counted, Bound, ClosedOnce, Unreachable, Doomed, RefreshInv, LastRetired;
    EndJobRetires(w, j);
    LastRetiredClosedOnce(w, JobFinished(w, j));
  }

  lemma {:induction false} JobEnded(w: World, j: nat)
    requires Inv(w) && Allowed(w, EndJob(j))
    ensures Inv(JobFinished(w, j))
  {
    hide JobFinished, Bound, Counted, ClosedOnce, Unreachable, Doomed;
    EndJobCounts(w, j);
    EndJobBound(w, j);
    EndJobClosedOnce(w, j);
    EndJobShapeOf(w, j);
  }

  lemma {:induction false} EndJobShapeOf(w: World, j: nat)
    requires Inv(w) && Allowed(w, EndJob(j))
    ensures var w' := JobFinished(w, j);
      w' == w.(m := w.m.(running := w.m.running - 1, pending := w.m.pending - 1, retired := w'.m.retired),
               jobs := w.jobs - {j}, toClose := w'.toClose)
  {
    EndJobCounts(w, j);
    EndJobShape(w, j);
  }

  // ----- The refreshing thread ---------------------------------------------------------------

  /** Moving the refreshing thread, or the admission gate, changes nothing else. */
  lemma {:induction false} SameButGate(w: World, paused: bool, next: Refresh)
    ensures var w' := w.(m := w.m.(paused := paused), refresh := next);
      && (Bound(w') <==> Bound(w)) && (Counted(w') <==> Counted(w)) && (ClosedOnce(w') <==> ClosedOnce(w))
      && forall c :: (Unreachable(w', c) <==> Unreachable(w, c)) && (Doomed(w', c) <==> Doomed(w, c))
  {
    var w' := w.(m := w.m.(paused := paused), refresh := next);
    assert forall c :: (Doomed(w, c) <==> Doomed(w', c)) && (Unreachable(w, c) <==> Unreachable(w', c));
  }

  lemma {:induction false} GateMoved(w: World, paused: bool, next: Refresh)
    requires Inv(w)
    requires w.m.closing ==> paused
    requires Candidate(next).Some? ==> Candidate(next) == Candidate(w.refresh)
    requires RefreshInv(w.(m := w.m.(paused := paused), refresh := next))
    ensures Inv(w.(m := w.m.(paused := paused), refresh := next))
  {
    hide Bound, Counted, ClosedOnce, Unreachable, Doomed, RefreshInv;
    SameButGate(w, paused, next);
  }

  /** Every step of the refreshing thread that only moves the thread or the gate. */
  lemma {:induction false} PlainMove(w: World, a: Action)
    requires Inv(w) && Allowed(w, a)
    requires a.SeeDrained? || a.GiveUpDraining? || a.CheckDurableWork? || a.Validate? || a.TakeRefresh? || a.LeaveRefresh?
    ensures Inv(After(w, a))
  {
    hide Bound, Counted, ClosedOnce;
    var w' := After(w, a);
    SameButGate(w, w'.m.paused, w'.refresh);
    assert w' == w.(m := w.m.(paused := w'.m.paused), refresh := w'.refresh);
    GateMoved(w, w'.m.paused, w'.refresh);
  }

  lemma {:induction false} ProbeMove(w: World, b: nat)
    requires Inv(w) && Allowed(w, StartProbe(b))
    ensures Inv(ProbeStarted(w, b))
  {
    hide Bound, Counted, ClosedOnce, Unreachable, Doomed;
    if w.m.closed {
      SameButGate(w, w.m.paused, ProbeStarted(w, b).refresh);
      GateMoved(w, w.m.paused, ProbeStarted(w, b).refresh);
    } else {
      AddedBorrow(w, b, None);
      SameButRefresh(WithBorrow(w, b, None), ProbeStarted(w, b).refresh);
    }
  }

  lemma {:induction false} UnknownIsUnreachable(w: World, catalog: Catalog)
    requires Inv(w) && catalog !in w.snapshot
    ensures Unreachable(w, catalog) && !Doomed(w, catalog) && catalog != w.m.current
  {
    forall b | b in w.borrows ensures w.borrows[b].catalog != catalog {
      assert ReadBound(w.m.current, w.m.retired, w.jobs, w.borrows[b]);
    }
  }

  lemma {:induction false} MoreSnapshots(w: World, catalog: Catalog, id: nat)
    requires Bound(w) && Counted(w) && ClosedOnce(w)
    ensures var w' := w.(snapshot := w.snapshot[catalog := id]);
      && Bound(w') && Counted(w') && ClosedOnce(w')
      && forall c :: (Unreachable(w', c) <==> Unreachable(w, c)) && (Doomed(w', c) <==> Doomed(w, c))
  {
    var w' := w.(snapshot := w.snapshot[catalog := id]);
    assert forall c :: (Doomed(w, c) <==> Doomed(w', c)) && (Unreachable(w, c) <==> Unreachable(w', c));
  }

  lemma {:induction false} BuildMove(w: World, candidate: Catalog, id: nat)
    requires Inv(w) && Allowed(w, Build(Some(candidate), id))
    ensures Inv(Built(w, Some(candidate), id))
  {
    hide Bound, Counted, ClosedOnce, Unreachable, Doomed;
    UnknownIsUnreachable(w, candidate);
    MoreSnapshots(w, candidate, id);
    SameButRefresh(w.(snapshot := w.snapshot[candidate := id]), Built(w, Some(candidate), id).refresh);
    SameButGate(w.(snapshot := w.snapshot[candidate := id]), w.m.paused, Built(w, Some(candidate), id).refresh);
  }

  /** A swap that goes through finds no unfinished job. */
  lemma {:induction false} SwapFindsNoJob(w: World)
    requires Inv(w) && w.refresh.Validated? && !w.m.closing
    ensures w.jobs == map[] && !w.m.closed && w.m.running == 0
  {
    hide ClosedOnce, Bound, Unreachable;
    assert |w.jobs| == 0;
    assert StartedJobs(w.jobs) == {};
  }

  lemma {:induction false} SwapShape(w: World)
    requires w.refresh.Validated? && !w.m.closing && w.m.current !in w.m.retired
    ensures var w', prior := SwapTried(w), w.m.current;
      && w' == w.(m := w.m.(current := w.refresh.candidate, retired := w'.m.retired), toClose := w'.toClose,
                  refresh := Succeeding(w.refresh.expected, w.refresh.origin))
      && (if w.m.readers[prior] > 0 then w'.m.retired == w.m.retired + {prior} && w'.toClose == w.toClose
          else w'.m.retired == w.m.retired && w'.toClose == w.toClose + multiset{prior})
  {
    assert w.m.retired + {w.m.current} - {w.m.current} == w.m.retired;
  }

  lemma {:induction false} SwapBound(w: World)
    requires Inv(w) && w.refresh.Validated? && !w.m.closing
    ensures Bound(SwapTried(w)) && Counted(SwapTried(w))
  {
    hide SwapTried, ClosedOnce;
    SwapFindsNoJob(w);
    SwapShape(w);
    forall b | b in w.borrows && w.borrows[b].catalog == w.m.current ensures w.m.readers[w.m.current] > 0 {
      assert b in ReadersOf(w.borrows, w.m.current);
    }
    assert forall b :: b in w.borrows ==> ReadBound(w.m.current, w.m.retired, w.jobs, w.borrows[b]);
  }

  lemma {:induction false} SwapClosedOnce(w: World)
    requires Inv(w) && w.refresh.Validated? && !w.m.closing
    ensures ClosedOnce(SwapTried(w))
  {
    hide SwapTried, Counted, Bound;
    SwapFindsNoJob(w);
    SwapRetiresUnread(w);
    assert !Doomed(w, w.m.current);
    assert !Doomed(w, w.refresh.candidate);
  }

  lemma {:induction false} SwapRetiresUnread(w: World)
    requires Inv(w) && w.refresh.Validated? && !w.m.closing
    ensures var w', prior := SwapTried(w), w.m.current;
      && w' == w.(m := w.m.(current := w.refresh.candidate, retired := w'.m.retired), toClose := w'.toClose,
                  refresh := Succeeding(w.refresh.expected, w.refresh.origin))
      && (if w.m.readers[prior] > 0 then w'.m.retired == w.m.retired + {prior} && w'.toClose == w.toClose
          else w'.m.retired == w.m.retired && w'.toClose == w.toClose + multiset{prior})
      && (w.m.readers[prior] == 0 ==> ReadersOf(w.borrows, prior) == {})
      && prior !in w.m.retired
  {
    hide SwapTried, ClosedOnce;
    SwapFindsNoJob(w);
    SwapShape(w);
  }

  lemma {:induction false} SwapMove(w: World)
    requires Inv(w) && Allowed(w, Swap)
    ensures Inv(SwapTried(w))
  {
    hide Bound, Counted, ClosedOnce, Unreachable, Doomed;
    if w.m.closing {
      SameButGate(w, w.m.paused, SwapTried(w).refresh);
      GateMoved(w, w.m.paused, SwapTried(w).refresh);
    } else {
      SwapBound(w);
      SwapClosedOnce(w);
    }
  }

  // ----- Closing -----------------------------------------------------------------------------

  lemma {:induction false} CandidateDisposed(w: World)
    requires Inv(w) && Allowed(w, DisposeCandidate)
    ensures Inv(After(w, DisposeCandidate))
  {
    hide Counted, Bound;
    var w' := After(w, DisposeCandidate);
    assert forall c :: Unreachable(w', c) <==> Unreachable(w, c);
    assert forall c :: Doomed(w', c) <==> Doomed(w, c) || c == w.refresh.abandoned.value;
    SameButCloses(w, w');
  }

  lemma {:induction false} SameButCloses(w: World, w': World)
    requires w' == w.(toClose := w'.toClose, closes := w'.closes, refresh := w'.refresh)
    requires forall c :: Doomed(w, c) ==> Doomed(w', c)
    ensures Counted(w) ==> Counted(w')
    ensures Bound(w) ==> Bound(w')
  {
  }

  lemma {:induction false} CloseCalled(w: World, catalog: Catalog)
    requires Inv(w) && Allowed(w, CallClose(catalog))
    ensures Inv(After(w, CallClose(catalog)))
  {
    hide Counted, Bound;
    var w' := After(w, CallClose(catalog));
    assert forall c :: Unreachable(w', c) <==> Unreachable(w, c);
    assert forall c :: Doomed(w', c) <==> Doomed(w, c);
    SameButCloses(w, w');
  }

  lemma {:induction false} StopStarted(w: World)
    requires Inv(w) && Allowed(w, StartStop)
    ensures Inv(After(w, StartStop))
  {
    hide ReadersOf, StartedJobs;
    ReachableAlike(w, After(w, StartStop));
  }

  lemma {:induction false} QueueDropped(w: World, dropped: set<nat>)
    requires Inv(w) && Allowed(w, DropQueued(dropped))
    ensures Inv(After(w, DropQueued(dropped)))
  {
    hide ReadersOf;
    var w' := After(w, DropQueued(dropped));
    assert StartedJobs(w'.jobs) == StartedJobs(w.jobs);
    ReachableAlike(w, w');
  }

  lemma {:induction false} StopFinished(w: World)
    requires Inv(w) && Allowed(w, FinishStop)
    ensures Inv(After(w, FinishStop))
  {
    hide ReadersOf, StartedJobs;
    ReachableAlike(w, After(w, FinishStop));
  }

  lemma {:induction false} CloseShape(w: World)
    requires w.m.current !in w.m.retired
    ensures var w' := ManagerClosed(w);
      && w' == w.(m := w.m.(closed := true, closing := true, paused := true, retired := w'.m.retired), toClose := w'.toClose)
      && (if w.m.running == 0 && w.m.readers[w.m.current] > 0 then w'.m.retired == w.m.retired + {w.m.current}
          else w'.m.retired == w.m.retired)
      && (if w.m.running == 0 && w.m.readers[w.m.current] == 0 then w'.toClose == w.toClose + multiset{w.m.current}
          else w'.toClose == w.toClose)
  {
    assert w.m.retired + {w.m.current} - {w.m.current} == w.m.retired;
  }

  lemma {:induction false} CloseBound(w: World)
    requires Inv(w) && Allowed(w, CloseManager)
    ensures Bound(ManagerClosed(w)) && Counted(ManagerClosed(w))
  {
    hide ManagerClosed, ClosedOnce, RefreshInv;
    CloseShape(w);
  }

  lemma {:induction false} CloseRetires(w: World)
    requires Inv(w) && Allowed(w, CloseManager)
    ensures LastRetired(w, ManagerClosed(w)) && !Doomed(w, w.m.current)
  {
    hide ManagerClosed, RefreshInv;
    CloseShape(w);
    assert !Doomed(w, w.m.current);
    assert w.m.readers[w.m.current] == 0 ==> ReadersOf(w.borrows, w.m.current) == {};
  }

  lemma {:induction false} CloseClosedOnce(w: World)
    requires Inv(w) && Allowed(w, CloseManager)
    ensures ClosedOnce(ManagerClosed(w))
    ensures forall c :: c != w.m.current && Unreachable(w, c) ==> Unreachable(ManagerClosed(w), c)
    ensures forall c :: c != w.m.current && !Doomed(w, c) ==> !Doomed(ManagerClosed(w), c)
  {
    hide ManagerClosed, Counted, Bound, ClosedOnce, Unreachable, Doomed, RefreshInv, LastRetired;
    CloseRetires(w);
    LastRetiredClosedOnce(w, ManagerClosed(w));
  }

  lemma {:induction false} CloseDone(w: World)
    requires Inv(w) && Allowed(w, CloseManager)
    ensures Inv(ManagerClosed(w))
  {
    hide Bound, Counted, ClosedOnce, Unreachable, Doomed, ManagerClosed;
    CloseBound(w);
    CloseClosedOnce(w);
    CloseKeeps(w);
  }

  lemma {:induction false} CloseKeeps(w: World)
    requires Inv(w) && !w.m.closed
    ensures var w' := ManagerClosed(w);
      w' == w.(m := w.m.(closed := true, closing := true, paused := true, retired := w'.m.retired), toClose := w'.toClose)
  {
    CloseShape(w);
  }

  lemma {:induction false} BorrowMove(w: World, a: Action)
    requires Inv(w) && Allowed(w, a) && (a.StartBorrow? || a.StartHealth?)
    ensures Inv(After(w, a))
  {
    hide Counted, ClosedOnce, RefreshInv, Unreachable, Doomed;
    if a.StartBorrow? && After(w, a) != w {
      AddedBorrow(w, a.b, a.job);
    }
    if a.StartHealth? && After(w, a) != w {
      AddedBorrow(w, a.b, None);
    }
  }

  /** Every step of every thread keeps the invariant. */
  lemma {:induction false} StepKeepsInv(w: World, a: Action)
    requires Inv(w) && Allowed(w, a)
    ensures a.EndProbe? ==> w.refresh.borrow in w.borrows
    ensures Inv(After(w, a))
  {
    EnabledIsDefined(w, a);
    hide Inv;
    match a
    case StartBorrow(_, _, _) => BorrowMove(w, a);
    case StartHealth(_) => BorrowMove(w, a);
    case EndBorrow(b) => RemovedBorrow(w, b, w.refresh);
    case Submit(j, queued) =>
      if queued && !w.m.paused && !w.m.closing {
        JobAdded(w, j);
      }
    case StartJob(j) => JobStarted(w, j);
    case EndJob(j) => JobEnded(w, j);
    case StartProbe(b) => ProbeMove(w, b);
    case EndProbe(result) => RemovedBorrow(w, w.refresh.borrow, ProbeResult(w.refresh, result));
    case Build(candidate, id) =>
      if candidate.Some? {
        BuildMove(w, candidate.value, id);
      } else {
        BuildFailed(w, id);
      }
    case Swap => SwapMove(w);
    case DisposeCandidate => CandidateDisposed(w);
    case CallClose(catalog) => CloseCalled(w, catalog);
    case StartStop => StopStarted(w);
    case DropQueued(dropped) => QueueDropped(w, dropped);
    case FinishStop => StopFinished(w);
    case CloseManager => CloseDone(w);
    case _ => PlainMove(w, a);
  }

  lemma {:induction false} BuildFailed(w: World, id: nat)
    requires Inv(w) && Allowed(w, Build(None, id))
    ensures Inv(Built(w, None, id))
  {
    hide Bound, Counted, ClosedOnce, Unreachable, Doomed;
    GateMoved(w, w.m.paused, Built(w, None, id).refresh);
  }

  // ----- Whole runs --------------------------------------------------------------------------

  ghost predicate IsRun(worlds: seq<World>, actions: seq<Action>) {
    && |worlds| == |actions| + 1
    && (exists catalog, id :: worlds[0] == Initial(catalog, id))
    && forall k :: 0 <= k < |actions| ==> Stepped(worlds[k], actions[k], worlds[k + 1])
  }

  ghost predicate Stepped(w: World, a: Action, w': World) {
    Allowed(w, a) && (a.EndProbe? ==> w.refresh.borrow in w.borrows) && w' == After(w, a)
  }

  lemma {:induction false} InitialInv(catalog: Catalog, id: nat)
    ensures Inv(Initial(catalog, id))
  {
    var w := Initial(catalog, id);
    assert StartedJobs(w.jobs) == {};
    assert forall c :: ReadersOf(w.borrows, c) == {};
  }

  lemma {:induction false} InvAlongRun(worlds: seq<World>, actions: seq<Action>, k: nat)
    requires IsRun(worlds, actions) && k < |worlds|
    ensures Inv(worlds[k])
  {
    hide Inv, After, Allowed;
    if k == 0 {
      var catalog, id :| worlds[0] == Initial(catalog, id);
      InitialInv(catalog, id);
    } else {
      InvAlongRun(worlds, actions, k - 1);
      assert Stepped(worlds[k - 1], actions[k - 1], worlds[k]);
      StepKeepsInv(worlds[k - 1], actions[k - 1]);
    }
  }

  /**
   In every reachable state each catalog has been closed, or is about to be closed, at most once,
   and once that is decided no read is in progress on it and no running job is bound to it.
   */
  lemma {:induction false} ClosedCatalogsAreUnused(worlds: seq<World>, actions: seq<Action>, k: nat, catalog: Catalog)
    requires IsRun(worlds, actions) && k < |worlds|
    ensures worlds[k].toClose[catalog] + worlds[k].closes[catalog] <= 1
    ensures catalog in worlds[k].toClose || catalog in worlds[k].closes ==>
      && (forall b :: b in worlds[k].borrows ==> worlds[k].borrows[b].catalog != catalog)
      && (forall j :: j in worlds[k].jobs && worlds[k].jobs[j].started ==> worlds[k].jobs[j].catalog != catalog)
  {
    InvAlongRun(worlds, actions, k);
    var w := worlds[k];
    hide Counted, RefreshInv;
    if Doomed(w, catalog) {
      forall b | b in w.borrows ensures w.borrows[b].catalog != catalog {
        assert b !in ReadersOf(w.borrows, catalog);
      }
      if catalog == w.m.current {
        NothingRuns(w);
      }
    }
  }

  lemma {:induction false} NothingRuns(w: World)
    requires Counted(w) && w.m.running == 0
    ensures forall j :: j in w.jobs ==> !w.jobs[j].started
  {
    forall j | j in w.jobs ensures !w.jobs[j].started {
      assert StartedJobs(w.jobs) == {};
      assert j !in StartedJobs(w.jobs);
    }
  }

  /** Without reads in progress nothing waits to be retired. */
  lemma {:induction false} NothingRetiredWithoutReads(worlds: seq<World>, actions: seq<Action>, k: nat)
    requires IsRun(worlds, actions) && k < |worlds| && worlds[k].borrows == map[]
    ensures worlds[k].m.retired == {}
  {
    InvAlongRun(worlds, actions, k);
    var w := worlds[k];
    hide RefreshInv, ClosedOnce;
    forall catalog ensures w.m.readers[catalog] == 0 {
      assert ReadersOf(w.borrows, catalog) == {};
    }
  }

  /** After the final close, once jobs and reads are over, the last catalog is closed exactly once. */
  lemma {:induction false} FinalCatalogIsClosed(worlds: seq<World>, actions: seq<Action>, k: nat)
    requires IsRun(worlds, actions) && k < |worlds|
    requires worlds[k].m.closed && worlds[k].borrows == map[]
    requires forall j :: j in worlds[k].jobs ==> !worlds[k].jobs[j].started
    ensures worlds[k].toClose[worlds[k].m.current] + worlds[k].closes[worlds[k].m.current] == 1
  {
    InvAlongRun(worlds, actions, k);
    NothingRetiredWithoutReads(worlds, actions, k);
    hide RefreshInv;
    assert StartedJobs(worlds[k].jobs) == {};
  }

  /** Only a swap that goes through changes the binding, and it finds no unfinished job. */
  lemma {:induction false} BindingChangesOnlyWhenDrained(worlds: seq<World>, actions: seq<Action>, k: nat)
    requires IsRun(worlds, actions) && k < |actions| && worlds[k + 1].m.current != worlds[k].m.current
    ensures actions[k] == Swap && worlds[k].jobs == map[] && !worlds[k].m.closing
    ensures HasSnapshot(worlds[k + 1], worlds[k + 1].m.current, worlds[k].refresh.expected)
  {
    InvAlongRun(worlds, actions, k);
    InvAlongRun(worlds, actions, k + 1);
    assert Stepped(worlds[k], actions[k], worlds[k + 1]);
    OnlySwapRebinds(worlds[k], actions[k]);
    hide Counted, Bound, ClosedOnce;
    SwapFindsNoJob(worlds[k]);
  }

  /** What the steps that end a read or a job, swap or close leave alone. */
  lemma {:induction false} ReturnedKeeps(w: World, b: nat)
    requires b in w.borrows
    ensures var w' := ReturnedBorrow(w, b);
      w'.m.current == w.m.current && w'.jobs == w.jobs && w'.refresh == w.refresh
  {
  }

  lemma {:induction false} FinishedKeeps(w: World, j: nat)
    requires j in w.jobs
    ensures var w' := JobFinished(w, j);
      w'.m.current == w.m.current && w'.jobs == w.jobs - {j} && w'.refresh == w.refresh
  {
  }

  lemma {:induction false} EndingSteps(w: World, a: Action)
    requires Allowed(w, a) && (a.EndProbe? ==> w.refresh.borrow in w.borrows)
    ensures a.EndBorrow? ==> var w' := ReturnedBorrow(w, a.b);
      w'.m.current == w.m.current && w'.jobs == w.jobs && w'.refresh == w.refresh
    ensures a.EndProbe? ==> var w' := ReturnedBorrow(w, w.refresh.borrow);
      w'.m.current == w.m.current && w'.jobs == w.jobs && w'.refresh == w.refresh
    ensures a.EndJob? ==> var w' := JobFinished(w, a.j);
      w'.m.current == w.m.current && w'.jobs == w.jobs - {a.j} && w'.refresh == w.refresh
  {
    hide ReturnedBorrow, JobFinished;
    if a.EndBorrow? {
      ReturnedKeeps(w, a.b);
    } else if a.EndProbe? {
      ReturnedKeeps(w, w.refresh.borrow);
    } else if a.EndJob? {
      FinishedKeeps(w, a.j);
    }
  }

  lemma {:induction false} OtherSteps(w: World, a: Action)
    requires Allowed(w, a)
    ensures a.CloseManager? ==> var w' := ManagerClosed(w);
      w'.m.current == w.m.current && w'.jobs == w.jobs && w'.refresh == w.refresh
    ensures a.Swap? ==> var w' := SwapTried(w);
      && w'.jobs == w.jobs
      && (if w.m.closing then
            w'.m.current == w.m.current && w'.refresh == Failing(w.refresh.origin, Some(w.refresh.candidate), false)
          else
            w'.m.current == w.refresh.candidate && w'.refresh == Succeeding(w.refresh.expected, w.refresh.origin))
    ensures a.StartBorrow? ==> var w' := BorrowStarted(w, a.b, a.job, a.admission);
      w'.m.current == w.m.current && w'.jobs == w.jobs && w'.refresh == w.refresh
    ensures a.StartHealth? ==> var w' := HealthStarted(w, a.b);
      w'.m.current == w.m.current && w'.jobs == w.jobs && w'.refresh == w.refresh
  {
    hide BorrowStarted, HealthStarted;
    if a.StartBorrow? {
      BorrowStartedKeeps(w, a.b, a.job, a.admission);
    } else if a.StartHealth? {
      HealthStartedKeeps(w, a.b);
    }
  }

  lemma {:induction false} BorrowStartedKeeps(w: World, b: nat, job: Option<nat>, admission: bool)
    requires job.Some? ==> job.value in w.jobs
    ensures var w' := BorrowStarted(w, b, job, admission);
      w'.m.current == w.m.current && w'.jobs == w.jobs && w'.refresh == w.refresh
  {
  }

  lemma {:induction false} HealthStartedKeeps(w: World, b: nat)
    ensures var w' := HealthStarted(w, b);
      w'.m.current == w.m.current && w'.jobs == w.jobs && w'.refresh == w.refresh
  {
  }

  lemma {:induction false} OnlySwapRebinds(w: World, a: Action)
    requires Allowed(w, a) && (a.EndProbe? ==> w.refresh.borrow in w.borrows)
    requires After(w, a).m.current != w.m.current
    ensures a == Swap && !w.m.closing && After(w, a).refresh == Succeeding(w.refresh.expected, w.refresh.origin)
  {
    hide ReturnedBorrow, JobFinished, ManagerClosed, SwapTried, BorrowStarted, HealthStarted;
    EndingSteps(w, a);
    OtherSteps(w, a);
  }

  /** From its acceptance to its end, a job and all its reads stay on the catalog that accepted it. */
  lemma {:induction false} JobStaysOnItsCatalog(worlds: seq<World>, actions: seq<Action>, i: nat, k: nat, j: nat)
    requires IsRun(worlds, actions) && i < k < |worlds|
    requires actions[i] == Submit(j, true) && forall n :: i < n <= k ==> j in worlds[n].jobs
    ensures worlds[k].jobs[j].catalog == worlds[i].m.current
    ensures worlds[k].m.current == worlds[i].m.current
    ensures forall b :: b in worlds[k].borrows && worlds[k].borrows[b].job == Some(j) ==>
      worlds[k].borrows[b].catalog == worlds[i].m.current
    decreases k
  {
    hide Inv, Stepped;
    InvAlongRun(worlds, actions, k);
    assert Stepped(worlds[k - 1], actions[k - 1], worlds[k]);
    if k == i + 1 {
      AcceptedOnCurrent(worlds[i], j, worlds[k]);
    } else {
      JobStaysOnItsCatalog(worlds, actions, i, k - 1, j);
      JobKeepsCatalog(worlds[k - 1], actions[k - 1], j, worlds[k]);
    }
    BoundToCurrent(worlds[k], j);
  }

  lemma {:induction false} BoundToCurrent(w: World, j: nat)
    requires Inv(w) && j in w.jobs
    ensures w.jobs[j].catalog == w.m.current
    ensures forall b :: b in w.borrows && w.borrows[b].job == Some(j) ==> w.borrows[b].catalog == w.m.current
  {
    hide Counted, ClosedOnce, RefreshInv;
    assert forall b :: b in w.borrows ==> ReadBound(w.m.current, w.m.retired, w.jobs, w.borrows[b]);
  }

  lemma {:induction false} AcceptedOnCurrent(w: World, j: nat, w': World)
    requires Stepped(w, Submit(j, true), w') && j in w'.jobs
    ensures w'.jobs[j].catalog == w.m.current
  {
  }

  lemma {:induction false} JobKeepsCatalog(w: World, a: Action, j: nat, w': World)
    requires Stepped(w, a, w') && j in w.jobs && j in w'.jobs
    ensures w'.jobs[j].catalog == w.jobs[j].catalog
  {
    hide ReturnedBorrow, JobFinished, ManagerClosed, SwapTried, BorrowStarted, HealthStarted;
    EndingSteps(w, a);
    OtherSteps(w, a);
  }

  // ----- How a refresh ends ------------------------------------------------------------------

  /** The refresh is responsible for this candidate, or has handed it over. */
  predicate Carries(r: Refresh, candidate: Catalog) {
    match r
    case Holding(_, _, c) => c == candidate
    case Validated(_, _, c) => c == candidate
    case Failing(_, abandoned, _) => abandoned == Some(candidate)
    case Succeeding(_, _) => true
    case _ => false
  }

  lemma {:induction false} RefreshStep(w: World, a: Action, origin: Catalog, candidate: Catalog)
    requires Allowed(w, a) && (a.EndProbe? ==> w.refresh.borrow in w.borrows)
    requires !a.LeaveRefresh? && !w.refresh.Idle? && w.refresh.origin == origin
    ensures !After(w, a).refresh.Idle? && After(w, a).refresh.origin == origin
    ensures Carries(w.refresh, candidate) ==> Carries(After(w, a).refresh, candidate)
  {
    hide ReturnedBorrow, JobFinished, ManagerClosed, SwapTried, BorrowStarted, HealthStarted;
    EndingSteps(w, a);
    OtherSteps(w, a);
  }

  lemma {:induction false} OneRefresh(worlds: seq<World>, actions: seq<Action>, i: nat, k: nat, origin: Catalog, candidate: Catalog)
    requires IsRun(worlds, actions) && i <= k < |worlds|
    requires !worlds[i].refresh.Idle? && worlds[i].refresh.origin == origin
    requires forall n :: i <= n < k ==> !actions[n].LeaveRefresh?
    ensures !worlds[k].refresh.Idle? && worlds[k].refresh.origin == origin
    ensures Carries(worlds[i].refresh, candidate) ==> Carries(worlds[k].refresh, candidate)
    decreases k
  {
    if i < k {
      OneRefresh(worlds, actions, i, k - 1, origin, candidate);
      assert Stepped(worlds[k - 1], actions[k - 1], worlds[k]);
      RefreshStep(worlds[k - 1], actions[k - 1], origin, candidate);
    }
  }

  /** The refresh was asked for this snapshot, and still is unless it fails. */
  predicate AskedFor(r: Refresh, expected: nat) {
    r.Failing? || (!r.Idle? && r.expected == expected)
  }

  lemma {:induction false} ExpectationStep(w: World, a: Action, expected: nat)
    requires Allowed(w, a) && (a.EndProbe? ==> w.refresh.borrow in w.borrows)
    requires !a.LeaveRefresh? && AskedFor(w.refresh, expected)
    ensures AskedFor(After(w, a).refresh, expected)
  {
    hide ReturnedBorrow, JobFinished, ManagerClosed, SwapTried, BorrowStarted, HealthStarted;
    EndingSteps(w, a);
    OtherSteps(w, a);
  }

  lemma {:induction false} OneExpectation(worlds: seq<World>, actions: seq<Action>, i: nat, k: nat, expected: nat)
    requires IsRun(worlds, actions) && i <= k < |worlds| && AskedFor(worlds[i].refresh, expected)
    requires forall n :: i <= n < k ==> !actions[n].LeaveRefresh?
    ensures AskedFor(worlds[k].refresh, expected)
    decreases k
  {
    hide After, Allowed;
    if i < k {
      OneExpectation(worlds, actions, i, k - 1, expected);
      assert Stepped(worlds[k - 1], actions[k - 1], worlds[k]);
      ExpectationStep(worlds[k - 1], actions[k - 1], expected);
    }
  }

  /**
   A refresh taken at step i and left at step k: if it succeeds, the current catalog has the
   snapshot that the refresh was asked for at step i; if it fails, the current catalog is the one it found. Either way admission
   reopens unless the manager is shutting down.
   */
  lemma {:induction false} RefreshEndsWell(worlds: seq<World>, actions: seq<Action>, i: nat, k: nat)
    requires IsRun(worlds, actions) && i < k < |actions|
    requires actions[i].TakeRefresh? && actions[k].LeaveRefresh?
    requires forall n :: i <= n < k ==> !actions[n].LeaveRefresh?
    ensures worlds[k].refresh.Failing? || worlds[k].refresh.Succeeding?
    ensures worlds[k].refresh.Failing? ==> worlds[k + 1].m.current == worlds[i].m.current
    ensures worlds[k].refresh.Succeeding? ==> HasSnapshot(worlds[k + 1], worlds[k + 1].m.current, actions[i].expected)
    ensures worlds[k + 1].m.paused == worlds[k + 1].m.closing
  {
    InvAlongRun(worlds, actions, k);
    assert Stepped(worlds[i], actions[i], worlds[i + 1]);
    assert Stepped(worlds[k], actions[k], worlds[k + 1]);
    OneRefresh(worlds, actions, i + 1, k, worlds[i].m.current, 0);
    OneExpectation(worlds, actions, i + 1, k, actions[i].expected);
    hide Counted, Bound, ClosedOnce;
  }

  /** A candidate built by a refresh that fails is closed exactly once and never becomes current. */
  lemma {:induction false} CandidateClosedExactlyOnce(worlds: seq<World>, actions: seq<Action>, i: nat, k: nat, candidate: Catalog, id: nat)
    requires IsRun(worlds, actions) && i < k < |actions|
    requires actions[i] == Build(Some(candidate), id) && actions[k].LeaveRefresh?
    requires forall n :: i <= n < k ==> !actions[n].LeaveRefresh?
    requires worlds[k].refresh.Failing?
    ensures worlds[k + 1].closes[candidate] == 1 && worlds[k + 1].toClose[candidate] == 0
    ensures worlds[k + 1].m.current != candidate
  {
    hide Inv, After, Allowed;
    InvAlongRun(worlds, actions, k);
    assert Stepped(worlds[i], actions[i], worlds[i + 1]);
    assert Stepped(worlds[k], actions[k], worlds[k + 1]);
    BuildCarries(worlds[i], candidate, id);
    OneRefresh(worlds, actions, i + 1, k, worlds[i].refresh.origin, candidate);
    LeftWithoutCandidate(worlds[k], candidate);
  }

  lemma {:induction false} BuildCarries(w: World, candidate: Catalog, id: nat)
    requires Allowed(w, Build(Some(candidate), id))
    ensures w.refresh.Loading?
    ensures var r := After(w, Build(Some(candidate), id)).refresh;
      Carries(r, candidate) && !r.Idle? && r.origin == w.refresh.origin
  {
  }

  lemma {:induction false} LeftWithoutCandidate(w: World, candidate: Catalog)
    requires Inv(w) && Allowed(w, LeaveRefresh) && w.refresh.Failing? && w.refresh.abandoned == Some(candidate)
    ensures var w' := After(w, LeaveRefresh);
      w'.closes[candidate] == 1 && w'.toClose[candidate] == 0 && w'.m.current != candidate
  {
    hide Counted, Bound, Unreachable;
    assert w.toClose[candidate] + w.closes[candidate] <= 1;
  }
}
