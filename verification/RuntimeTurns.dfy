/**
 The chat runtime between its store and its heartbeat: one task per admitted turn, store calls
 whose replies may be lost or whose effect may come late, user cancellation, recovery requests,
 and a heartbeat that stops every task and rotates the lease before the runtime works again.
 */
module RuntimeTurns {
  import opened Outcomes
  import opened TurnLog
  import opened TurnStore

  const ATTEMPTS := 3

  datatype Phase =
    | Looking
    | Preparing
    | Starting(attempt: nat, uncertain: bool)
    | Running
    | Finishing(attempt: nat)

  /** `stopping`: cancelled by the heartbeat. `closed`: cancelled after its terminal state was committed. */
  datatype Task = Task(request: Request, phase: Phase, stopping: bool, closed: bool)

  datatype Pending = Pending(expected: Option<Owner>, next: Owner, claim: bool, version: nat)

  datatype Beat = Sleeping | Stopping | Observing | Rotating | Renewing

  /** A store call whose caller no longer waits for it; it may still take effect. */
  datatype Message =
    | StartCall(tid: nat, request: Request, owner: Owner)
    | EmitCall(tid: nat, request: Request, emission: Emission, owner: Owner)
    | LeaseCall(pending: Pending)

  /**
   `mine` are the tokens of this process, `installed` those it has worked under, `left` the values
   that the owner column has left.
   */
  datatype World = World(
    db: Db,
    owner: Owner,
    healthy: bool,
    version: nat,
    recovered: nat,
    owned: bool,
    pending: Option<Pending>,
    beat: Beat,
    tasks: map<nat, Task>,
    late: set<Message>,
    mine: set<Owner>,
    installed: set<Owner>,
    used: set<Owner>,
    left: set<Option<Owner>>)

  datatype Answer = Answered | NoAnswer

  datatype Action =
    | AddConversation(conversation: nat, recipient: int)
    | ForeignRotate(expected: Option<Owner>, next: Owner, claim: bool, now: int)
    | ForeignRelease(owner: Owner, tombstone: Owner, now: int)
    | ForeignStart(tid: nat, request: Request, owner: Owner, now: int, limits: Limits)
    | ForeignEmit(tid: nat, request: Request, emission: Emission, owner: Owner, now: int)
    | Deliver(message: Message, now: int, limits: Limits)
    | Lose(message: Message)
    | AcceptRead(tid: nat, request: Request)
    | Accept(tid: nat, request: Request)
    | Look(tid: nat, answer: Answer)
    | Prepare(tid: nat, ok: bool)
    | CallStart(tid: nat, answer: Answer, now: int, limits: Limits)
    | Emit(tid: nat, emission: Emission, answer: Answer, now: int)
    | Generated(tid: nat)
    | Finish(tid: nat, status: Status, error: string, answer: Answer, now: int)
    | UserCancel(tid: nat, request: Request, answer: Answer, now: int)
    | CancelHits(tid: nat)
    | BeatStarts(reconnects: bool)
    | TasksStopped(next: Owner)
    | Observe(next: Owner, now: int, answer: Answer)
    | Rotate(answer: Answer, now: int)
    | Renew(answer: Answer, now: int)

  function Initial(db: Db, owner: Owner): World {
    World(db, owner, false, 0, 0, false, None, Sleeping, map[], {}, {owner}, {owner},
          {owner} + (if db.lease.Some? then {db.lease.value.owner} else {}) + (set tid | tid in db.rows :: db.rows[tid].admittedBy), {})
  }

  predicate Fresh(w: World, token: Owner) {
    token.Runtime? && token !in w.used
  }

  /** A timed-out start is decided before a later start of the same turn under the same token is answered. */
  predicate StartsDecided(w: World, tid: nat) {
    forall m :: m in w.late && m.StartCall? ==> !(m.tid == tid && m.owner == w.owner)
  }

  predicate Allowed(w: World, a: Action) {
    match a
    case AddConversation(c, _) => c !in w.db.conversations
    case ForeignRotate(_, next, _, _) => Fresh(w, next)
    case ForeignRelease(owner, tombstone, _) => owner !in w.mine && tombstone !in w.used
    case ForeignStart(_, _, owner, _, _) => owner !in w.mine
    case ForeignEmit(_, _, _, owner, _) => owner !in w.mine
    case Deliver(m, _, _) => m in w.late
    case Lose(m) => m in w.late
    case AcceptRead(_, _) => true
    case Accept(tid, _) => tid !in w.tasks
    case Look(tid, _) => tid in w.tasks && w.tasks[tid].phase.Looking?
    case Prepare(tid, _) => tid in w.tasks && w.tasks[tid].phase.Preparing?
    case CallStart(tid, answer, _, _) =>
      tid in w.tasks && w.tasks[tid].phase.Starting? && (answer.Answered? ==> StartsDecided(w, tid))
    case Emit(tid, _, _, _) => tid in w.tasks && w.tasks[tid].phase.Running?
    case Generated(tid) => tid in w.tasks && w.tasks[tid].phase.Running?
    case Finish(tid, status, _, _, _) => tid in w.tasks && w.tasks[tid].phase.Finishing? && !status.Processing?
    case UserCancel(_, _, _, _) => true
    case CancelHits(tid) => tid in w.tasks && (w.tasks[tid].stopping || w.tasks[tid].closed)
    case BeatStarts(_) => w.beat.Sleeping?
    case TasksStopped(next) => w.beat.Stopping? && (forall tid :: tid in w.tasks ==> !w.tasks[tid].stopping) && Fresh(w, next)
    case Observe(next, _, _) => w.beat.Observing? && Fresh(w, next)
    case Rotate(_, _) => w.beat.Rotating? && w.pending.Some?
    case Renew(_, _) => w.beat.Renewing?
  }

  // ----- Effects -----------------------------------------------------------------------------

  function Recovering(w: World): World {
    w.(version := w.version + 1, healthy := false)
  }

  function Ended(w: World, tid: nat): World {
    w.(tasks := w.tasks - {tid})
  }

  function InPhase(w: World, tid: nat, phase: Phase): World
    requires tid in w.tasks
  {
    w.(tasks := w.tasks[tid := w.tasks[tid].(phase := phase)])
  }

  /** The column leaves its old value when it takes a new one. */
  function WithDb(w: World, d: Db): World {
    w.(db := d, left := if Column(d.lease) != Column(w.db.lease) then w.left + {Column(w.db.lease)} else w.left)
  }

  function EmittedFor(db: Db, tid: nat, request: Request, emission: Emission, owner: Owner, now: int): (Db, Result<bool, StoreError>) {
    Emitted(db, request.conversation, tid, emission, owner, now)
  }

  function Delivered(w: World, m: Message, now: int, limits: Limits): World {
    var n := w.(late := w.late - {m});
    match m
    case StartCall(tid, request, owner) => WithDb(n, Started(w.db, tid, request, owner, now, limits).0)
    case EmitCall(tid, request, emission, owner) => WithDb(n, EmittedFor(w.db, tid, request, emission, owner, now).0)
    case LeaseCall(p) => WithDb(n, Rotated(w.db, p.expected, p.next, p.claim, now).0)
  }

  predicate ProcessingRead(db: Db, tid: nat, request: Request) {
    var found := ExistingTurn(db, tid, request);
    found.Ok? && found.value.Some? && found.value.value.status.Processing?
  }

  function Looked(w: World, tid: nat, answer: Answer): World
    requires tid in w.tasks
  {
    var found := ExistingTurn(w.db, tid, w.tasks[tid].request);
    if answer.NoAnswer? || found.Err? then Ended(w, tid)
    else if found.value.Some? then
      if found.value.value.status.Processing? then Recovering(Ended(w, tid)) else Ended(w, tid)
    else if !w.healthy then Ended(w, tid)
    else InPhase(w, tid, Preparing)
  }

  /** Another attempt, or the end of the task with a recovery request. */
  function StartAgain(w: World, tid: nat): World
    requires tid in w.tasks && w.tasks[tid].phase.Starting?
  {
    var attempt := w.tasks[tid].phase.attempt;
    if attempt + 1 < ATTEMPTS then InPhase(w, tid, Starting(attempt + 1, true)) else Recovering(Ended(w, tid))
  }

  function StartCalled(w: World, tid: nat, answer: Answer, now: int, limits: Limits): World
    requires tid in w.tasks && w.tasks[tid].phase.Starting?
  {
    var task := w.tasks[tid];
    if answer.NoAnswer? then StartAgain(w.(late := w.late + {StartCall(tid, task.request, w.owner)}), tid)
    else
      var (d, r) := Started(w.db, tid, task.request, w.owner, now, limits);
      var n := WithDb(w, d);
      match r
      case Err(error) => if error.NotReady? || error.AdmissionPaused? then StartAgain(n, tid) else Ended(n, tid)
      case Ok((turn, made)) =>
        if !turn.status.Processing? then Ended(n, tid)
        else if !made && !task.phase.uncertain then Recovering(Ended(n, tid))
        else InPhase(n, tid, Running)
  }

  /** An emission that finds the turn closed ends the task; any failure leads to the terminal write. */
  function EmitCalled(w: World, tid: nat, emission: Emission, answer: Answer, now: int): World
    requires tid in w.tasks
  {
    var task := w.tasks[tid];
    if answer.NoAnswer? then
      InPhase(w.(late := w.late + {EmitCall(tid, task.request, emission, w.owner)}), tid, Finishing(0))
    else
      var (d, r) := EmittedFor(w.db, tid, task.request, emission, w.owner, now);
      var n := WithDb(w, d);
      match r
      case Err(_) => InPhase(n, tid, Finishing(0))
      case Ok(true) => n
      case Ok(false) => Ended(n, tid)
  }

  function FinishAgain(w: World, tid: nat): World
    requires tid in w.tasks && w.tasks[tid].phase.Finishing?
  {
    var attempt := w.tasks[tid].phase.attempt;
    if attempt + 1 < ATTEMPTS then InPhase(w, tid, Finishing(attempt + 1)) else Recovering(Ended(w, tid))
  }

  function FinishCalled(w: World, tid: nat, status: Status, error: string, answer: Answer, now: int): World
    requires tid in w.tasks && w.tasks[tid].phase.Finishing?
  {
    var task := w.tasks[tid];
    var emission := EmitFinish(status, Some(error));
    if answer.NoAnswer? then FinishAgain(w.(late := w.late + {EmitCall(tid, task.request, emission, w.owner)}), tid)
    else
      var (d, r) := EmittedFor(w.db, tid, task.request, emission, w.owner, now);
      if r.Err? then FinishAgain(WithDb(w, d), tid) else Ended(WithDb(w, d), tid)
  }

  /** The task is cancelled only after the cancellation, or an earlier end, is committed. */
  function UserCancelled(w: World, tid: nat, request: Request, answer: Answer, now: int): World {
    var emission := EmitFinish(Cancelled, None);
    if answer.NoAnswer? then w.(late := w.late + {EmitCall(tid, request, emission, w.owner)})
    else
      var (d, r) := EmittedFor(w.db, tid, request, emission, w.owner, now);
      var n := WithDb(w, d);
      if r.Ok? && tid in n.tasks then n.(tasks := n.tasks[tid := n.tasks[tid].(closed := true)]) else n
  }

  predicate Accepted(phase: Phase) {
    phase.Running? || phase.Finishing?
  }

  /** A cancelled start may still be under way. */
  function CancelHit(w: World, tid: nat): World
    requires tid in w.tasks
  {
    var task := w.tasks[tid];
    var n := if task.phase.Starting? then w.(late := w.late + {StartCall(tid, task.request, w.owner)}) else w;
    if Accepted(task.phase) || task.closed then Ended(n, tid) else Recovering(Ended(n, tid))
  }

  function BeatStarted(w: World, reconnects: bool): World {
    if reconnects || !w.healthy || w.version != w.recovered then
      w.(healthy := false, beat := Stopping, tasks := map tid | tid in w.tasks :: w.tasks[tid].(stopping := true))
    else w.(beat := Renewing)
  }

  function Proposing(w: World, expected: Option<Owner>, next: Owner, claim: bool): World {
    w.(pending := Some(Pending(expected, next, claim, w.version)), beat := Rotating, mine := w.mine + {next}, used := w.used + {next})
  }

  function AllStopped(w: World, next: Owner): World {
    if w.pending.Some? then w.(beat := Rotating)
    else if w.owned then Proposing(w, Some(w.owner), next, false)
    else w.(beat := Observing)
  }

  function Observed(w: World, next: Owner, now: int, answer: Answer): World {
    if answer.NoAnswer? || Active(w.db.lease, now) then w.(beat := Sleeping)
    else Proposing(w, Column(w.db.lease), next, true)
  }

  function RotateCalled(w: World, answer: Answer, now: int): World
    requires w.pending.Some?
  {
    var p := w.pending.value;
    if answer.NoAnswer? then w.(late := w.late + {LeaseCall(p)}, healthy := false, beat := Sleeping)
    else
      var (d, ok) := Rotated(w.db, p.expected, p.next, p.claim, now);
      var n := WithDb(w, d).(pending := None, beat := Sleeping);
      if ok then
        n.(owner := p.next, installed := n.installed + {p.next}, recovered := p.version, owned := true, healthy := w.version == p.version)
      else n.(owned := false, healthy := false)
  }

  function RenewCalled(w: World, answer: Answer, now: int): World {
    if answer.NoAnswer? then w.(healthy := false, beat := Sleeping)
    else
      var (d, ok) := Rotated(w.db, Some(w.owner), w.owner, false, now);
      WithDb(w, d).(owned := w.owned && ok, healthy := ok && w.version == w.recovered, beat := Sleeping)
  }

  function After(w: World, a: Action): World
    requires Allowed(w, a)
  {
    match a
    case AddConversation(c, recipient) => w.(db := w.db.(conversations := w.db.conversations[c := recipient]))
    case ForeignRotate(expected, next, claim, now) =>
      WithDb(w.(used := w.used + {next}), Rotated(w.db, expected, next, claim, now).0)
    case ForeignRelease(owner, tombstone, now) =>
      WithDb(w.(used := w.used + {tombstone}), Released(w.db, owner, tombstone, now))
    case ForeignStart(tid, request, owner, now, limits) => WithDb(w, Started(w.db, tid, request, owner, now, limits).0)
    case ForeignEmit(tid, request, emission, owner, now) => WithDb(w, EmittedFor(w.db, tid, request, emission, owner, now).0)
    case Deliver(m, now, limits) => Delivered(w, m, now, limits)
    case Lose(m) => w.(late := w.late - {m})
    case AcceptRead(tid, request) => if tid !in w.tasks && ProcessingRead(w.db, tid, request) then Recovering(w) else w
    case Accept(tid, request) => w.(tasks := w.tasks[tid := Task(request, Looking, false, false)])
    case Look(tid, answer) => Looked(w, tid, answer)
    case Prepare(tid, ok) => if ok then InPhase(w, tid, Starting(0, false)) else Ended(w, tid)
    case CallStart(tid, answer, now, limits) => StartCalled(w, tid, answer, now, limits)
    case Emit(tid, emission, answer, now) => EmitCalled(w, tid, emission, answer, now)
    case Generated(tid) => InPhase(w, tid, Finishing(0))
    case Finish(tid, status, error, answer, now) => FinishCalled(w, tid, status, error, answer, now)
    case UserCancel(tid, request, answer, now) => UserCancelled(w, tid, request, answer, now)
    case CancelHits(tid) => CancelHit(w, tid)
    case BeatStarts(reconnects) => BeatStarted(w, reconnects)
    case TasksStopped(next) => AllStopped(w, next)
    case Observe(next, now, answer) => Observed(w, next, now, answer)
    case Rotate(answer, now) => RotateCalled(w, answer, now)
    case Renew(answer, now) => RenewCalled(w, answer, now)
  }

  ghost predicate IsRun(worlds: seq<World>, actions: seq<Action>) {
    && |worlds| == |actions| + 1
    && worlds[0] == Initial(worlds[0].db, worlds[0].owner)
    && Sane(worlds[0].db) && Column(worlds[0].db.lease) != Some(worlds[0].owner) && worlds[0].owner.Runtime?
    && (forall tid :: tid in worlds[0].db.rows ==> worlds[0].db.rows[tid].admittedBy != worlds[0].owner)
    && forall k :: 0 <= k < |actions| ==> Allowed(worlds[k], actions[k]) && worlds[k + 1] == After(worlds[k], actions[k])
  }

  // ----- The invariant -----------------------------------------------------------------------

  predicate Admissible(db: Db, request: Request) {
    && request.conversation in db.conversations
    && (request.recipient.Some? ==> request.recipient.value.userId == db.conversations[request.conversation])
  }

  /** Every stored turn was admitted with a valid request. */
  predicate Sane(db: Db) {
    forall tid :: tid in db.rows ==> Admissible(db, db.rows[tid].request)
  }

  predicate AllClosed(db: Db) {
    forall tid :: tid in db.rows ==> !Unfinished(db.rows[tid])
  }

  /** The lease proposals that may still reach the store. */
  predicate Proposed(w: World, p: Pending) {
    w.pending == Some(p) || LeaseCall(p) in w.late
  }

  ghost predicate Tokens(w: World) {
    && w.owner in w.installed && w.installed <= w.mine <= w.used
    && (Column(w.db.lease).Some? ==> Column(w.db.lease).value in w.used)
    && Column(w.db.lease) !in w.left
    && (forall o: Owner :: Some(o) in w.left ==> o in w.used)
    && (forall m :: m in w.late && m.StartCall? ==> m.owner in w.installed)
    && (w.pending.Some? ==> w.pending.value.next !in w.installed)
  }

  /** A proposal's token is its own, and once the column has held it, it has left what it expected. */
  ghost predicate Proposals(w: World) {
    && (forall p :: Proposed(w, p) ==> p.next in w.mine && p.expected != Some(p.next))
    && (forall p :: Proposed(w, p) && (Some(p.next) in w.left || Column(w.db.lease) == Some(p.next)) ==> p.expected in w.left)
    && (forall p, q :: Proposed(w, p) && Proposed(w, q) && p.next == q.next ==> p == q)
  }

  /** A token the process has worked under, other than its present one, is never in the column again. */
  ghost predicate Settled(w: World) {
    && (forall o :: o in w.installed && o != w.owner ==> Dead(w, o))
    && (Column(w.db.lease) == Some(w.owner) || Dead(w, w.owner))
  }

  ghost predicate Dead(w: World, o: Owner) {
    Column(w.db.lease) != Some(o) && (Some(o) in w.left || forall p :: Proposed(w, p) ==> p.next != o)
  }

  /** Open turns of this process are its present owner's, under its lease. */
  predicate OpenAreOwners(w: World) {
    forall tid :: tid in w.db.rows && Unfinished(w.db.rows[tid]) && w.db.rows[tid].admittedBy in w.mine ==>
      w.db.rows[tid].admittedBy == w.owner && Column(w.db.lease) == Some(w.owner)
  }

  /** A token of this process that it does not work under yet was just rotated in, after a sweep. */
  predicate NewTokenSwept(w: World) {
    Column(w.db.lease).Some? && Column(w.db.lease).value in w.mine && Column(w.db.lease).value != w.owner ==> AllClosed(w.db)
  }

  predicate Calm(w: World) {
    && (w.healthy ==> w.version == w.recovered && w.pending.None? && (w.beat.Sleeping? || w.beat.Renewing?))
    && (w.beat.Renewing? && w.version == w.recovered ==> w.healthy)
    && (w.healthy || w.beat.Observing? || w.beat.Rotating? ==> forall tid :: tid in w.tasks ==> !w.tasks[tid].stopping)
    && (w.beat.Rotating? ==> w.pending.Some?) && (w.beat.Observing? ==> w.pending.None?)
    && w.recovered <= w.version && (w.pending.Some? ==> w.pending.value.version <= w.version)
  }

  predicate ClosedAreClosed(w: World) {
    forall tid :: tid in w.tasks && w.tasks[tid].closed ==> tid in w.db.rows && !Unfinished(w.db.rows[tid])
  }

  /** The task that answers for an open turn. */
  predicate Answers(task: Task, row: Row) {
    Accepted(task.phase) || (task.phase.Starting? && task.phase.uncertain && task.request == row.request)
  }

  /** A healthy runtime has a task for every open turn of its own, and for every start that may still create one. */
  predicate NoOrphans(w: World) {
    w.healthy ==>
      forall tid :: tid in w.db.rows && Unfinished(w.db.rows[tid]) && w.db.rows[tid].admittedBy in w.mine ==>
        tid in w.tasks && Answers(w.tasks[tid], w.db.rows[tid])
  }

  predicate NoLateOrphans(w: World) {
    w.healthy ==>
      forall m :: m in w.late && m.StartCall? && m.owner == w.owner ==>
        m.tid in w.db.rows
        || (m.tid in w.tasks && w.tasks[m.tid].phase.Starting? && w.tasks[m.tid].phase.uncertain && w.tasks[m.tid].request == m.request)
  }

  ghost predicate TokenInv(w: World) {
    Tokens(w) && Proposals(w) && Settled(w)
  }

  predicate AdmittersKnown(w: World) {
    forall tid :: tid in w.db.rows ==> w.db.rows[tid].admittedBy in w.used
  }

  ghost predicate RowInv(w: World) {
    Sane(w.db) && AdmittersKnown(w) && OpenAreOwners(w) && NewTokenSwept(w)
  }

  predicate TaskInv(w: World) {
    Calm(w) && ClosedAreClosed(w) && NoOrphans(w) && NoLateOrphans(w)
  }

  ghost predicate Inv(w: World) {
    TokenInv(w) && RowInv(w) && TaskInv(w)
  }
}
