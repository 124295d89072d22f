/**
 Runs of the store under an unreliable network: a request that was sent may be executed at any
 later time, any number of times, or never. Runtimes draw a fresh token for every rotation.
 */
module LeaseRuns {
  import opened Outcomes
  import opened TurnLog
  import opened TurnStore

  datatype Message =
    | Rotate(expected: Option<Owner>, next: Owner, claim: bool)
    | Release(owner: Owner)
    | StartTurn(tid: nat, request: Request, owner: Owner)
    | EmitEvent(conversation: nat, tid: nat, emission: Emission, owner: Owner)

  /** `chain` lists every value the owner column has held, `used` every token ever drawn. */
  datatype World = World(db: Db, sent: set<Message>, used: set<Owner>, chain: seq<Option<Owner>>)

  datatype Action =
    | Send(message: Message)
    | Execute(message: Message, now: int, tombstone: Owner)
    | OpenConversation(conversation: nat, recipient: int)
    | PauseAdmissions(paused: bool)

  predicate Renewal(m: Message) {
    m.Rotate? && m.expected == Some(m.next)
  }

  predicate Sendable(w: World, m: Message) {
    match m
    case Rotate(expected, next, _) => next.Runtime? && (Renewal(m) || next !in w.used)
    case Release(owner) => owner.Runtime?
    case StartTurn(_, _, owner) => owner.Runtime?
    case EmitEvent(_, _, _, owner) => owner.Runtime?
  }

  predicate Allowed(w: World, a: Action) {
    match a
    case Send(m) => Sendable(w, m)
    case Execute(m, _, tombstone) => m in w.sent && (m.Release? ==> tombstone.Tombstone? && tombstone !in w.used)
    case OpenConversation(_, _) => true
    case PauseAdmissions(_) => true
  }

  function Executed(db: Db, m: Message, now: int, tombstone: Owner, limits: Limits): Db {
    match m
    case Rotate(expected, next, claim) => Rotated(db, expected, next, claim, now).0
    case Release(owner) => Released(db, owner, tombstone, now)
    case StartTurn(tid, request, owner) => Started(db, tid, request, owner, now, limits).0
    case EmitEvent(conversation, tid, emission, owner) => Emitted(db, conversation, tid, emission, owner, now).0
  }

  function After(w: World, a: Action, limits: Limits): World {
    match a
    case Send(m) => w.(sent := w.sent + {m}, used := if m.Rotate? then w.used + {m.next} else w.used)
    case Execute(m, now, tombstone) =>
      var db := Executed(w.db, m, now, tombstone, limits);
      w.(db := db,
         used := if m.Release? then w.used + {tombstone} else w.used,
         chain := if Column(db.lease) == Column(w.db.lease) then w.chain else w.chain + [Column(db.lease)])
    case OpenConversation(conversation, recipient) =>
      if conversation in w.db.conversations then w
      else w.(db := w.db.(conversations := w.db.conversations[conversation := recipient]))
    case PauseAdmissions(paused) => w.(db := w.db.(paused := paused))
  }

  const INITIAL := World(Db(None, map[], map[], false), {}, {}, [None])

  ghost predicate IsRun(worlds: seq<World>, actions: seq<Action>, limits: Limits) {
    && |worlds| == |actions| + 1
    && worlds[0] == INITIAL
    && forall k :: 0 <= k < |actions| ==>
      Allowed(worlds[k], actions[k]) && worlds[k + 1] == After(worlds[k], actions[k], limits)
  }

  // ----- The owner column --------------------------------------------------------------------

  predicate Distinct(chain: seq<Option<Owner>>) {
    forall i, j :: 0 <= i < j < |chain| ==> chain[i] != chain[j]
  }

  predicate FollowsIn(chain: seq<Option<Owner>>, before: Option<Owner>, next: Owner) {
    forall j :: 0 <= j < |chain| && chain[j] == Some(next) ==> j > 0 && chain[j - 1] == before
  }

  /** Two different rotations never carry the same token. */
  predicate TokensUnshared(sent: set<Message>) {
    forall m, n :: m in sent && n in sent && m.Rotate? && n.Rotate? && !Renewal(m) && !Renewal(n) && m.next == n.next
      ==> m == n
  }

  /** Only runtimes send requests, under their own tokens. */
  predicate SentByRuntimes(sent: set<Message>) {
    forall m :: m in sent ==> if m.Rotate? then m.next.Runtime? else m.owner.Runtime?
  }

  predicate ChainInv(w: World) {
    && |w.chain| > 0
    && w.chain[0] == None
    && w.chain[|w.chain| - 1] == Column(w.db.lease)
    && Distinct(w.chain)
    && (forall i :: 0 <= i < |w.chain| && w.chain[i].Some? ==> w.chain[i].value in w.used)
    && (forall m :: m in w.sent && m.Rotate? && !Renewal(m) ==> m.next in w.used && FollowsIn(w.chain, m.expected, m.next))
    && TokensUnshared(w.sent)
    && SentByRuntimes(w.sent)
  }

  /** The column moves only to a value it has never held. */
  lemma {:induction false} MovesToFreshValue(w: World, a: Action, limits: Limits)
    requires ChainInv(w) && Allowed(w, a) && a.Execute?
    requires Column(After(w, a, limits).db.lease) != Column(w.db.lease)
    ensures Column(After(w, a, limits).db.lease) !in w.chain
    ensures !a.message.StartTurn? && !a.message.EmitEvent?
    ensures a.message.Rotate? ==> !Renewal(a.message) && Column(w.db.lease) == a.message.expected
    ensures a.message.Rotate? ==> Column(After(w, a, limits).db.lease) == Some(a.message.next)
    ensures !a.message.Rotate? ==> Column(After(w, a, limits).db.lease) == Some(a.tombstone)
  {
    var m := a.message;
    var owner := Column(After(w, a, limits).db.lease);
    forall j | 0 <= j < |w.chain| ensures w.chain[j] != owner {
      assert w.chain[j].Some? ==> w.chain[j].value in w.used;
      // A token already in the chain could only be taken again from a value the column has left.
      assert m.Rotate? ==> FollowsIn(w.chain, m.expected, m.next);
      assert j > 0 ==> w.chain[j - 1] != w.chain[|w.chain| - 1];
    }
  }

  lemma {:induction false} ChainStep(w: World, a: Action, limits: Limits)
    requires ChainInv(w) && Allowed(w, a)
    ensures ChainInv(After(w, a, limits))
    ensures w.chain <= After(w, a, limits).chain
  {
    hide Executed;
    var w' := After(w, a, limits);
    if a.Send? && a.message.Rotate? && !Renewal(a.message) {
      forall j | 0 <= j < |w.chain| ensures w.chain[j] != Some(a.message.next) {
        assert w.chain[j].Some? ==> w.chain[j].value in w.used;
      }
    }
    if a.Execute? && Column(w'.db.lease) != Column(w.db.lease) {
      MovesToFreshValue(w, a, limits);
      var owner := Column(w'.db.lease);
      forall m | m in w'.sent && m.Rotate? && !Renewal(m) ensures FollowsIn(w'.chain, m.expected, m.next) {
        assert FollowsIn(w.chain, m.expected, m.next);
        assert owner == Some(m.next) ==> m == a.message;
      }
    }
  }

  lemma {:induction false} ChainAlongRun(worlds: seq<World>, actions: seq<Action>, limits: Limits, k: nat)
    requires IsRun(worlds, actions, limits) && k < |worlds|
    ensures ChainInv(worlds[k])
    ensures forall i :: 0 <= i <= k ==> worlds[i].chain <= worlds[k].chain
  {
    if k > 0 {
      ChainAlongRun(worlds, actions, limits, k - 1);
      ChainStep(worlds[k - 1], actions[k - 1], limits);
    }
  }

  /** Once the owner column has left a value, it never holds it again. */
  lemma {:induction false} OwnerNeverReturns(worlds: seq<World>, actions: seq<Action>, limits: Limits, i: nat, j: nat, k: nat)
    requires IsRun(worlds, actions, limits) && i <= j <= k < |worlds|
    requires Column(worlds[i].db.lease) != Column(worlds[j].db.lease)
    ensures Column(worlds[i].db.lease) != Column(worlds[k].db.lease)
  {
    ChainAlongRun(worlds, actions, limits, k);
    ChainAlongRun(worlds, actions, limits, i);
    ChainAlongRun(worlds, actions, limits, j);
    assert worlds[i].chain <= worlds[j].chain <= worlds[k].chain;
    var x, y, z := |worlds[i].chain| - 1, |worlds[j].chain| - 1, |worlds[k].chain| - 1;
    assert worlds[k].chain[x] == worlds[i].chain[x] && worlds[k].chain[y] == worlds[j].chain[y];
    assert x < y <= z;
  }

  /** However often a rotation is executed, it moves the owner column at most once. */
  lemma {:induction false} RotationTakesEffectOnce(worlds: seq<World>, actions: seq<Action>, limits: Limits, i: nat, j: nat)
    requires IsRun(worlds, actions, limits) && i < j < |actions|
    requires actions[i].Execute? && actions[j].Execute? && actions[i].message == actions[j].message
    requires actions[i].message.Rotate?
    requires Column(worlds[i + 1].db.lease) != Column(worlds[i].db.lease)
    ensures Column(worlds[j + 1].db.lease) == Column(worlds[j].db.lease)
  {
    ChainAlongRun(worlds, actions, limits, i);
    ChainAlongRun(worlds, actions, limits, j);
    ChainAlongRun(worlds, actions, limits, i + 1);
    MovesToFreshValue(worlds[i], actions[i], limits);
    var moved := worlds[i + 1].chain;
    assert moved[|moved| - 1] == Some(actions[i].message.next);
    assert moved <= worlds[j].chain;
    assert Some(actions[i].message.next) in worlds[j].chain;
    if Column(worlds[j + 1].db.lease) != Column(worlds[j].db.lease) {
      MovesToFreshValue(worlds[j], actions[j], limits);
    }
  }

  /** A claim takes the column over only from an expired lease; nobody else's live lease is lost to it. */
  lemma {:induction false} ClaimWaitsForExpiry(worlds: seq<World>, actions: seq<Action>, limits: Limits, i: nat)
    requires IsRun(worlds, actions, limits) && i < |actions|
    requires actions[i].Execute? && actions[i].message.Rotate? && actions[i].message.claim
    requires Active(worlds[i].db.lease, actions[i].now)
    ensures Column(worlds[i + 1].db.lease) == Column(worlds[i].db.lease)
    ensures worlds[i + 1].db.rows == worlds[i].db.rows
  {
    assert worlds[i + 1] == After(worlds[i], actions[i], limits);
  }

  // ----- Who wrote what ----------------------------------------------------------------------

  /** `owner` is the last runtime to have held the column; only its tombstones may follow. */
  ghost predicate LatestRuntime(chain: seq<Option<Owner>>, owner: Owner) {
    && owner.Runtime?
    && exists i :: 0 <= i < |chain| && chain[i] == Some(owner)
                && forall k :: i < k < |chain| ==> chain[k].Some? && chain[k].value.Tombstone?
  }

  /** `next` is the runtime that took the column over from `owner`. */
  ghost predicate TookOver(chain: seq<Option<Owner>>, owner: Owner, next: Owner) {
    && next.Runtime?
    && exists n :: 0 <= n < |chain| && chain[n] == Some(next) && LatestRuntime(chain[..n], owner)
  }

  lemma {:induction false} TookOverPersists(chain: seq<Option<Owner>>, longer: seq<Option<Owner>>, owner: Owner, next: Owner)
    requires TookOver(chain, owner, next) && chain <= longer
    ensures TookOver(longer, owner, next)
  {
    var n :| 0 <= n < |chain| && chain[n] == Some(next) && LatestRuntime(chain[..n], owner);
    assert longer[..n] == chain[..n];
  }

  /** Every event was written by the admitting owner, but for a sweep's closing event. */
  ghost predicate Attributed(chain: seq<Option<Owner>>, row: Row) {
    && |row.writers| == |row.events|
    && forall i :: 0 <= i < |row.writers| ==>
      || row.writers[i] == row.admittedBy
      || (i == |row.writers| - 1 && row.events[i].payload.Finished? && TookOver(chain, row.admittedBy, row.writers[i]))
  }

  predicate OneUnfinishedEach(rows: map<nat, Row>) {
    forall s, t :: s in rows && t in rows && s != t && Unfinished(rows[s]) && Unfinished(rows[t])
      ==> rows[s].request.conversation != rows[t].request.conversation
  }

  ghost predicate RowInv(chain: seq<Option<Owner>>, tid: nat, row: Row) {
    && SoundRow(tid, row)
    && Attributed(chain, row)
    && (Unfinished(row) ==> LatestRuntime(chain, row.admittedBy))
  }

  ghost predicate RowsInv(chain: seq<Option<Owner>>, rows: map<nat, Row>, limits: Limits) {
    && (forall tid :: tid in rows ==> RowInv(chain, tid, rows[tid]))
    && OneUnfinishedEach(rows)
    && |ActiveTurns(rows)| <= limits.active
  }

  lemma {:induction false} AttributionPersists(chain: seq<Option<Owner>>, longer: seq<Option<Owner>>, row: Row)
    requires Attributed(chain, row) && chain <= longer
    ensures Attributed(longer, row)
  {
    forall i | 0 <= i < |row.writers| && row.writers[i] != row.admittedBy
      ensures TookOver(longer, row.admittedBy, row.writers[i])
    {
      TookOverPersists(chain, longer, row.admittedBy, row.writers[i]);
    }
  }

  /** The owner that passes the guard is the latest runtime, so it admitted every unfinished turn. */
  lemma {:induction false} GuardedIsLatest(w: World, owner: Owner, other: Owner)
    requires ChainInv(w) && Column(w.db.lease) == Some(owner) && owner.Runtime?
    ensures LatestRuntime(w.chain, owner)
    ensures LatestRuntime(w.chain, other) ==> other == owner
  {
    assert w.chain[|w.chain| - 1] == Some(owner);
  }

  lemma {:induction false} SweepKeepsRows(chain: seq<Option<Owner>>, rows: map<nat, Row>, next: Owner, limits: Limits)
    requires RowsInv(chain, rows, limits) && next.Runtime?
    ensures RowsInv(chain + [Some(next)], SweptAll(rows, next), limits)
  {
    var longer, swept := chain + [Some(next)], SweptAll(rows, next);
    assert longer[..|chain|] == chain && longer[|chain|] == Some(next);
    forall tid | tid in swept ensures RowInv(longer, tid, swept[tid]) && !Unfinished(swept[tid]) {
      assert RowInv(chain, tid, rows[tid]);
      SweepKeepsRow(tid, rows[tid], next);
      AttributionPersists(chain, longer, rows[tid]);
    }
    assert ActiveTurns(swept) == {};
  }

  lemma {:induction false} RotateKeepsRows(w: World, a: Action, limits: Limits)
    requires ChainInv(w) && RowsInv(w.chain, w.db.rows, limits) && Allowed(w, a) && a.Execute? && a.message.Rotate?
    ensures RowsInv(After(w, a, limits).chain, After(w, a, limits).db.rows, limits)
  {
    if Column(After(w, a, limits).db.lease) != Column(w.db.lease) {
      MovesToFreshValue(w, a, limits);
      SweepKeepsRows(w.chain, w.db.rows, a.message.next, limits);
    }
  }

  lemma {:induction false} ReleaseKeepsRows(w: World, a: Action, limits: Limits)
    requires ChainInv(w) && RowsInv(w.chain, w.db.rows, limits) && Allowed(w, a) && a.Execute? && a.message.Release?
    ensures RowsInv(After(w, a, limits).chain, After(w, a, limits).db.rows, limits)
  {
    hide SoundRow;
    var w' := After(w, a, limits);
    forall tid | tid in w.db.rows ensures RowInv(w'.chain, tid, w.db.rows[tid]) {
      assert RowInv(w.chain, tid, w.db.rows[tid]);
      AttributionPersists(w.chain, w'.chain, w.db.rows[tid]);
      if Unfinished(w.db.rows[tid]) {
        var owner := w.db.rows[tid].admittedBy;
        var i :| 0 <= i < |w.chain| && w.chain[i] == Some(owner)
          && forall k :: i < k < |w.chain| ==> w.chain[k].Some? && w.chain[k].value.Tombstone?;
        assert w'.chain[i] == Some(owner);
      }
    }
  }

  lemma {:induction false} StartShape(db: Db, tid: nat, request: Request, owner: Owner, now: int, limits: Limits)
    ensures var rows := Started(db, tid, request, owner, now, limits).0.rows;
      || rows == db.rows
      || (&& Column(db.lease) == Some(owner) && tid !in db.rows && !Busy(db.rows, request.conversation)
          && !db.paused && request.conversation in db.conversations
          && |ActiveTurns(db.rows)| < limits.active && rows == db.rows[tid := NewRow(tid, request, owner, now)])
    ensures Started(db, tid, request, owner, now, limits).0.lease == db.lease
  {
  }

  lemma {:induction false} StartKeepsRows(w: World, a: Action, limits: Limits)
    requires ChainInv(w) && RowsInv(w.chain, w.db.rows, limits) && Allowed(w, a) && a.Execute? && a.message.StartTurn?
    ensures RowsInv(After(w, a, limits).chain, After(w, a, limits).db.rows, limits)
  {
    hide Started, NewRow, SoundRow, Attributed, Busy, ActiveTurns, OneUnfinishedEach, RowInv;
    var rows := After(w, a, limits).db.rows;
    var m := a.message;
    StartShape(w.db, m.tid, m.request, m.owner, a.now, limits);
    if rows != w.db.rows {
      GuardedIsLatest(w, m.owner, m.owner);
      NewRowFits(w.chain, m.tid, m.request, m.owner, a.now);
      AddedRow(w.chain, w.db.rows, m.tid, NewRow(m.tid, m.request, m.owner, a.now), limits);
    }
  }

  lemma {:induction false} NewRowFits(chain: seq<Option<Owner>>, tid: nat, request: Request, owner: Owner, now: int)
    requires LatestRuntime(chain, owner)
    ensures var row := NewRow(tid, request, owner, now); RowInv(chain, tid, row) && Unfinished(row) && row.request == request
  {
    hide LatestRuntime;
  }

  lemma {:induction false} AddedRow(chain: seq<Option<Owner>>, rows: map<nat, Row>, tid: nat, row: Row, limits: Limits)
    requires RowsInv(chain, rows, limits) && tid !in rows && RowInv(chain, tid, row) && Unfinished(row)
    requires !Busy(rows, row.request.conversation) && |ActiveTurns(rows)| < limits.active
    ensures RowsInv(chain, rows[tid := row], limits)
  {
    hide RowInv;
    AdmittedAlone(rows, tid, row);
    assert ActiveTurns(rows[tid := row]) == ActiveTurns(rows) + {tid};
  }

  lemma {:induction false} AdmittedAlone(rows: map<nat, Row>, tid: nat, row: Row)
    requires OneUnfinishedEach(rows) && !Busy(rows, row.request.conversation)
    ensures OneUnfinishedEach(rows[tid := row])
  {
  }

  lemma {:induction false} EmitShape(db: Db, conversation: nat, tid: nat, emission: Emission, owner: Owner, now: int)
    ensures var rows := Emitted(db, conversation, tid, emission, owner, now).0.rows;
      || rows == db.rows
      || (&& Column(db.lease) == Some(owner) && tid in db.rows && Unfinished(db.rows[tid]) && tid in rows
          && rows == db.rows[tid := rows[tid]]
          && rows[tid].request == db.rows[tid].request && rows[tid].admittedBy == db.rows[tid].admittedBy
          && rows[tid].writers == db.rows[tid].writers + [owner]
          && |rows[tid].events| == |db.rows[tid].events| + 1 && db.rows[tid].events <= rows[tid].events)
    ensures Emitted(db, conversation, tid, emission, owner, now).0.lease == db.lease
  {
  }

  lemma {:induction false} ReplacedRow(chain: seq<Option<Owner>>, before: map<nat, Row>, after: map<nat, Row>, tid: nat, limits: Limits)
    requires RowsInv(chain, before, limits) && tid in before && tid in after
    requires after == before[tid := after[tid]]
    requires SoundRow(tid, after[tid]) && Attributed(chain, after[tid])
    requires Unfinished(before[tid])
    requires after[tid].request == before[tid].request && after[tid].admittedBy == before[tid].admittedBy
    ensures RowsInv(chain, after, limits)
  {
    hide SoundRow;
    forall t | t in after ensures RowInv(chain, t, after[t]) {
      assert RowInv(chain, t, before[t]);
    }
    StillAlone(before, after, tid);
    SubsetSize(ActiveTurns(after), ActiveTurns(before));
  }

  lemma {:induction false} StillAlone(before: map<nat, Row>, after: map<nat, Row>, tid: nat)
    requires OneUnfinishedEach(before) && tid in before && tid in after && after == before[tid := after[tid]]
    requires Unfinished(before[tid]) && after[tid].request == before[tid].request
    ensures OneUnfinishedEach(after)
  {
    assert forall t :: t in after ==> after[t].request == before[t].request && (Unfinished(after[t]) ==> Unfinished(before[t]));
  }

  lemma {:induction false} RowNamesItself(tid: nat, row: Row)
    requires SoundRow(tid, row)
    ensures row.turn.turnId == tid
  {
  }

  lemma {:induction false} OneMoreEvent(chain: seq<Option<Owner>>, row: Row, next: Row, owner: Owner)
    requires SoundRow(row.turn.turnId, row) && Unfinished(row) && row.admittedBy == owner
    requires next.admittedBy == owner && next.writers == row.writers + [owner]
    requires |next.events| == |row.events| + 1 && row.events <= next.events
    requires Attributed(chain, row)
    ensures Attributed(chain, next)
  {
    hide PublicEvents, PublicBlocks;
    assert forall i :: 0 <= i < |row.events| ==> !row.events[i].payload.Finished?;
  }

  lemma {:induction false} EmitKeepsRows(w: World, a: Action, limits: Limits)
    requires ChainInv(w) && RowsInv(w.chain, w.db.rows, limits) && Allowed(w, a) && a.Execute? && a.message.EmitEvent?
    ensures RowsInv(After(w, a, limits).chain, After(w, a, limits).db.rows, limits)
  {
    hide Emitted, SoundRow;
    var rows := After(w, a, limits).db.rows;
    var m := a.message;
    EmitShape(w.db, m.conversation, m.tid, m.emission, m.owner, a.now);
    if rows != w.db.rows {
      var row := w.db.rows[m.tid];
      assert RowInv(w.chain, m.tid, row);
      GuardedIsLatest(w, m.owner, row.admittedBy);
      EmissionKeepsRow(w.db, m.conversation, m.tid, m.emission, m.owner, a.now);
      RowNamesItself(m.tid, row);
      assert row.admittedBy == m.owner;
      OneMoreEvent(w.chain, row, rows[m.tid], m.owner);
      ReplacedRow(w.chain, w.db.rows, rows, m.tid, limits);
    }
  }

  lemma {:induction false} SubsetSize(small: set<nat>, big: set<nat>)
    requires small <= big
    ensures |small| <= |big|
  {
    assert big == small + (big - small);
  }

  lemma {:induction false} RowsAlongRun(worlds: seq<World>, actions: seq<Action>, limits: Limits, k: nat)
    requires IsRun(worlds, actions, limits) && k < |worlds|
    ensures RowsInv(worlds[k].chain, worlds[k].db.rows, limits)
  {
    if k > 0 {
      RowsAlongRun(worlds, actions, limits, k - 1);
      ChainAlongRun(worlds, actions, limits, k - 1);
      var w, a := worlds[k - 1], actions[k - 1];
      if a.Execute? {
        match a.message
        case Rotate(_, _, _) => RotateKeepsRows(w, a, limits);
        case Release(_) => ReleaseKeepsRows(w, a, limits);
        case StartTurn(_, _, _) => StartKeepsRows(w, a, limits);
        case EmitEvent(_, _, _, _) => EmitKeepsRows(w, a, limits);
      }
    } else {
      assert ActiveTurns(worlds[0].db.rows) == {};
    }
  }

  /**
   In every reachable database, every event of every turn was written by the owner that admitted
   the turn, except at most one closing event, written by the runtime that took over from it.
   */
  lemma {:induction false} EventsBelongToTheAdmittingOwner(worlds: seq<World>, actions: seq<Action>, limits: Limits, k: nat, tid: nat)
    requires IsRun(worlds, actions, limits) && k < |worlds| && tid in worlds[k].db.rows
    ensures var row := worlds[k].db.rows[tid];
      && |row.writers| == |row.events|
      && forall i :: 0 <= i < |row.writers| && row.writers[i] != row.admittedBy ==>
        && i == |row.events| - 1
        && row.events[i].payload.Finished?
        && TookOver(worlds[k].chain, row.admittedBy, row.writers[i])
  {
    RowsAlongRun(worlds, actions, limits, k);
    assert RowInv(worlds[k].chain, tid, worlds[k].db.rows[tid]);
  }

  /**
   In every reachable database the events of a turn are numbered without gaps, their fold is the
   stored state, and a finished turn has exactly one closing event, its last.
   */
  lemma {:induction false} StateIsTheFoldOfItsEvents(worlds: seq<World>, actions: seq<Action>, limits: Limits, k: nat, tid: nat)
    requires IsRun(worlds, actions, limits) && k < |worlds| && tid in worlds[k].db.rows
    ensures var row := worlds[k].db.rows[tid];
      && row.turn == ClientFold(Admitted(tid, row.request.message), row.events)
      && row.turn.lastEventId == |row.events|
      && (forall i :: 0 <= i < |row.events| ==> row.events[i].id == i + 1)
      && (!Unfinished(row) <==> exists i :: 0 <= i < |row.events| && row.events[i].payload.Finished?)
      && (forall i :: 0 <= i < |row.events| && row.events[i].payload.Finished? ==> i == |row.events| - 1)
  {
    RowsAlongRun(worlds, actions, limits, k);
    assert RowInv(worlds[k].chain, tid, worlds[k].db.rows[tid]);
  }

  /** Admission never leaves two unfinished turns in one conversation, nor more than the limit. */
  lemma {:induction false} AdmissionStaysBounded(worlds: seq<World>, actions: seq<Action>, limits: Limits, k: nat)
    requires IsRun(worlds, actions, limits) && k < |worlds|
    ensures OneUnfinishedEach(worlds[k].db.rows)
    ensures |ActiveTurns(worlds[k].db.rows)| <= limits.active
  {
    RowsAlongRun(worlds, actions, limits, k);
  }

  /** Repeating the rotation that is in force renews the lease and sweeps nothing. */
  lemma {:induction false} RepeatedRotationSweepsNothing(db: Db, expected: Option<Owner>, next: Owner, claim: bool, now: int, later: int, db': Db)
    requires Rotated(db, expected, next, claim, now).1
    requires db' == Rotated(db, expected, next, claim, now).0.(rows := db'.rows, conversations := db'.conversations, paused := db'.paused)
    ensures Rotated(db', expected, next, claim, later) == (db'.(lease := Some(Lease(next, later + LEASE_SECONDS))), true)
  {
  }

  /** A turn is closed by a rotation exactly when it was unfinished; finished rows are untouched. */
  lemma {:induction false} RotationClosesExactlyTheUnfinished(
      db: Db, expected: Option<Owner>, next: Owner, claim: bool, now: int, tid: nat)
    requires Column(db.lease) != Some(next) && Rotated(db, expected, next, claim, now).1
    requires tid in db.rows && SoundRow(tid, db.rows[tid])
    ensures var row, row' := db.rows[tid], Rotated(db, expected, next, claim, now).0.rows[tid];
      && !Unfinished(row') && Consistent(row'.turn, row'.events)
      && (if Unfinished(row) then
            && row'.turn.status.Failed? && row'.turn.error == Some(RESTART_MESSAGE)
            && row'.turn.blocks == row.turn.blocks
            && row'.events == row.events + [Event(row.turn.lastEventId + 1, Finished(row'.turn))]
            && row'.writers == row.writers + [next]
          else row' == row)
  {
    SweepKeepsRow(tid, db.rows[tid], next);
  }
}
