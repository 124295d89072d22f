/** What confirmed exports leave behind about deleted products, over whole runs. */
module DeletionTheorems {
  import opened Outcomes
  import opened CatalogGenerations
  import opened CatalogRuns

  /** The catalog before the first confirmed export, then every confirmed export, oldest first. */
  function Exports(w: World): (exports: seq<seq<Product>>) {
    if w.db.receipts == [] then [] else [w.base] + seq(|w.db.receipts|, k requires 0 <= k < |w.db.receipts| => w.db.receipts[k].products)
  }

  /** The product was in one export and was gone from the next. */
  predicate Vanishes(exports: seq<seq<Product>>, p: Product, j: int) {
    0 < j < |exports| && p in exports[j - 1] && p !in exports[j]
  }

  predicate FirstVanishes(exports: seq<seq<Product>>, p: Product, j: int) {
    Vanishes(exports, p, j) && forall i :: 0 < i < j ==> !Vanishes(exports, p, i)
  }

  predicate Increasing(receipts: seq<Receipt>) {
    forall i, j :: 0 <= i < j < |receipts| ==> receipts[i].generatedAt < receipts[j].generatedAt && receipts[i].id != receipts[j].id
  }

  ghost predicate NamesFirstLoss(exports: seq<seq<Product>>, receipts: seq<Receipt>, p: Product, id: Id) {
    exists j :: FirstVanishes(exports, p, j) && j <= |receipts| && id == receipts[j - 1].id
  }

  /** Tombstones record exactly the products that ever vanished, under the export that first missed them. */
  ghost predicate Recorded(exports: seq<seq<Product>>, receipts: seq<Receipt>, tombstones: map<Product, Id>) {
    && (forall p, j :: Vanishes(exports, p, j) ==> p in tombstones)
    && (forall p :: p in tombstones ==> NamesFirstLoss(exports, receipts, p, tombstones[p]))
  }

  ghost predicate Knowledge(w: World) {
    Increasing(w.db.receipts) && Recorded(Exports(w), w.db.receipts, w.db.tombstones)
  }

  lemma {:induction false} LatestIsLast(receipts: seq<Receipt>)
    requires Increasing(receipts) && receipts != []
    ensures Latest(receipts) == Some(receipts[|receipts| - 1])
  {
    if |receipts| > 1 {
      LatestIsLast(receipts[..|receipts| - 1]);
    }
  }

  /** Nothing but a new confirmed export touches receipts or tombstones. */
  lemma {:induction false} OnlyExportsTouchKnowledge(w: World, a: Action, digests: Digests)
    requires Allowed(w, a) && !a.Confirm?
    ensures var n := After(w, a, digests);
      n.db.receipts == w.db.receipts && n.db.tombstones == w.db.tombstones && n.base == w.base
  {
    if a.Poll? {
      StepShape(w.db, w.servers[a.s], a.step, digests);
    }
    hide Stepped, Validate;
  }

  /** A newly confirmed export is appended with a later time and a new id. */
  lemma {:induction false} ExportAppends(w: World, receipt: Receipt)
    requires Increasing(w.db.receipts) && Exported(w, receipt) != w
    ensures var n := Exported(w, receipt);
      var before := if w.db.receipts == [] then n.base else w.db.receipts[|w.db.receipts| - 1].products;
      && n.db.receipts == w.db.receipts + [receipt] && Increasing(n.db.receipts)
      && (w.db.receipts != [] ==> n.base == w.base)
      && n.db.tombstones == Buried(w.db.tombstones, Removed(before, receipt.products), receipt.id)
  {
    hide Buried, Removed;
    if w.db.receipts != [] {
      LatestIsLast(w.db.receipts);
    }
  }

  /** The exports seen so far stay as they were. */
  lemma {:induction false} ExportsGrow(w: World, n: World, receipt: Receipt)
    requires n.db.receipts == w.db.receipts + [receipt] && (w.db.receipts != [] ==> n.base == w.base)
    ensures var (before, after) := (Exports(w), Exports(n));
      && |after| == |w.db.receipts| + 2 && after[|after| - 1] == receipt.products
      && after[|after| - 2] == (if w.db.receipts == [] then n.base else w.db.receipts[|w.db.receipts| - 1].products)
      && (|before| == 0 || |before| == |after| - 1) && before == after[..|before|] && (|before| == 0 ==> |after| == 2)
  {
  }

  lemma {:induction false} RecordedGrows(
    before: seq<seq<Product>>, after: seq<seq<Product>>, receipts: seq<Receipt>, receipt: Receipt, tombstones: map<Product, Id>)
    requires Recorded(before, receipts, tombstones)
    requires |after| == |receipts| + 2 && before <= after
    requires |before| == |after| - 1 || (|before| == 0 && |after| == 2)
    ensures var now := Buried(tombstones, Removed(after[|after| - 2], after[|after| - 1]), receipt.id);
      Recorded(after, receipts + [receipt], now)
  {
    var last := |after| - 1;
    var now := Buried(tombstones, Removed(after[last - 1], after[last]), receipt.id);
    forall p, j | Vanishes(after, p, j) ensures p in now {
      if j < last {
        assert Vanishes(before, p, j);
      }
    }
    forall p | p in now ensures NamesFirstLoss(after, receipts + [receipt], p, now[p]) {
      FirstLossGrows(before, after, receipts, receipt, tombstones, p);
    }
  }

  lemma {:induction false} FirstLossGrows(
    before: seq<seq<Product>>, after: seq<seq<Product>>, receipts: seq<Receipt>, receipt: Receipt, tombstones: map<Product, Id>, p: Product)
    requires Recorded(before, receipts, tombstones)
    requires |after| == |receipts| + 2 && before <= after
    requires |before| == |after| - 1 || (|before| == 0 && |after| == 2)
    requires p in Buried(tombstones, Removed(after[|after| - 2], after[|after| - 1]), receipt.id)
    ensures var now := Buried(tombstones, Removed(after[|after| - 2], after[|after| - 1]), receipt.id);
      NamesFirstLoss(after, receipts + [receipt], p, now[p])
  {
    var last := |after| - 1;
    assert forall j :: j < last ==> (Vanishes(after, p, j) <==> Vanishes(before, p, j));
    if p in tombstones {
      assert NamesFirstLoss(before, receipts, p, tombstones[p]);
      var j :| FirstVanishes(before, p, j) && j <= |receipts| && tombstones[p] == receipts[j - 1].id;
      assert FirstVanishes(after, p, j);
    } else {
      assert FirstVanishes(after, p, last);
    }
  }

  lemma {:induction false} ExportKeepsKnowledge(w: World, receipt: Receipt)
    requires Knowledge(w) && Exported(w, receipt) != w
    ensures Knowledge(Exported(w, receipt))
  {
    hide Recorded, Buried, Removed, Exports, Exported;
    var n := Exported(w, receipt);
    ExportAppends(w, receipt);
    ExportsGrow(w, n, receipt);
    RecordedGrows(Exports(w), Exports(n), w.db.receipts, receipt, w.db.tombstones);
  }

  lemma {:induction false} KnowledgeAlongRun(worlds: seq<World>, actions: seq<Action>, digests: Digests, k: nat)
    requires IsRun(worlds, actions, digests) && k < |worlds|
    ensures Knowledge(worlds[k])
  {
    if k > 0 {
      KnowledgeAlongRun(worlds, actions, digests, k - 1);
      var a := actions[k - 1];
      if a.Confirm? {
        if Exported(worlds[k - 1], a.receipt) != worlds[k - 1] {
          ExportKeepsKnowledge(worlds[k - 1], a.receipt);
        }
      } else {
        OnlyExportsTouchKnowledge(worlds[k - 1], a, digests);
        assert Exports(worlds[k]) == Exports(worlds[k - 1]);
      }
    }
  }

  /** Some export had it and a later one did not. */
  ghost predicate Deleted(exports: seq<seq<Product>>, p: Product) {
    exists i, j :: 0 <= i < j < |exports| && p in exports[i] && p !in exports[j]
  }

  lemma {:induction false} DeletedMeansVanished(exports: seq<seq<Product>>, p: Product, i: nat, j: nat)
    requires i < j < |exports| && p in exports[i] && p !in exports[j]
    ensures exists m :: Vanishes(exports, p, m)
    decreases j
  {
    if p in exports[j - 1] {
      assert Vanishes(exports, p, j);
    } else {
      DeletedMeansVanished(exports, p, i, j - 1);
    }
  }

  /**
   In every reachable state, through failed builds, rejected and activated generations, crashes
   and rollbacks: a product has a tombstone exactly when it appeared in the catalog before the
   first export or in some export and was missing from a later one; a later reappearance does not
   clear it.
   */
  lemma {:induction false} TombstonesAreExactlyTheDeleted(worlds: seq<World>, actions: seq<Action>, digests: Digests, k: nat, p: Product)
    requires IsRun(worlds, actions, digests) && k < |worlds|
    ensures p in worlds[k].db.tombstones <==> Deleted(Exports(worlds[k]), p)
  {
    KnowledgeAlongRun(worlds, actions, digests, k);
    var exports := Exports(worlds[k]);
    if p in worlds[k].db.tombstones {
      assert NamesFirstLoss(exports, worlds[k].db.receipts, p, worlds[k].db.tombstones[p]);
      var j :| FirstVanishes(exports, p, j);
      assert 0 <= j - 1 < j < |exports| && p in exports[j - 1] && p !in exports[j];
    } else if Deleted(exports, p) {
      var i, j :| 0 <= i < j < |exports| && p in exports[i] && p !in exports[j];
      DeletedMeansVanished(exports, p, i, j);
    }
  }

  /** A tombstone names the export that first missed the product. */
  lemma {:induction false} TombstoneNamesFirstLoss(worlds: seq<World>, actions: seq<Action>, digests: Digests, k: nat, p: Product, j: nat)
    requires IsRun(worlds, actions, digests) && k < |worlds| && FirstVanishes(Exports(worlds[k]), p, j)
    ensures p in worlds[k].db.tombstones && worlds[k].db.tombstones[p] == worlds[k].db.receipts[j - 1].id
  {
    KnowledgeAlongRun(worlds, actions, digests, k);
    assert NamesFirstLoss(Exports(worlds[k]), worlds[k].db.receipts, p, worlds[k].db.tombstones[p]);
    var i :| FirstVanishes(Exports(worlds[k]), p, i) && i <= |worlds[k].db.receipts|
             && worlds[k].db.tombstones[p] == worlds[k].db.receipts[i - 1].id;
    assert i == j;
  }

  lemma {:induction false} ExportKeepsTombstone(w: World, receipt: Receipt, p: Product)
    requires p in w.db.tombstones
    ensures var n := Exported(w, receipt); p in n.db.tombstones && n.db.tombstones[p] == w.db.tombstones[p]
  {
    hide Latest, FindReceipt, Removed;
  }

  /** No step of a run removes or rewrites a tombstone. */
  lemma {:induction false} TombstonesAreForever(worlds: seq<World>, actions: seq<Action>, digests: Digests, i: nat, k: nat, p: Product)
    requires IsRun(worlds, actions, digests) && i <= k < |worlds| && p in worlds[i].db.tombstones
    ensures p in worlds[k].db.tombstones && worlds[k].db.tombstones[p] == worlds[i].db.tombstones[p]
    decreases k
  {
    hide Exported, Buried;
    if i < k {
      TombstonesAreForever(worlds, actions, digests, i, k - 1, p);
      if actions[k - 1].Confirm? {
        ExportKeepsTombstone(worlds[k - 1], actions[k - 1].receipt, p);
      } else {
        OnlyExportsTouchKnowledge(worlds[k - 1], actions[k - 1], digests);
      }
    }
  }

  /**
   Confirming an export again changes nothing. It is accepted exactly when it repeats the latest
   receipt; an earlier receipt is refused as stale, and the latest id with other content as reused.
   */
  lemma {:induction false} ReconfirmingChangesNothing(worlds: seq<World>, actions: seq<Action>, digests: Digests, k: nat, receipt: Receipt)
    requires IsRun(worlds, actions, digests) && k < |worlds|
    requires exists r :: r in worlds[k].db.receipts && r.id == receipt.id
    ensures var receipts := worlds[k].db.receipts;
      && Exported(worlds[k], receipt) == worlds[k]
      && (Confirmed(worlds[k].db, receipt).Ok? <==> receipt == receipts[|receipts| - 1])
  {
    KnowledgeAlongRun(worlds, actions, digests, k);
    LatestIsLast(worlds[k].db.receipts);
  }
}
