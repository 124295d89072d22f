/** What the catalog store and an undisturbed poll get done: a new catalog goes live, a bad one makes room for the next. */
module CatalogProgress {
  import opened Outcomes
  import opened CatalogGenerations
  import opened CatalogServing

  // ----- The store ---------------------------------------------------------------------------

  /** What a generation must be like. */
  predicate IsValid(g: Generation, digests: Digests) {
    && g.catalog.version == Some(g.id)
    && digests.ofCatalog(g.catalog) == g.manifest.catalogDigest && digests.ofVectors(g.vectors) == g.manifest.vectorDigest
    && g.manifest.dimensions == Some(768)
    && IsDigest(g.manifest.modelDigest) && IsDigest(g.manifest.encoderFingerprint)
    && g.manifest.modelRevision.Some? && g.manifest.modelRevision.value != ""
    && g.catalog.products == g.manifest.productIds
    && forall i, j :: 0 <= i < j < |g.catalog.products| ==> g.catalog.products[i] != g.catalog.products[j]
  }

  lemma {:induction false} ValidationAcceptsExactlyTheValid(g: Generation, digests: Digests)
    ensures Validate(g, digests).None? <==> IsValid(g, digests)
  {
    hide IsDigest;
  }

  predicate IsNewest(receipts: seq<Receipt>, receipt: Receipt) {
    forall k :: 0 <= k < |receipts| ==> receipts[k].generatedAt < receipt.generatedAt
  }

  predicate IsKnownId(receipts: seq<Receipt>, id: Id) {
    exists k :: 0 <= k < |receipts| && receipts[k].id == id
  }

  lemma {:induction false} LatestIsTheNewest(receipts: seq<Receipt>)
    ensures Latest(receipts).None? <==> receipts == []
    ensures Latest(receipts).Some? ==>
              Latest(receipts).value in receipts
              && forall k :: 0 <= k < |receipts| ==> receipts[k].generatedAt <= Latest(receipts).value.generatedAt
  {
    if receipts != [] {
      LatestIsTheNewest(receipts[..|receipts| - 1]);
    }
  }

  /** An export is recorded exactly when its id is new and it is newer than every one before, whatever they were. */
  lemma {:induction false} WhenAnExportIsRecorded(db: Database, receipt: Receipt)
    ensures var r := Confirmed(db, receipt);
      && (r.Ok? && r.value.receipts != db.receipts <==> IsNewest(db.receipts, receipt) && !IsKnownId(db.receipts, receipt.id))
      && (r.Ok? && r.value.receipts != db.receipts ==>
            && r.value.receipts == db.receipts + [receipt]
            && r.value == db.(receipts := r.value.receipts, tombstones := r.value.tombstones))
      && (r.Ok? && r.value.receipts == db.receipts ==> r.value == db)
  {
    hide Latest, FindReceipt, Buried, Removed;
    LatestIsTheNewest(db.receipts);
    KnownIsFound(db.receipts, receipt.id);
    assert |db.receipts + [receipt]| != |db.receipts|;
  }

  lemma {:induction false} KnownIsFound(receipts: seq<Receipt>, id: Id)
    ensures FindReceipt(receipts, id).Some? <==> IsKnownId(receipts, id)
  {
    if FindReceipt(receipts, id).Some? {
      var k :| 0 <= k < |receipts| && receipts[k] == FindReceipt(receipts, id).value;
    }
  }

  /** A new generation is stored exactly when it is valid and its export was confirmed. */
  lemma {:induction false} WhenAGenerationIsStored(db: Database, g: Generation, digests: Digests)
    requires g.id !in db.generations
    ensures var r := Prepared(db, g, digests);
      && (r.Ok? <==> IsValid(g, digests) && IsKnownId(db.receipts, g.exportId))
      && (r.Ok? ==> r.value == db.(generations := db.generations[g.id := g]))
  {
    hide Validate, IsValid;
    ValidationAcceptsExactlyTheValid(g, digests);
    KnownIsFound(db.receipts, g.exportId);
  }

  /** A stored id is prepared again exactly with the same content, and then nothing changes. */
  lemma {:induction false} WhenAGenerationIsStoredAgain(db: Database, g: Generation, digests: Digests)
    requires g.id in db.generations
    ensures var (r, stored) := (Prepared(db, g, digests), db.generations[g.id]);
      && (r.Ok? <==> IsValid(g, digests) && stored.catalog == g.catalog && stored.manifest == g.manifest && stored.vectors == g.vectors)
      && (r.Ok? ==> r.value == db)
  {
    hide Validate, IsValid;
    ValidationAcceptsExactlyTheValid(g, digests);
  }

  /** A stored generation becomes the pending one exactly when no other is; the active one is left as it is. */
  lemma {:induction false} WhenAGenerationIsProposed(db: Database, id: Id)
    ensures var r := Proposed(db, id);
      && (r.Ok? <==> (db.pending == None || db.pending == Some(id)) && (db.active == Some(id) || id in db.generations))
      && (r.Ok? ==> r.value == if db.active == Some(id) then db else db.(pending := Some(id), failed := false))
  {
  }

  /** The pointer moves exactly from the expected active generation onto the pending one, and counts the move. */
  lemma {:induction false} WhenAGenerationIsActivated(db: Database, id: Id, expected: Option<Id>)
    ensures var r := Activated(db, id, expected);
      && (r.Ok? <==> db.active == expected && db.pending == Some(id))
      && (r.Ok? ==> r.value == db.(active := Some(id), pending := None, revision := db.revision + 1, failed := false))
  {
  }

  /** A rejection clears the pending generation it names, marks the failure, and touches nothing else. */
  lemma {:induction false} RejectionClearsItsGeneration(db: Database, id: Id)
    ensures var d := Rejected(db, id);
      && (db.pending == Some(id) ==>
            d.pending == None && d.failed && d.active == db.active && d.revision == db.revision && d.generations == db.generations
            && d.receipts == db.receipts && d.tombstones == db.tombstones && d.lock == db.lock && d.sessions == db.sessions)
      && (db.pending != Some(id) ==> d == db)
  {
  }

  // ----- A poll that meets a bad candidate ---------------------------------------------------

  /** Nothing goes wrong but, perhaps, the opening of the pending generation's index. */
  predicate IsCalm(luck: Luck) {
    luck.probe && luck.connects && luck.readable && luck.opensActive && luck.commit.Done? && luck.readableAgain
  }

  /** The pending generation cannot serve: its index does not open, or another encoder revision made it. */
  predicate IsBad(db: Database, r: Runtime, opens: bool)
    requires db.pending.Some? && db.pending.value in db.generations
  {
    !opens || db.generations[db.pending.value].manifest.modelRevision != r.loaded.manifest.modelRevision
  }

  /**
   A poll that is otherwise undisturbed and finds a pending generation which cannot serve: it is no
   longer pending and the failure is marked, the process serves what was active, ready if anything
   was, and any other stored generation can be proposed at once.
   */
  lemma {:induction false} BadCandidateMakesRoom(db: Database, r: Runtime, luck: Luck, digests: Digests, other: Id)
    requires Coherent(db, digests) && Stored(db, r.loaded) && (HoldsLock(db, r) || db.lock.None?) && IsCalm(luck)
    requires db.active.Some? ==> db.generations[db.active.value].manifest.modelRevision == r.loaded.manifest.modelRevision
    requires db.pending.Some? && IsBad(db, r, luck.opensPending)
    ensures var (d, s) := Polled(db, r, luck, digests);
      && d.pending == None && d.failed && d.active == db.active && d.generations == db.generations && d.revision == db.revision
      && HoldsLock(d, s) && (s.ready <==> db.active.Some?) && (s.ready ==> Serving(s) == db.active) && Stored(d, s.loaded)
      && (other in db.generations && Some(other) != db.active ==>
            Proposed(d, other) == Ok(d.(pending := Some(other), failed := false)))
  {
    hide Validate, Sound, ActiveHandled, PendingHandled;
    var (d1, r1) := ClaimTaken(db, r, true, true);
    assert d1 == db.(lock := d1.lock, sessions := d1.sessions) && HoldsLock(d1, r1) && r1.phase.Claimed? && r1.loaded == r.loaded;
    ClaimedIsCoherent(db, d1, digests);
    ReconciledWithActive(d1, r1, luck, digests);
    var r2 := ActiveHandled(d1, r1, luck, digests);
    BadCandidateIsCleared(d1, r2, luck, digests);
    if other in db.generations && Some(other) != db.active {
      WhenAGenerationIsProposed(Polled(db, r, luck, digests).0, other);
    }
    PointerNamesItself(d1, r2.loaded, digests);
  }

  lemma {:induction false} ClaimedIsCoherent(db: Database, d: Database, digests: Digests)
    requires Coherent(db, digests) && d == db.(lock := d.lock, sessions := d.sessions)
    requires d.lock.Some? ==> d.lock.value < d.sessions
    ensures Coherent(d, digests)
  {
    hide Validate, Sound;
  }

  lemma {:induction false} PointerNamesItself(db: Database, g: Generation, digests: Digests)
    requires Coherent(db, digests) && Stored(db, g)
    ensures g.catalog.version == Some(g.id) && g.id in db.generations
  {
    hide Validate;
    assert Sound(g.id, db.generations[g.id], digests);
  }

  lemma {:induction false} ReconciledWithActive(db: Database, r: Runtime, luck: Luck, digests: Digests)
    requires Coherent(db, digests) && Stored(db, r.loaded) && r.phase.Claimed? && IsCalm(luck) && db.pending.Some?
    requires db.active.Some? ==>
               db.active.value in db.generations
               && db.generations[db.active.value].manifest.modelRevision == r.loaded.manifest.modelRevision
    ensures var s := ActiveHandled(db, r, luck, digests);
      && s.session == r.session && Stored(db, s.loaded) && s.loaded.manifest.modelRevision == r.loaded.manifest.modelRevision
      && (db.active.Some? ==> Serving(s) == db.active) && s.phase == Loading(db.active, db.pending.value)
  {
    hide Validate, Sound, Candidate;
    if db.active.Some? {
      CandidateIsStored(db, db.active.value, r.loaded.manifest.modelRevision, luck.opensActive, digests);
    }
  }

  lemma {:induction false} BadCandidateIsCleared(db: Database, r: Runtime, luck: Luck, digests: Digests)
    requires Coherent(db, digests) && HoldsLock(db, r) && IsCalm(luck)
    requires r.phase.Loading? && db.pending == Some(r.phase.pending) && r.phase.pending in db.generations
    requires IsBad(db, r, luck.opensPending)
    ensures var (d, s) := PendingHandled(db, r, luck, digests);
      && d.pending == None && d.failed && d == db.(pending := None, failed := true)
      && s.loaded == r.loaded && s.session == r.session && s.phase.Finishing?
  {
    hide Validate, Sound, Candidate, Coherent;
    CandidateIsStored(db, r.phase.pending, r.loaded.manifest.modelRevision, luck.opensPending, digests);
    RejectionClearsItsGeneration(db, r.phase.pending);
  }

  // ----- A new catalog -----------------------------------------------------------------------

  /**
   From any coherent database with nothing pending: confirm an export newer than all others,
   prepare a valid generation of it with the serving encoder, propose it; none of this is refused,
   and one undisturbed poll of the serving process ends ready on it.
   */
  lemma {:induction false} NewCatalogGoesLive(db: Database, receipt: Receipt, g: Generation, r: Runtime, digests: Digests)
    requires Coherent(db, digests) && db.pending.None? && Stored(db, r.loaded) && (HoldsLock(db, r) || db.lock.None?)
    requires db.active.Some? ==> db.generations[db.active.value].manifest.modelRevision == r.loaded.manifest.modelRevision
    requires IsNewest(db.receipts, receipt) && !IsKnownId(db.receipts, receipt.id)
    requires g.id !in db.generations && g.exportId == receipt.id && IsValid(g, digests)
    requires g.manifest.modelRevision == r.loaded.manifest.modelRevision
    ensures var confirmed := Confirmed(db, receipt);
      && confirmed.Ok? && confirmed.value.receipts == db.receipts + [receipt]
      && var prepared := Prepared(confirmed.value, g, digests);
      && prepared.Ok? && var proposed := Proposed(prepared.value, g.id);
      && proposed.Ok? && var (d, s) := Polled(proposed.value, r, GoodLuck(), digests);
      && d.active == Some(g.id) && d.pending == None && s.ready && Serving(s) == Some(g.id) && s.loaded == g && HoldsLock(d, s)
  {
    hide Validate, IsValid, Confirmed, Prepared, Proposed, Polled, Sound, Coherent, IsNewest, IsKnownId;
    WhenAnExportIsRecorded(db, receipt);
    var d1 := Confirmed(db, receipt).value;
    LastIsKnown(db.receipts, receipt);
    assert |db.receipts + [receipt]| != |db.receipts|;
    WhenAGenerationIsStored(d1, g, digests);
    var d2 := Prepared(d1, g, digests).value;
    PointerNamesItself(db, r.loaded, digests);
    StillCoherent(db, d1, g, digests);
    assert d2.active != Some(g.id) by { ActiveIsStored(db, digests); }
    WhenAGenerationIsProposed(d2, g.id);
    var d3 := Proposed(d2, g.id).value;
    ProposedIsCoherent(d2, g.id, digests);
    assert SameEncoder(d3, r) by { ActiveIsStored(db, digests); }
    UndisturbedPollServesActive(d3, r, digests);
    ServedIsStored(Polled(d3, r, GoodLuck(), digests).0, Polled(d3, r, GoodLuck(), digests).1, d3, g, digests);
  }

  lemma {:induction false} LastIsKnown(receipts: seq<Receipt>, receipt: Receipt)
    ensures IsKnownId(receipts + [receipt], receipt.id)
  {
    assert (receipts + [receipt])[|receipts|] == receipt;
  }

  lemma {:induction false} ActiveIsStored(db: Database, digests: Digests)
    requires Coherent(db, digests)
    ensures db.active.Some? ==> db.active.value in db.generations
  {
    hide Sound;
  }

  lemma {:induction false} StillCoherent(db: Database, d1: Database, g: Generation, digests: Digests)
    requires Coherent(db, digests) && IsValid(g, digests) && g.id !in db.generations && db.pending.None?
    requires d1 == db.(receipts := d1.receipts, tombstones := d1.tombstones)
    ensures Coherent(d1.(generations := d1.generations[g.id := g]), digests)
  {
    hide Validate;
    ValidationAcceptsExactlyTheValid(g, digests);
    assert Sound(g.id, g, digests);
    hide Sound, IsValid;
  }

  lemma {:induction false} ProposedIsCoherent(db: Database, id: Id, digests: Digests)
    requires Coherent(db, digests) && id in db.generations && db.active != Some(id)
    ensures Coherent(db.(pending := Some(id), failed := false), digests)
  {
    hide Sound;
  }

  lemma {:induction false} ServedIsStored(d: Database, s: Runtime, db: Database, g: Generation, digests: Digests)
    requires Coherent(db, digests) && d.generations == db.generations && Stored(db, g) && Stored(d, s.loaded) && Serving(s) == Some(g.id)
    ensures s.loaded == g
  {
    PointerNamesItself(db, s.loaded, digests);
  }
}
