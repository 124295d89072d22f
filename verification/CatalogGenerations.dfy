/**
 Search's own catalog generations in PostgreSQL: immutable generations, the active/pending
 pointer row, the receipts of confirmed exports, and the tombstones of deleted products.
 */
module CatalogGenerations {
  import opened Outcomes

  type Id = nat
  type Product = nat

  datatype Catalog = Catalog(version: Option<Id>, products: seq<Product>, details: string)

  datatype Manifest = Manifest(
    catalogDigest: string,
    vectorDigest: string,
    dimensions: Option<int>,
    modelDigest: Option<string>,
    encoderFingerprint: Option<string>,
    modelRevision: Option<string>,
    productIds: seq<Product>)

  datatype Generation = Generation(id: Id, exportId: Id, catalog: Catalog, manifest: Manifest, vectors: string)

  /** The digest functions; nothing but their being functions is used. */
  datatype Digests = Digests(ofCatalog: Catalog -> string, ofVectors: string -> string)

  datatype Fault =
    | GenerationIdMismatch
    | CatalogHashMismatch
    | VectorHashMismatch
    | VectorDimensionsMismatch
    | EncoderIdentityMissing
    | ModelRevisionMissing
    | ProductOrderMismatch

  datatype StoreError =
    | InvalidGeneration(fault: Fault)
    | UnknownGeneration
    | ImmutableGenerationConflict
    | StaleExportReceipt
    | ExportIdReused
    | StaleOrConflictingExport
    | ActivationPending
    | ActivationConflict
    | ForeignKeyViolation

  predicate IsDigest(text: Option<string>) {
    text.Some? && |text.value| == 64
    && forall k :: 0 <= k < 64 ==> '0' <= text.value[k] <= '9' || 'a' <= text.value[k] <= 'f'
  }

  predicate Distinct(ids: seq<Product>) {
    forall i, j :: 0 <= i < j < |ids| ==> ids[i] != ids[j]
  }

  function Validate(g: Generation, digests: Digests): Option<Fault> {
    if g.catalog.version != Some(g.id) then Some(GenerationIdMismatch)
    else if digests.ofCatalog(g.catalog) != g.manifest.catalogDigest then Some(CatalogHashMismatch)
    else if digests.ofVectors(g.vectors) != g.manifest.vectorDigest then Some(VectorHashMismatch)
    else if g.manifest.dimensions != Some(768) then Some(VectorDimensionsMismatch)
    else if !IsDigest(g.manifest.modelDigest) || !IsDigest(g.manifest.encoderFingerprint) then Some(EncoderIdentityMissing)
    else if g.manifest.modelRevision.None? || g.manifest.modelRevision == Some("") then Some(ModelRevisionMissing)
    else if g.catalog.products != g.manifest.productIds || !Distinct(g.catalog.products) then Some(ProductOrderMismatch)
    else None
  }

  datatype Receipt = Receipt(id: Id, digest: string, generatedAt: int, products: seq<Product>)

  /** `lock` is the session that holds the serving lock; `sessions` counts the sessions ever opened for it. */
  datatype Database = Database(
    active: Option<Id>,
    pending: Option<Id>,
    revision: nat,
    failed: bool,
    generations: map<Id, Generation>,
    receipts: seq<Receipt>,
    tombstones: map<Product, Id>,
    lock: Option<nat>,
    sessions: nat)

  const EMPTY := Database(None, None, 0, false, map[], [], map[], None, 0)

  // ----- Confirmed exports -------------------------------------------------------------------

  function Latest(receipts: seq<Receipt>): Option<Receipt> {
    if receipts == [] then None
    else
      var rest := Latest(receipts[..|receipts| - 1]);
      var last := receipts[|receipts| - 1];
      if rest.Some? && rest.value.generatedAt > last.generatedAt then rest else Some(last)
  }

  function FindReceipt(receipts: seq<Receipt>, id: Id): (found: Option<Receipt>)
    ensures found.Some? ==> found.value in receipts && found.value.id == id
    ensures found.None? ==> forall r :: r in receipts ==> r.id != id
  {
    if receipts == [] then None
    else if receipts[0].id == id then Some(receipts[0])
    else FindReceipt(receipts[1..], id)
  }

  function ActiveProducts(db: Database): seq<Product> {
    if db.active.Some? && db.active.value in db.generations then db.generations[db.active.value].catalog.products else []
  }

  function Removed(before: seq<Product>, now: seq<Product>): set<Product> {
    set p | p in before && p !in now
  }

  /** A product that already has a tombstone keeps it. */
  function Buried(tombstones: map<Product, Id>, removed: set<Product>, exportId: Id): map<Product, Id> {
    map p | p in tombstones.Keys + removed :: if p in tombstones then tombstones[p] else exportId
  }

  function Confirmed(db: Database, receipt: Receipt): Result<Database, StoreError> {
    var previous := Latest(db.receipts);
    var existing := FindReceipt(db.receipts, receipt.id);
    if previous.Some? && receipt.generatedAt < previous.value.generatedAt then Err(StaleExportReceipt)
    else if existing.Some? then
      if existing.value != receipt then Err(ExportIdReused) else Ok(db)
    else if previous.Some? && receipt.generatedAt <= previous.value.generatedAt then Err(StaleOrConflictingExport)
    else
      var before := if previous.Some? then previous.value.products else ActiveProducts(db);
      Ok(db.(receipts := db.receipts + [receipt],
             tombstones := Buried(db.tombstones, Removed(before, receipt.products), receipt.id)))
  }

  // ----- Generations and the pointer ---------------------------------------------------------

  /** The export id is not part of what makes two generations the same. */
  predicate SameContent(a: Generation, b: Generation) {
    a.catalog == b.catalog && a.manifest == b.manifest && a.vectors == b.vectors
  }

  function Prepared(db: Database, g: Generation, digests: Digests): Result<Database, StoreError> {
    if Validate(g, digests).Some? then Err(InvalidGeneration(Validate(g, digests).value))
    else if g.id in db.generations then
      if SameContent(db.generations[g.id], g) then Ok(db) else Err(ImmutableGenerationConflict)
    else if FindReceipt(db.receipts, g.exportId).None? then Err(ForeignKeyViolation)
    else Ok(db.(generations := db.generations[g.id := g]))
  }

  function Loaded(db: Database, id: Id, digests: Digests): Result<Generation, StoreError> {
    if id !in db.generations then Err(UnknownGeneration)
    else
      var g := db.generations[id];
      if Validate(g, digests).Some? then Err(InvalidGeneration(Validate(g, digests).value)) else Ok(g)
  }

  function Proposed(db: Database, id: Id): Result<Database, StoreError> {
    if db.pending.Some? && db.pending != Some(id) then Err(ActivationPending)
    else if db.active == Some(id) then Ok(db)
    else if id !in db.generations then Err(ForeignKeyViolation)
    else Ok(db.(pending := Some(id), failed := false))
  }

  function Activated(db: Database, id: Id, expected: Option<Id>): Result<Database, StoreError> {
    if db.active != expected || db.pending != Some(id) then Err(ActivationConflict)
    else Ok(db.(active := Some(id), pending := None, revision := db.revision + 1, failed := false))
  }

  function Rejected(db: Database, id: Id): Database {
    if db.pending == Some(id) then db.(pending := None, failed := true) else db
  }

  lemma {:induction false} BuryOne(tombstones: map<Product, Id>, done: set<Product>, product: Product, exportId: Id)
    ensures Buried(tombstones, done + {product}, exportId) == Buried(Buried(tombstones, done, exportId), {product}, exportId)
    ensures Buried(Buried(tombstones, done, exportId), {product}, exportId) ==
            if product in Buried(tombstones, done, exportId) then Buried(tombstones, done, exportId)
            else Buried(tombstones, done, exportId)[product := exportId]
  {
  }

  class CatalogStore {
    const digests: Digests
    var active: Option<Id>
    var pending: Option<Id>
    var revision: nat
    var failed: bool
    var generations: map<Id, Generation>
    var receipts: seq<Receipt>
    var tombstones: map<Product, Id>
    var lock: Option<nat>
    var sessions: nat

    ghost function View(): Database
      reads this
    {
      Database(active, pending, revision, failed, generations, receipts, tombstones, lock, sessions)
    }

    constructor (digests: Digests)
      ensures View() == EMPTY && this.digests == digests
    {
      this.digests := digests;
      active, pending, revision, failed := None, None, 0, false;
      generations, receipts, tombstones := map[], [], map[];
      lock, sessions := None, 0;
    }

    method Bury(removed: set<Product>, exportId: Id)
      modifies this`tombstones
      ensures tombstones == Buried(old(tombstones), removed, exportId)
    {
      var rest := removed;
      while rest != {}
        invariant rest <= removed
        invariant tombstones == Buried(old(tombstones), removed - rest, exportId)
        decreases |rest|
      {
        var product :| product in rest;
        ghost var done := removed - rest;
        if product !in tombstones {
          tombstones := tombstones[product := exportId];
        }
        rest := rest - {product};
        assert removed - rest == done + {product};
        BuryOne(old(tombstones), done, product, exportId);
      }
      assert removed - rest == removed;
    }

    method ConfirmExport(receipt: Receipt) returns (error: Option<StoreError>)
      modifies this
      ensures match Confirmed(old(View()), receipt)
              case Err(e) => error == Some(e) && View() == old(View())
              case Ok(db) => error == None && View() == db
    {
      var previous := Latest(receipts);
      if previous.Some? && receipt.generatedAt < previous.value.generatedAt {
        return Some(StaleExportReceipt);
      }
      var existing := FindReceipt(receipts, receipt.id);
      if existing.Some? {
        if existing.value.digest != receipt.digest || existing.value.generatedAt != receipt.generatedAt
           || existing.value.products != receipt.products {
          return Some(ExportIdReused);
        }
        return None;
      }
      if previous.Some? && receipt.generatedAt <= previous.value.generatedAt {
        return Some(StaleOrConflictingExport);
      }
      var before: seq<Product> := [];
      if previous.Some? {
        before := previous.value.products;
      } else if active.Some? && active.value in generations {
        before := generations[active.value].catalog.products;
      }
      receipts := receipts + [receipt];
      Bury(Removed(before, receipt.products), receipt.id);
      return None;
    }

    method Prepare(g: Generation) returns (error: Option<StoreError>)
      modifies this
      ensures match Prepared(old(View()), g, digests)
              case Err(e) => error == Some(e) && View() == old(View())
              case Ok(db) => error == None && View() == db
    {
      var fault := Validate(g, digests);
      if fault.Some? { return Some(InvalidGeneration(fault.value)); }
      if g.id in generations {
        var row := generations[g.id];
        if row.catalog != g.catalog || row.manifest != g.manifest || row.vectors != g.vectors {
          return Some(ImmutableGenerationConflict);
        }
        return None;
      }
      if FindReceipt(receipts, g.exportId).None? { return Some(ForeignKeyViolation); }
      generations := generations[g.id := g];
      return None;
    }

    method Load(id: Id) returns (result: Result<Generation, StoreError>)
      ensures result == Loaded(View(), id, digests)
    {
      if id !in generations { return Err(UnknownGeneration); }
      var fault := Validate(generations[id], digests);
      if fault.Some? { return Err(InvalidGeneration(fault.value)); }
      return Ok(generations[id]);
    }

    method Propose(id: Id) returns (error: Option<StoreError>)
      modifies this
      ensures match Proposed(old(View()), id)
              case Err(e) => error == Some(e) && View() == old(View())
              case Ok(db) => error == None && View() == db
    {
      if pending.Some? && pending.value != id { return Some(ActivationPending); }
      if active.Some? && active.value == id { return None; }
      if id !in generations { return Some(ForeignKeyViolation); }
      pending, failed := Some(id), false;
      return None;
    }

    method Activate(id: Id, expected: Option<Id>) returns (error: Option<StoreError>)
      modifies this
      ensures match Activated(old(View()), id, expected)
              case Err(e) => error == Some(e) && View() == old(View())
              case Ok(db) => error == None && View() == db
    {
      if active != expected || pending != Some(id) { return Some(ActivationConflict); }
      active, pending, revision, failed := Some(id), None, revision + 1, false;
      return None;
    }

    /** The pending generation of this id is dropped and the failure marked; any other one stays. */
    method Reject(id: Id)
      modifies this
      ensures old(pending) == Some(id) ==> View() == old(View()).(pending := None, failed := true)
      ensures old(pending) != Some(id) ==> View() == old(View())
      ensures View() == Rejected(old(View()), id)
    {
      if pending == Some(id) {
        pending, failed := None, true;
      }
    }
  }

  // ----- What preparing and loading promise --------------------------------------------------

  predicate KeyedById(db: Database) {
    forall id :: id in db.generations ==> db.generations[id].id == id
  }

  /** What was prepared is what is loaded, up to the export id of an identical earlier copy. */
  lemma {:induction false} PreparedLoadsBack(db: Database, g: Generation, digests: Digests)
    requires KeyedById(db)
    requires Prepared(db, g, digests).Ok?
    ensures Loaded(Prepared(db, g, digests).value, g.id, digests).Ok?
    ensures var back := Loaded(Prepared(db, g, digests).value, g.id, digests).value;
      SameContent(back, g) && back.id == g.id && (g.id !in db.generations ==> back == g)
  {
    if g.id in db.generations {
      var row := db.generations[g.id];
      SameContentSameVerdict(row, g, digests);
    }
  }

  /** A stored row of the same content fails validation only when its own id differs. */
  lemma {:induction false} SameContentSameVerdict(a: Generation, b: Generation, digests: Digests)
    requires SameContent(a, b) && a.id == b.id
    ensures Validate(a, digests) == Validate(b, digests)
  {
  }

  /** A loaded generation is named by its own catalog, lists distinct products, and has the encoder identity checked. */
  lemma {:induction false} LoadedIsSelfConsistent(db: Database, id: Id, digests: Digests)
    requires KeyedById(db)
    requires Loaded(db, id, digests).Ok?
    ensures var g := Loaded(db, id, digests).value;
      && g.id == id && g.catalog.version == Some(id)
      && g.catalog.products == g.manifest.productIds
      && (forall i, j :: 0 <= i < j < |g.catalog.products| ==> g.catalog.products[i] != g.catalog.products[j])
      && digests.ofCatalog(g.catalog) == g.manifest.catalogDigest && digests.ofVectors(g.vectors) == g.manifest.vectorDigest
  {
  }
}
