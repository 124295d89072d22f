/**
 The public search conditions of a gift conversation: sparse patches against the stored
 conditions, and the diff that builds such a patch for a wanted target.
 */
module FilterPatch {
  import opened Outcomes

  datatype Scope = CurrentRecipient | OtherRecipient
  datatype BudgetAction = Preserve | Replace | Clear
  datatype ProductType = Shipping | Voucher | Pickup

  datatype Filters = Filters(
    scope: Scope,
    brands: seq<string>,
    excludeBrands: seq<string>,
    budget: BudgetAction,
    minPrice: Option<int>,
    maxPrice: Option<int>,
    categories: seq<string>,
    excludeCategories: seq<string>,
    excludeProducts: seq<string>,
    productType: Option<ProductType>)

  const NO_FILTERS := Filters(CurrentRecipient, [], [], Preserve, None, None, [], [], [], None)

  predicate PriceInRange(price: Option<int>) {
    price.Some? ==> 0 <= price.value <= 1_000_000_000
  }

  predicate Ordered(minPrice: Option<int>, maxPrice: Option<int>) {
    minPrice.Some? && maxPrice.Some? ==> minPrice.value <= maxPrice.value
  }

  predicate Valid(f: Filters) {
    && |f.brands| <= 20 && |f.excludeBrands| <= 20 && PriceInRange(f.minPrice) && PriceInRange(f.maxPrice)
    && Ordered(f.minPrice, f.maxPrice)
    && |f.categories| <= 20 && |f.excludeCategories| <= 20 && |f.excludeProducts| <= 30
  }

  /** Only the fields that a call sets; an inner None deletes the condition. */
  datatype Changes = Changes(
    scope: Option<Scope>,
    brands: Option<seq<string>>,
    excludeBrands: Option<seq<string>>,
    minPrice: Option<Option<int>>,
    maxPrice: Option<Option<int>>,
    categories: Option<seq<string>>,
    excludeCategories: Option<seq<string>>,
    excludeProducts: Option<seq<string>>,
    delivery: Option<Option<ProductType>>)

  predicate ValidChanges(c: Changes) {
    && (c.brands.Some? ==> |c.brands.value| <= 20) && (c.excludeBrands.Some? ==> |c.excludeBrands.value| <= 20)
    && (c.minPrice.Some? ==> PriceInRange(c.minPrice.value)) && (c.maxPrice.Some? ==> PriceInRange(c.maxPrice.value))
    && (c.categories.Some? ==> |c.categories.value| <= 20)
    && (c.excludeCategories.Some? ==> |c.excludeCategories.value| <= 20)
    && (c.excludeProducts.Some? ==> |c.excludeProducts.value| <= 30)
  }

  function Or<T>(change: Option<T>, base: T): T {
    if change.Some? then change.value else base
  }

  // ----- Brand names -------------------------------------------------------------------------

  /** How labels are compared, and a label without its parenthesised parts. */
  datatype Labels = Labels(normalized: string -> string, bare: string -> string)

  datatype PatchError = ClarificationNeeded | InvalidArguments | UnknownCategory | UnknownRecipientCategory

  function Exact(names: set<string>, labels: Labels, name: string): set<string> {
    set n | n in names && labels.normalized(n) == labels.normalized(name)
  }

  function Aliases(names: set<string>, labels: Labels, name: string): set<string> {
    set n | n in names && labels.bare(n) != "" && labels.normalized(labels.bare(n)) == labels.normalized(name)
  }

  function Candidates(names: set<string>, labels: Labels, name: string): set<string> {
    if Exact(names, labels, name) != {} then Exact(names, labels, name) else Aliases(names, labels, name)
  }

  ghost function Resolved(names: set<string>, labels: Labels, name: string): Result<string, PatchError> {
    var candidates := Candidates(names, labels, name);
    if |candidates| > 1 then Err(ClarificationNeeded)
    else if candidates == {} then Ok(name)
    else
      var only :| only in candidates;
      Ok(only)
  }

  function Entry(index: map<string, set<string>>, key: string): set<string> {
    if key in index then index[key] else {}
  }

  function Keyed(names: set<string>, labels: Labels, key: string): set<string> {
    set n | n in names && labels.normalized(n) == key
  }

  function BareKeyed(names: set<string>, labels: Labels, key: string): set<string> {
    set n | n in names && labels.bare(n) != "" && labels.normalized(labels.bare(n)) == key
  }

  lemma {:induction false} NothingKeyed(labels: Labels, key: string)
    ensures Keyed({}, labels, key) == BareKeyed({}, labels, key) == {}
  {
  }

  lemma {:induction false} KeyedGrows(names: set<string>, labels: Labels, name: string, key: string)
    ensures Keyed(names + {name}, labels, key) == Keyed(names, labels, key) + if labels.normalized(name) == key then {name} else {}
    ensures BareKeyed(names + {name}, labels, key)
            == BareKeyed(names, labels, key)
               + if labels.bare(name) != "" && labels.normalized(labels.bare(name)) == key then {name} else {}
  {
  }

  class BrandResolver {
    const labels: Labels
    var exact: map<string, set<string>>
    var aliases: map<string, set<string>>
    ghost var names: set<string>

    ghost predicate Valid()
      reads this
    {
      && (forall key :: Entry(exact, key) == Keyed(names, labels, key))
      && (forall key :: Entry(aliases, key) == BareKeyed(names, labels, key))
    }

    constructor (catalog: set<string>, labels: Labels)
      ensures Valid() && names == catalog && this.labels == labels
    {
      hide Keyed, BareKeyed;
      forall key ensures Keyed({}, labels, key) == BareKeyed({}, labels, key) == {} {
        NothingKeyed(labels, key);
      }
      this.labels := labels;
      exact, aliases, names := map[], map[], {};
      new;
      var rest := catalog;
      while rest != {}
        invariant rest <= catalog && names == catalog - rest && Valid()
        decreases |rest|
      {
        var name :| name in rest;
        Add(name);
        rest := rest - {name};
      }
    }

    method Add(name: string)
      requires Valid()
      modifies this
      ensures Valid() && names == old(names) + {name}
    {
      hide Keyed, BareKeyed;
      var key := labels.normalized(name);
      exact := exact[key := Entry(exact, key) + {name}];
      var bare := labels.bare(name);
      if bare != "" {
        var alias := labels.normalized(bare);
        aliases := aliases[alias := Entry(aliases, alias) + {name}];
      }
      names := names + {name};
      forall k ensures Entry(exact, k) == Keyed(names, labels, k) {
        assert Entry(old(exact), k) == Keyed(old(names), labels, k);
        KeyedGrows(old(names), labels, name, k);
      }
      forall k ensures Entry(aliases, k) == BareKeyed(names, labels, k) {
        assert Entry(old(aliases), k) == BareKeyed(old(names), labels, k);
        KeyedGrows(old(names), labels, name, k);
      }
    }

    method Resolve(name: string) returns (r: Result<string, PatchError>)
      requires Valid()
      ensures r == Resolved(names, labels, name)
    {
      var key := labels.normalized(name);
      assert Entry(exact, key) == Exact(names, labels, name);
      assert Entry(aliases, key) == Aliases(names, labels, name);
      var candidates := Entry(exact, key);
      if candidates == {} {
        candidates := Entry(aliases, key);
      }
      if |candidates| > 1 { return Err(ClarificationNeeded); }
      if candidates == {} { return Ok(name); }
      var only :| only in candidates;
      OnlyOne(candidates, only, Resolved(names, labels, name).value);
      return Ok(only);
    }
  }

  lemma {:induction false} OnlyOne<T>(s: set<T>, a: T, b: T)
    requires |s| <= 1 && a in s && b in s
    ensures a == b
  {
    assert |s - {a}| == |s| - 1;
    assert s - {a} == {};
  }

  /** A catalog brand resolves to itself exactly when no other catalog brand reads the same. */
  lemma {:induction false} CatalogBrandResolvesToItself(names: set<string>, labels: Labels, name: string)
    requires name in names
    ensures Resolved(names, labels, name) == Ok(name) <==> Exact(names, labels, name) == {name}
    ensures Resolved(names, labels, name).Err? <==> Exact(names, labels, name) != {name}
  {
    var exact := Exact(names, labels, name);
    assert name in exact;
    if |exact| <= 1 {
      forall n | n in exact ensures n == name {
        OnlyOne(exact, n, name);
      }
      assert exact == {name};
    }
  }

  /** Each name resolved, later repetitions dropped; the first ambiguous name stops. */
  ghost function ResolvedAll(names: set<string>, labels: Labels, wanted: seq<string>): (r: Result<seq<string>, PatchError>)
    ensures r.Ok? ==> |r.value| <= |wanted|
  {
    if wanted == [] then Ok([])
    else
      match ResolvedAll(names, labels, wanted[..|wanted| - 1])
      case Err(e) => Err(e)
      case Ok(front) =>
        match Resolved(names, labels, wanted[|wanted| - 1])
        case Err(e) => Err(e)
        case Ok(brand) => Ok(if brand in front then front else front + [brand])
  }

  /** The names resolve to themselves, without repetition. */
  ghost predicate Stable(names: set<string>, labels: Labels, wanted: seq<string>) {
    && (forall k :: 0 <= k < |wanted| ==> Resolved(names, labels, wanted[k]) == Ok(wanted[k]))
    && (forall j, k :: 0 <= j < k < |wanted| ==> wanted[j] != wanted[k])
  }

  lemma {:induction false} ResolvedAllKeepsExactlyStable(names: set<string>, labels: Labels, wanted: seq<string>)
    ensures ResolvedAll(names, labels, wanted) == Ok(wanted) <==> Stable(names, labels, wanted)
  {
    if wanted != [] {
      var n := |wanted| - 1;
      var front := wanted[..n];
      ResolvedAllKeepsExactlyStable(names, labels, front);
      assert wanted == front + [wanted[n]];
      var r := ResolvedAll(names, labels, front);
      if ResolvedAll(names, labels, wanted) == Ok(wanted) {
        assert r.Ok? && |r.value| <= n;
        assert r.value == front;
        assert forall j :: 0 <= j < n ==> wanted[j] == front[j];
      }
      if Stable(names, labels, wanted) {
        assert forall j :: 0 <= j < n ==> front[j] == wanted[j];
        assert wanted[n] !in front;
      }
    }
  }

  /** A catalog name that no other catalog name reads like, or a name that reads like none. */
  predicate IsPlain(names: set<string>, labels: Labels, name: string) {
    if name in names then
      forall n :: n in names && labels.normalized(n) == labels.normalized(name) ==> n == name
    else
      forall n :: n in names ==>
        && labels.normalized(n) != labels.normalized(name)
        && (labels.bare(n) != "" ==> labels.normalized(labels.bare(n)) != labels.normalized(name))
  }

  predicate ArePlain(names: set<string>, labels: Labels, wanted: seq<string>) {
    && (forall k :: 0 <= k < |wanted| ==> IsPlain(names, labels, wanted[k]))
    && (forall j, k :: 0 <= j < k < |wanted| ==> wanted[j] != wanted[k])
  }

  /** A name resolves to itself exactly when the catalog has no other reading of it. */
  lemma {:induction false} ResolvesToItself(names: set<string>, labels: Labels, name: string)
    ensures Resolved(names, labels, name) == Ok(name) <==> IsPlain(names, labels, name)
  {
    if name in names {
      CatalogBrandResolvesToItself(names, labels, name);
      assert name in Exact(names, labels, name);
      assert IsPlain(names, labels, name) ==> Exact(names, labels, name) == {name};
      assert forall n :: n in Exact(names, labels, name) <==> n in names && labels.normalized(n) == labels.normalized(name);
    } else {
      NoReading(names, labels, name);
      assert Candidates(names, labels, name) <= names;
    }
  }

  lemma {:induction false} NoReading(names: set<string>, labels: Labels, name: string)
    requires name !in names
    ensures Candidates(names, labels, name) == {} <==> IsPlain(names, labels, name)
  {
    var (exact, aliases) := (Exact(names, labels, name), Aliases(names, labels, name));
    assert exact == {} ==> forall n :: n in names ==> n !in exact;
    assert aliases == {} ==> forall n :: n in names ==> n !in aliases;
  }

  /** Resolution keeps a list exactly when its names are plain and do not repeat. */
  lemma {:induction false} ResolvedAllKeepsExactlyPlain(names: set<string>, labels: Labels, wanted: seq<string>)
    ensures ResolvedAll(names, labels, wanted) == Ok(wanted) <==> ArePlain(names, labels, wanted)
  {
    hide Resolved, IsPlain, ResolvedAll;
    ResolvedAllKeepsExactlyStable(names, labels, wanted);
    forall k | 0 <= k < |wanted|
      ensures Resolved(names, labels, wanted[k]) == Ok(wanted[k]) <==> IsPlain(names, labels, wanted[k])
    {
      ResolvesToItself(names, labels, wanted[k]);
    }
  }

  // ----- Applying a patch --------------------------------------------------------------------

  datatype Catalog = Catalog(names: set<string>, labels: Labels, categories: set<string>, parents: map<string, seq<string>>)

  datatype Profile = Profile(dislikedCategories: seq<string>)

  /** A session's conditions as the model sees them: its filters with the public exclusions only. */
  function PublicView(stored: Filters, publicExclusions: seq<string>): Filters {
    stored.(excludeCategories := publicExclusions)
  }

  predicate CategoriesKnown(catalog: Catalog, f: Filters) {
    forall id :: id in f.categories + f.excludeCategories ==> id in catalog.categories
  }

  predicate Switching(stored: Filters, c: Changes) {
    c.scope.Some? && c.scope.value != stored.scope
  }

  predicate SetsPrice(c: Changes) {
    c.minPrice.Some? || c.maxPrice.Some?
  }

  function Merged(prior: Filters, c: Changes, brands: Option<seq<string>>, excludeBrands: Option<seq<string>>, budget: BudgetAction): Filters {
    Filters(
      Or(c.scope, prior.scope), Or(brands, prior.brands), Or(excludeBrands, prior.excludeBrands), budget,
      Or(c.minPrice, prior.minPrice), Or(c.maxPrice, prior.maxPrice), Or(c.categories, prior.categories),
      Or(c.excludeCategories, prior.excludeCategories), Or(c.excludeProducts, prior.excludeProducts),
      Or(c.delivery, prior.productType))
  }

  ghost function ResolvedOption(catalog: Catalog, wanted: Option<seq<string>>): Result<Option<seq<string>>, PatchError> {
    if wanted.None? then Ok(None)
    else
      match ResolvedAll(catalog.names, catalog.labels, wanted.value)
      case Err(e) => Err(e)
      case Ok(brands) => Ok(Some(brands))
  }

  /** A patch against a session, up to the validated filters of the call. */
  ghost function ParseContext(c: Changes, stored: Filters, publicExclusions: seq<string>, catalog: Catalog): Result<Filters, PatchError> {
    if !ValidChanges(c) then Err(InvalidArguments)
    else
      var switching := Switching(stored, c);
      var prior := if switching then NO_FILTERS else PublicView(stored, publicExclusions);
      match ResolvedOption(catalog, c.brands)
      case Err(e) => Err(e)
      case Ok(brands) =>
        match ResolvedOption(catalog, c.excludeBrands)
        case Err(e) => Err(e)
        case Ok(excludeBrands) =>
          var merged := Merged(prior, c, brands, excludeBrands, if switching || SetsPrice(c) then Replace else Preserve);
          if !Ordered(merged.minPrice, merged.maxPrice) then Err(ClarificationNeeded)
          else if !Valid(merged) then Err(InvalidArguments)
          else if !CategoriesKnown(catalog, merged) then Err(UnknownCategory)
          else Ok(merged)
  }

  /** The flat form: a call that sets one price replaces the whole range. */
  function FlatChanges(c: Changes): Changes {
    if SetsPrice(c) then c.(minPrice := Some(Or(c.minPrice, None)), maxPrice := Some(Or(c.maxPrice, None))) else c
  }

  ghost function ParseFlat(c: Changes, stored: Filters, publicExclusions: seq<string>, catalog: Catalog): Result<Filters, PatchError> {
    if !ValidChanges(c) then Err(InvalidArguments) else ParseContext(FlatChanges(c), stored, publicExclusions, catalog)
  }

  /** The public conditions that a call leaves behind. */
  function PublicFilters(patch: Filters, prior: Filters): Filters {
    match patch.budget
    case Preserve =>
      if patch.scope == prior.scope then patch.(minPrice := prior.minPrice, maxPrice := prior.maxPrice)
      else patch.(minPrice := None, maxPrice := None)
    case Clear => patch.(minPrice := None, maxPrice := None)
    case Replace => patch
  }

  function Deduplicated(ids: seq<string>): (r: seq<string>)
    ensures forall id :: id in r <==> id in ids
    ensures forall j, k :: 0 <= j < k < |r| ==> r[j] != r[k]
  {
    if ids == [] then []
    else
      var front := Deduplicated(ids[..|ids| - 1]);
      if ids[|ids| - 1] in front then front else front + [ids[|ids| - 1]]
  }

  function Children(parents: map<string, seq<string>>, ids: seq<string>): seq<string> {
    if ids == [] then [] else (if ids[0] in parents then parents[ids[0]] else [ids[0]]) + Children(parents, ids[1..])
  }

  /** A parent category stands for its children. */
  function Expand(parents: map<string, seq<string>>, ids: seq<string>): seq<string> {
    Deduplicated(Children(parents, ids))
  }

  /** What the search applies; the recipient's private dislikes join the exclusions. */
  function SearchFilters(f: Filters, profile: Profile, catalog: Catalog): Result<Filters, PatchError> {
    var disliked := if f.scope.CurrentRecipient? then profile.dislikedCategories else [];
    if exists id :: id in disliked && id !in catalog.categories then Err(UnknownRecipientCategory)
    else
      var r := f.(
        categories := Expand(catalog.parents, f.categories),
        excludeCategories :=
          Expand(catalog.parents, Deduplicated(Expand(catalog.parents, f.excludeCategories) + disliked)));
      if |r.categories| <= 100 && |r.excludeCategories| <= 100 then Ok(r) else Err(InvalidArguments)
  }

  // ----- The diff ----------------------------------------------------------------------------

  /** The target with its budget made explicit. */
  function Wanted(previous: Filters, desired: Filters): Filters {
    var switching := previous.scope != desired.scope;
    match desired.budget
    case Preserve =>
      if switching then desired.(minPrice := None, maxPrice := None)
      else desired.(minPrice := previous.minPrice, maxPrice := previous.maxPrice)
    case Clear => desired.(minPrice := None, maxPrice := None)
    case Replace => desired
  }

  function Differs<T(==)>(value: T, base: T): Option<T> {
    if value != base then Some(value) else None
  }

  /** Only the conditions in which the target differs from its base. */
  function Difference(wanted: Filters, base: Filters, scope: Option<Scope>): Changes {
    Changes(
      scope,
      Differs(wanted.brands, base.brands), Differs(wanted.excludeBrands, base.excludeBrands),
      Differs(wanted.minPrice, base.minPrice), Differs(wanted.maxPrice, base.maxPrice),
      Differs(wanted.categories, base.categories), Differs(wanted.excludeCategories, base.excludeCategories),
      Differs(wanted.excludeProducts, base.excludeProducts), Differs(wanted.productType, base.productType))
  }

  /** The flat form names both prices as soon as it names one. */
  function WholeRange(c: Changes, wanted: Filters): Changes {
    if SetsPrice(c) then c.(minPrice := Some(wanted.minPrice), maxPrice := Some(wanted.maxPrice)) else c
  }

  function SparseTarget(desired: Filters, previous: Filters, flat: bool): Changes {
    var switching := previous.scope != desired.scope;
    var wanted := Wanted(previous, desired);
    var base := if switching then NO_FILTERS else previous;
    var delta := Difference(wanted, base, if switching then Some(wanted.scope) else None);
    if flat then WholeRange(delta, wanted) else delta
  }

  // ----- Main results ------------------------------------------------------------------------

  /** The conditions themselves, whatever budget action led to them. */
  function Conditions(f: Filters): Filters {
    f.(budget := Replace)
  }

  /** The conditions that a target stands for: its own, with the prices that its budget action keeps, clears or sets. */
  predicate MeetsTarget(f: Filters, previous: Filters, desired: Filters) {
    && f.scope == desired.scope && f.brands == desired.brands && f.excludeBrands == desired.excludeBrands
    && f.categories == desired.categories && f.excludeCategories == desired.excludeCategories
    && f.excludeProducts == desired.excludeProducts && f.productType == desired.productType
    && (if desired.budget == Replace then f.minPrice == desired.minPrice && f.maxPrice == desired.maxPrice
        else if desired.budget == Preserve && previous.scope == desired.scope
        then f.minPrice == previous.minPrice && f.maxPrice == previous.maxPrice
        else f.minPrice == None && f.maxPrice == None)
  }

  lemma {:induction false} MeetsExactlyTheWanted(f: Filters, previous: Filters, desired: Filters)
    ensures MeetsTarget(f, previous, desired) <==> Conditions(f) == Conditions(Wanted(previous, desired))
  {
  }

  /** Name resolution has nothing to change in the brand lists that the patch changes. */
  predicate BrandsSurvive(catalog: Catalog, desired: Filters, base: Filters) {
    && (desired.brands != base.brands ==> ArePlain(catalog.names, catalog.labels, desired.brands))
    && (desired.excludeBrands != base.excludeBrands ==> ArePlain(catalog.names, catalog.labels, desired.excludeBrands))
  }

  function BaseFor(stored: Filters, publicExclusions: seq<string>, desired: Filters): Filters {
    if stored.scope != desired.scope then NO_FILTERS else PublicView(stored, publicExclusions)
  }

  lemma {:induction false} ResolvedOptionIsIdentity(catalog: Catalog, wanted: seq<string>, base: seq<string>)
    ensures var r := ResolvedOption(catalog, Differs(wanted, base));
      r.Ok? && Or(r.value, base) == wanted <==> (wanted != base ==> ArePlain(catalog.names, catalog.labels, wanted))
  {
    hide ResolvedAll, ArePlain;
    ResolvedAllKeepsExactlyPlain(catalog.names, catalog.labels, wanted);
  }

  /** The patch, merged into its base, is the target but for what name resolution made of changed brand lists. */
  lemma {:induction false} PatchMergesToWanted(
    stored: Filters, publicExclusions: seq<string>, desired: Filters, flat: bool, brands: Option<seq<string>>, excludeBrands: Option<seq<string>>)
    ensures var previous := PublicView(stored, publicExclusions);
      var (c, base) := (SparseTarget(desired, previous, flat), BaseFor(stored, publicExclusions, desired));
      var merged := Merged(base, c, brands, excludeBrands, if Switching(stored, c) || SetsPrice(c) then Replace else Preserve);
      var wanted := Wanted(previous, desired)
        .(brands := Or(brands, base.brands), excludeBrands := Or(excludeBrands, base.excludeBrands));
      && Conditions(merged) == Conditions(wanted)
      && Conditions(PublicFilters(merged, stored)) == Conditions(wanted)
      && Switching(stored, c) == (stored.scope != desired.scope)
      && c.brands == Differs(desired.brands, base.brands) && c.excludeBrands == Differs(desired.excludeBrands, base.excludeBrands)
  {
  }

  lemma {:induction false} WantedIsValid(previous: Filters, desired: Filters)
    requires Valid(previous) && Valid(desired)
    ensures Valid(Wanted(previous, desired))
  {
  }

  lemma {:induction false} DifferenceIsValid(wanted: Filters, base: Filters, scope: Option<Scope>)
    requires Valid(wanted)
    ensures ValidChanges(Difference(wanted, base, scope))
  {
  }

  lemma {:induction false} WholeRangeIsFlat(c: Changes, wanted: Filters)
    requires Valid(wanted) && ValidChanges(c)
    ensures ValidChanges(WholeRange(c, wanted)) && FlatChanges(WholeRange(c, wanted)) == WholeRange(c, wanted)
  {
  }

  /** The patch is within the bounds of the arguments, and its flat form names the whole price range or none of it. */
  lemma {:induction false} PatchIsValid(stored: Filters, publicExclusions: seq<string>, desired: Filters, flat: bool)
    requires Valid(PublicView(stored, publicExclusions)) && Valid(desired)
    ensures var previous := PublicView(stored, publicExclusions);
      && ValidChanges(SparseTarget(desired, previous, flat))
      && (flat ==> FlatChanges(SparseTarget(desired, previous, flat)) == SparseTarget(desired, previous, flat))
      && Valid(Wanted(previous, desired))
  {
    hide Valid, ValidChanges, FlatChanges, Difference, Wanted, WholeRange;
    var previous := PublicView(stored, publicExclusions);
    var wanted := Wanted(previous, desired);
    var switching := previous.scope != desired.scope;
    var base := if switching then NO_FILTERS else previous;
    var scope := if switching then Some(wanted.scope) else None;
    WantedIsValid(previous, desired);
    DifferenceIsValid(wanted, base, scope);
    WholeRangeIsFlat(Difference(wanted, base, scope), wanted);
  }

  ghost function Applied(c: Changes, flat: bool, stored: Filters, publicExclusions: seq<string>, catalog: Catalog): Result<Filters, PatchError> {
    if flat then ParseFlat(c, stored, publicExclusions, catalog) else ParseContext(c, stored, publicExclusions, catalog)
  }

  lemma {:induction false} ResolvedOptionIsShort(catalog: Catalog, wanted: seq<string>, base: seq<string>)
    requires |wanted| <= 20 && |base| <= 20
    ensures var r := ResolvedOption(catalog, Differs(wanted, base)); r.Ok? ==> |Or(r.value, base)| <= 20
  {
  }

  /** What a valid patch is parsed to: its merged conditions, if its brands resolve and the merge is sound. */
  lemma {:induction false} ParsedShape(c: Changes, stored: Filters, publicExclusions: seq<string>, desired: Filters, catalog: Catalog)
    requires ValidChanges(c) && Switching(stored, c) == (stored.scope != desired.scope)
    ensures var (parsed, brands, excludeBrands) := (
        ParseContext(c, stored, publicExclusions, catalog), ResolvedOption(catalog, c.brands), ResolvedOption(catalog, c.excludeBrands));
      if brands.Ok? && excludeBrands.Ok? then
        var merged := Merged(
          BaseFor(stored, publicExclusions, desired), c, brands.value, excludeBrands.value,
          if Switching(stored, c) || SetsPrice(c) then Replace else Preserve);
        && (parsed.Ok? <==> Valid(merged) && CategoriesKnown(catalog, merged))
        && (parsed.Ok? ==> parsed.value == merged)
      else parsed.Err?
  {
    hide ValidChanges, ResolvedOption, Merged, CategoriesKnown, Switching;
  }

  /** Conditions that differ from valid ones in brand lists of bounded length only. */
  lemma {:induction false} BrandsDecide(merged: Filters, wanted: Filters, desired: Filters, previous: Filters, catalog: Catalog)
    requires Valid(wanted) && wanted == Wanted(previous, desired)
    requires |merged.brands| <= 20 && |merged.excludeBrands| <= 20
    requires Conditions(merged) == Conditions(wanted.(brands := merged.brands, excludeBrands := merged.excludeBrands))
    ensures Valid(merged) && (CategoriesKnown(catalog, merged) <==> CategoriesKnown(catalog, desired))
    ensures wanted.brands == desired.brands && wanted.excludeBrands == desired.excludeBrands
  {
    hide Wanted, CategoriesKnown;
    WantedKeepsTheRest(previous, desired);
    SameCategories(catalog, merged, desired);
  }

  lemma {:induction false} SameCategories(catalog: Catalog, a: Filters, b: Filters)
    requires a.categories == b.categories && a.excludeCategories == b.excludeCategories
    ensures CategoriesKnown(catalog, a) <==> CategoriesKnown(catalog, b)
  {
  }

  /** Applying the patch succeeds, and leaves the target but for its brand lists as they resolve. */
  lemma {:induction false} PatchedConditions(
    stored: Filters, publicExclusions: seq<string>, desired: Filters, catalog: Catalog, flat: bool)
    requires Valid(PublicView(stored, publicExclusions)) && Valid(desired)
    ensures var previous := PublicView(stored, publicExclusions);
      var (c, base, wanted) := (SparseTarget(desired, previous, flat), BaseFor(stored, publicExclusions, desired), Wanted(previous, desired));
      var (parsed, brands, excludeBrands) := (
        ParseContext(c, stored, publicExclusions, catalog), ResolvedOption(catalog, c.brands), ResolvedOption(catalog, c.excludeBrands));
      && (parsed.Ok? <==> brands.Ok? && excludeBrands.Ok? && CategoriesKnown(catalog, desired))
      && (parsed.Ok? ==>
            Conditions(PublicFilters(parsed.value, stored))
            == Conditions(wanted.(brands := Or(brands.value, base.brands), excludeBrands := Or(excludeBrands.value, base.excludeBrands))))
      && c.brands == Differs(desired.brands, base.brands) && c.excludeBrands == Differs(desired.excludeBrands, base.excludeBrands)
  {
    hide Valid, ParseContext, Merged, SparseTarget, PublicFilters, Wanted, ResolvedOption, ValidChanges, CategoriesKnown, Switching, SetsPrice;
    var previous := PublicView(stored, publicExclusions);
    var (c, base) := (SparseTarget(desired, previous, flat), BaseFor(stored, publicExclusions, desired));
    PatchIsValid(stored, publicExclusions, desired, flat);
    PatchMergesToWanted(stored, publicExclusions, desired, flat, None, None);
    ParsedShape(c, stored, publicExclusions, desired, catalog);
    var (brands, excludeBrands) := (ResolvedOption(catalog, c.brands), ResolvedOption(catalog, c.excludeBrands));
    if brands.Ok? && excludeBrands.Ok? {
      ResolvedBrandsAreShort(stored, publicExclusions, desired, catalog);
      PatchMergesToWanted(stored, publicExclusions, desired, flat, brands.value, excludeBrands.value);
      var merged := Merged(base, c, brands.value, excludeBrands.value, if Switching(stored, c) || SetsPrice(c) then Replace else Preserve);
      BrandsDecide(merged, Wanted(previous, desired), desired, previous, catalog);
    }
  }

  lemma {:induction false} ResolvedBrandsAreShort(stored: Filters, publicExclusions: seq<string>, desired: Filters, catalog: Catalog)
    requires Valid(PublicView(stored, publicExclusions)) && Valid(desired)
    ensures var base := BaseFor(stored, publicExclusions, desired);
      var (brands, excludeBrands) := (ResolvedOption(catalog, Differs(desired.brands, base.brands)),
                                      ResolvedOption(catalog, Differs(desired.excludeBrands, base.excludeBrands)));
      && (brands.Ok? ==> |Or(brands.value, base.brands)| <= 20)
      && (excludeBrands.Ok? ==> |Or(excludeBrands.value, base.excludeBrands)| <= 20)
  {
    hide ResolvedOption;
    var base := BaseFor(stored, publicExclusions, desired);
    ResolvedOptionIsShort(catalog, desired.brands, base.brands);
    ResolvedOptionIsShort(catalog, desired.excludeBrands, base.excludeBrands);
  }

  /** A flat patch is read as it stands. */
  lemma {:induction false} FlatReadsAsNested(
    stored: Filters, publicExclusions: seq<string>, desired: Filters, catalog: Catalog, flat: bool)
    requires Valid(PublicView(stored, publicExclusions)) && Valid(desired)
    ensures var c := SparseTarget(desired, PublicView(stored, publicExclusions), flat);
      Applied(c, flat, stored, publicExclusions, catalog) == ParseContext(c, stored, publicExclusions, catalog)
  {
    hide Valid, ValidChanges, FlatChanges, SparseTarget, ParseContext;
    PatchIsValid(stored, publicExclusions, desired, flat);
  }

  /**
   For any stored public conditions and any valid target, in the nested and in the flat form, on a
   switch of recipient and with a kept, cleared or replaced budget: applying the sparse patch
   leaves exactly the target's public conditions if and only if every brand list that the patch
   changes is free of repetitions and of names with another reading in the catalog, and the
   target's categories are in the catalog.
   */
  lemma {:induction false} SparsePatchReachesTarget(
    stored: Filters, publicExclusions: seq<string>, desired: Filters, catalog: Catalog, flat: bool)
    requires Valid(PublicView(stored, publicExclusions)) && Valid(desired)
    ensures var previous := PublicView(stored, publicExclusions);
      var parsed := Applied(SparseTarget(desired, previous, flat), flat, stored, publicExclusions, catalog);
      (parsed.Ok? && MeetsTarget(PublicFilters(parsed.value, stored), previous, desired))
      <==>
      (BrandsSurvive(catalog, desired, BaseFor(stored, publicExclusions, desired)) && CategoriesKnown(catalog, desired))
  {
    hide Valid, ArePlain, ParseContext, Applied, SparseTarget, PublicFilters, Wanted, ResolvedOption, CategoriesKnown, MeetsTarget;
    var base := BaseFor(stored, publicExclusions, desired);
    FlatReadsAsNested(stored, publicExclusions, desired, catalog, flat);
    PatchedConditions(stored, publicExclusions, desired, catalog, flat);
    ResolvedOptionIsIdentity(catalog, desired.brands, base.brands);
    ResolvedOptionIsIdentity(catalog, desired.excludeBrands, base.excludeBrands);
    WantedKeepsTheRest(PublicView(stored, publicExclusions), desired);
    var parsed := Applied(SparseTarget(desired, PublicView(stored, publicExclusions), flat), flat, stored, publicExclusions, catalog);
    if parsed.Ok? {
      MeetsExactlyTheWanted(PublicFilters(parsed.value, stored), PublicView(stored, publicExclusions), desired);
    }
  }

  /** Making the budget explicit changes nothing but the prices. */
  lemma {:induction false} WantedKeepsTheRest(previous: Filters, desired: Filters)
    ensures Wanted(previous, desired).(minPrice := desired.minPrice, maxPrice := desired.maxPrice) == desired
  {
  }

  // ----- Private exclusions ------------------------------------------------------------------

  function OwnChildren(parents: map<string, seq<string>>, id: string): seq<string> {
    if id in parents then parents[id] else [id]
  }

  lemma {:induction false} ChildrenOf(parents: map<string, seq<string>>, ids: seq<string>, child: string)
    ensures child in Children(parents, ids) <==> exists k :: 0 <= k < |ids| && child in OwnChildren(parents, ids[k])
  {
    if ids != [] {
      ChildrenOf(parents, ids[1..], child);
      if child in OwnChildren(parents, ids[0]) {
        assert child in Children(parents, ids);
      }
      if exists k :: 0 <= k < |ids| && child in OwnChildren(parents, ids[k]) {
        var k :| 0 <= k < |ids| && child in OwnChildren(parents, ids[k]);
        assert k > 0 ==> ids[1..][k - 1] == ids[k];
      }
      if exists k :: 0 <= k < |ids[1..]| && child in OwnChildren(parents, ids[1..][k]) {
        var k :| 0 <= k < |ids[1..]| && child in OwnChildren(parents, ids[1..][k]);
        assert ids[k + 1] == ids[1..][k];
      }
    }
  }

  /**
   The search excludes every category the recipient dislikes, down to its children, for the
   current recipient only; the public conditions stay the patch's own.
   */
  lemma {:induction false} DislikesAreExcludedPrivately(f: Filters, profile: Profile, catalog: Catalog, disliked: string, child: string)
    requires SearchFilters(f, profile, catalog).Ok? && disliked in profile.dislikedCategories
    requires child in OwnChildren(catalog.parents, disliked)
    ensures f.scope.CurrentRecipient? ==> child in SearchFilters(f, profile, catalog).value.excludeCategories
    ensures !f.scope.CurrentRecipient? ==> SearchFilters(f, profile, catalog) == SearchFilters(f, Profile([]), catalog)
  {
    if f.scope.CurrentRecipient? {
      var all := Deduplicated(Expand(catalog.parents, f.excludeCategories) + profile.dislikedCategories);
      assert disliked in all;
      var k :| 0 <= k < |all| && all[k] == disliked;
      ChildrenOf(catalog.parents, all, child);
    }
  }

  /** A category is excluded by its own id or by its parent's. */
  predicate Covers(parents: map<string, seq<string>>, ids: seq<string>, id: string) {
    exists k :: 0 <= k < |ids| && if ids[k] in parents then id in parents[ids[k]] else id == ids[k]
  }

  lemma {:induction false} ExpansionCovers(parents: map<string, seq<string>>, ids: seq<string>, id: string)
    ensures id in Expand(parents, ids) <==> Covers(parents, ids, id)
  {
    ChildrenOf(parents, ids, id);
  }

  /**
   What a search applies: it asks for exactly the categories that the call's own ones stand for, and
   excludes exactly what the call's exclusions stand for, taken down once more together with the
   current recipient's dislikes; everything else is the call's.
   */
  lemma {:induction false} SearchAppliesExactly(f: Filters, profile: Profile, catalog: Catalog, id: string)
    requires SearchFilters(f, profile, catalog).Ok?
    ensures var r := SearchFilters(f, profile, catalog).value;
      && r == f.(categories := r.categories, excludeCategories := r.excludeCategories)
      && (id in r.categories <==> Covers(catalog.parents, f.categories, id))
      && (id in r.excludeCategories <==>
            || (f.scope.CurrentRecipient? && Covers(catalog.parents, profile.dislikedCategories, id))
            || exists child :: Covers(catalog.parents, f.excludeCategories, child) && Covers(catalog.parents, [child], id))
  {
    hide Children;
    var disliked := if f.scope.CurrentRecipient? then profile.dislikedCategories else [];
    var expanded := Expand(catalog.parents, f.excludeCategories);
    var all := Deduplicated(expanded + disliked);
    ExpansionCovers(catalog.parents, f.categories, id);
    ExpansionCovers(catalog.parents, all, id);
    CoversBySome(catalog.parents, all, id);
    CoversBySome(catalog.parents, disliked, id);
    assert forall child :: child in all <==> child in expanded || child in disliked;
    forall child ensures child in expanded <==> Covers(catalog.parents, f.excludeCategories, child) {
      ExpansionCovers(catalog.parents, f.excludeCategories, child);
    }
  }

  lemma {:induction false} CoversBySome(parents: map<string, seq<string>>, ids: seq<string>, id: string)
    ensures Covers(parents, ids, id) <==> exists one :: one in ids && Covers(parents, [one], id)
  {
    if Covers(parents, ids, id) {
      var k :| 0 <= k < |ids| && if ids[k] in parents then id in parents[ids[k]] else id == ids[k];
      assert [ids[k]][0] == ids[k] && Covers(parents, [ids[k]], id);
    }
    if one :| one in ids && Covers(parents, [one], id) {
      var k :| 0 <= k < |ids| && ids[k] == one;
    }
  }

  /** A name that is no catalog label and reads like exactly one catalog name without its parentheses is that name. */
  lemma {:induction false} AliasResolves(names: set<string>, labels: Labels, name: string, brand: string)
    requires brand in names && labels.bare(brand) != "" && labels.normalized(labels.bare(brand)) == labels.normalized(name)
    requires forall n :: n in names ==> labels.normalized(n) != labels.normalized(name)
    requires forall n :: n in names && labels.bare(n) != "" && labels.normalized(labels.bare(n)) == labels.normalized(name) ==> n == brand
    ensures Resolved(names, labels, name) == Ok(brand)
  {
    assert Exact(names, labels, name) == {};
    assert Aliases(names, labels, name) == {brand};
  }

  /** A name with exactly one catalog label that reads like it is that label. */
  lemma {:induction false} LabelResolves(names: set<string>, labels: Labels, name: string, brand: string)
    requires brand in names && labels.normalized(brand) == labels.normalized(name)
    requires forall n :: n in names && labels.normalized(n) == labels.normalized(name) ==> n == brand
    ensures Resolved(names, labels, name) == Ok(brand)
  {
    assert brand in Exact(names, labels, name);
    assert Exact(names, labels, name) == {brand};
  }

  // ----- Any patch ---------------------------------------------------------------------------

  /**
   A list resolves exactly when each of its names does, to the brands that they name, each brand
   once.
   */
  lemma {:induction false} WhatAListResolvesTo(names: set<string>, labels: Labels, wanted: seq<string>)
    ensures var r := ResolvedAll(names, labels, wanted);
      && (r.Ok? <==> forall k :: 0 <= k < |wanted| ==> Resolved(names, labels, wanted[k]).Ok?)
      && (r.Ok? ==>
            && (forall brand :: brand in r.value <==>
                  exists k :: 0 <= k < |wanted| && Resolved(names, labels, wanted[k]) == Ok(brand))
            && forall j, k :: 0 <= j < k < |r.value| ==> r.value[j] != r.value[k])
  {
    hide Resolved;
    if wanted != [] {
      var n := |wanted| - 1;
      var front := wanted[..n];
      WhatAListResolvesTo(names, labels, front);
      assert forall k :: 0 <= k < n ==> front[k] == wanted[k];
      var (before, r) := (ResolvedAll(names, labels, front), ResolvedAll(names, labels, wanted));
      if r.Ok? {
        forall brand
          ensures brand in r.value <==> exists k :: 0 <= k < |wanted| && Resolved(names, labels, wanted[k]) == Ok(brand)
        {
          assert brand in before.value <==> exists k :: 0 <= k < n && Resolved(names, labels, front[k]) == Ok(brand);
          if k :| 0 <= k < |wanted| && Resolved(names, labels, wanted[k]) == Ok(brand) {
            assert k < n ==> Resolved(names, labels, front[k]) == Ok(brand);
          }
          if k :| 0 <= k < n && Resolved(names, labels, front[k]) == Ok(brand) {
            assert Resolved(names, labels, wanted[k]) == Ok(brand);
          }
        }
      }
    }
  }

  /** What a field has after a patch: the patch's value if it names one, else the one before. */
  predicate TakesOver<T(==)>(after: T, change: Option<T>, before: T) {
    after == match change case Some(value) => value case None => before
  }

  /**
   A patch that is accepted changes the conditions that it names and keeps the others; on a switch of
   recipient there are none to keep. The nested form sets one price and keeps the other.
   */
  lemma {:induction false} PatchChangesWhatItNames(c: Changes, stored: Filters, publicExclusions: seq<string>, catalog: Catalog)
    requires ParseContext(c, stored, publicExclusions, catalog).Ok?
    ensures var (f, before) := (PublicFilters(ParseContext(c, stored, publicExclusions, catalog).value, stored),
                                if c.scope.Some? && c.scope.value != stored.scope then NO_FILTERS else PublicView(stored, publicExclusions));
      && f.scope == (if c.scope.Some? then c.scope.value else stored.scope)
      && TakesOver(f.minPrice, c.minPrice, before.minPrice) && TakesOver(f.maxPrice, c.maxPrice, before.maxPrice)
      && TakesOver(f.categories, c.categories, before.categories)
      && TakesOver(f.excludeCategories, c.excludeCategories, before.excludeCategories)
      && TakesOver(f.excludeProducts, c.excludeProducts, before.excludeProducts)
      && TakesOver(f.productType, c.delivery, before.productType)
      && (c.brands.None? ==> f.brands == before.brands) && (c.excludeBrands.None? ==> f.excludeBrands == before.excludeBrands)
      && (c.brands.Some? ==> ResolvedAll(catalog.names, catalog.labels, c.brands.value) == Ok(f.brands))
      && (c.excludeBrands.Some? ==> ResolvedAll(catalog.names, catalog.labels, c.excludeBrands.value) == Ok(f.excludeBrands))
  {
    hide ResolvedAll, ValidChanges, Valid, CategoriesKnown;
  }

  /** The flat form reads a patch that names one price only as clearing the other. */
  lemma {:induction false} FlatPatchReplacesTheRange(c: Changes, stored: Filters, publicExclusions: seq<string>, catalog: Catalog)
    requires ParseFlat(c, stored, publicExclusions, catalog).Ok?
    ensures var f := PublicFilters(ParseFlat(c, stored, publicExclusions, catalog).value, stored);
      c.minPrice.Some? || c.maxPrice.Some? ==>
        && f.minPrice == (if c.minPrice.Some? then c.minPrice.value else None)
        && f.maxPrice == (if c.maxPrice.Some? then c.maxPrice.value else None)
  {
    hide ParseContext, PublicFilters, ValidChanges;
    PatchChangesWhatItNames(FlatChanges(c), stored, publicExclusions, catalog);
  }
}
