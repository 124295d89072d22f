/**
 Which characters of a native tool call are explanatory prose, and which completion tokens lose
 their label for it.
 */
module DecisionMasking {
  import opened Outcomes
  import opened NativeGrammar
  import opened NativeParsers
  import opened NativeWindows
  import opened SpanTheorems
  import opened ProseFields

  /** A call in a target: the tool it names and its arguments, which stand at `at`. */
  datatype ToolCall = ToolCall(tool: Tool, text: Text, at: nat)

  datatype ShapeError =
    | UnregisteredTool
    | InvalidInspectSearchShape
    | InvalidListGiftsShape
    | InvalidShowGiftsIdShape
    | InvalidShowGiftsProseShape
    | InvalidShowGiftsReason
    | InvalidMessageShape
    | NativeFault(fault: Fault)
    | InvalidArgumentTail
    | ParsersDisagree
    | ProseNotDelimited

  // ----- Prose fields ------------------------------------------------------------------------

  const MESSAGE := Key(Codes("message"))
  const PRODUCTS := Key(Codes("products"))
  const PRODUCT_IDS := Key(Codes("product_ids"))
  const REASON := Key(Codes("reason"))
  const FORMAT := Key(Codes("format"))
  const ONE_PER_BRAND := Key(Codes("one_per_brand"))

  function Field(args: Value, step: Step): Option<Value> {
    At(args, [step])
  }

  predicate OnlyFields(args: Value, allowed: set<Step>)
    requires args.Container?
  {
    forall k :: 0 <= k < |args.members| ==> args.members[k].step in allowed
  }

  predicate IdList(value: Option<Value>, most: nat) {
    && IsList(value) && |value.value.members| <= most
    && forall k :: 0 <= k < |value.value.members| ==>
         var id := value.value.members[k].value; id.Atom? && id.scalar.Str? && id.scalar.text != []
  }

  predicate ListGiftsShape(args: Value)
    requires args.Container?
  {
    && OnlyFields(args, {PRODUCT_IDS, FORMAT, ONE_PER_BRAND, MESSAGE})
    && IdList(Field(args, PRODUCT_IDS), 30)
    && (Field(args, FORMAT).None? || Field(args, FORMAT).value in {Atom(Str(Codes("names"))), Atom(Str(Codes("brief")))})
    && (Field(args, ONE_PER_BRAND).None? || Field(args, ONE_PER_BRAND).value in {Atom(Boolean(true)), Atom(Boolean(false))})
  }

  predicate HasReason(product: Value) {
    product.Container? && product.obj && IsText(Field(product, REASON))
  }

  function ReasonPath(k: nat): Path {
    [PRODUCTS, Index(k), REASON]
  }

  /** The paths of the prose fields of one call, message first; a wrong shape is refused. */
  function ProsePaths(tool: Tool, args: Value): (r: Result<seq<Path>, ShapeError>)
    requires args.Container? && args.obj
    ensures r.Err? ==> !r.error.ParsersDisagree? && !r.error.ProseNotDelimited?
  {
    match tool
    case Unregistered => Err(UnregisteredTool)
    case GiftContext => Ok([])
    case RecallGift => Ok([])
    case InspectSearch => if args.members != [] then Err(InvalidInspectSearchShape) else Ok([])
    case ListGifts => if !ListGiftsShape(args) then Err(InvalidListGiftsShape) else MessagePath(args)
    case ShowGifts =>
      if Field(args, PRODUCT_IDS).Some? && OnlyFields(args, {PRODUCT_IDS, MESSAGE}) then
        if !IdList(Field(args, PRODUCT_IDS), 3) then Err(InvalidShowGiftsIdShape) else MessagePath(args)
      else if !IsText(Field(args, MESSAGE)) || !IsList(Field(args, PRODUCTS)) then Err(InvalidShowGiftsProseShape)
      else
        var products := Field(args, PRODUCTS).value.members;
        if exists k :: 0 <= k < |products| && !HasReason(products[k].value) then Err(InvalidShowGiftsReason)
        else Ok([[MESSAGE]] + seq(|products|, k requires 0 <= k < |products| => ReasonPath(k)))
  }

  function MessagePath(args: Value): Result<seq<Path>, ShapeError> {
    if Field(args, MESSAGE).None? then Ok([])
    else if !IsText(Field(args, MESSAGE)) then Err(InvalidMessageShape)
    else Ok([[MESSAGE]])
  }

  /** The length of the delimiters that a text has on both sides, in either notation. */
  function Delimiter(piece: Text): (n: Option<nat>)
    ensures n.Some? ==> 2 * n.value <= |piece|
  {
    if |piece| >= 10 && StandsAt(piece, 0, MARKER) && StandsAt(piece, |piece| - 5, MARKER) then Some(5)
    else if |piece| >= 2 && piece[0] == QUOTE && piece[|piece| - 1] == QUOTE then Some(1)
    else None
  }

  /** What stands between the delimiters. */
  function Interior(text: Text, span: Span): Option<Span>
    requires span.start <= span.stop <= |text|
  {
    match Delimiter(text[span.start..span.stop])
    case None => None
    case Some(n) => Some(Span(span.start + n, span.stop - n))
  }

  predicate IsArguments(text: Text, cs: Charset, p: Parsed)
    requires p.End() <= |text|
  {
    p.End() + Skip(text, p.End(), cs) == |text| && ValueOf(p.tree).Container? && ValueOf(p.tree).obj
  }

  /** What the arguments of one call read as: a fault of the grammar, something else than an object, or an object. */
  function CallArguments(call: ToolCall, cs: Charset): (r: Result<Value, ShapeError>)
    ensures r.Ok? ==> r.value.Container? && r.value.obj
  {
    var parsed := Parse(call.text, 0, 0, cs);
    if parsed.Err? then Err(NativeFault(parsed.error))
    else if !IsArguments(call.text, cs, parsed.value) then Err(InvalidArgumentTail)
    else Ok(ValueOf(parsed.value.tree))
  }

  function CallPaths(call: ToolCall, cs: Charset): Result<seq<Path>, ShapeError>
    requires CallArguments(call, cs).Ok?
  {
    ProsePaths(call.tool, CallArguments(call, cs).value)
  }

  ghost predicate AllRead(calls: seq<ToolCall>, cs: Charset) {
    forall c :: 0 <= c < |calls| ==> CallArguments(calls[c], cs).Ok?
  }

  /** The native parser refuses this call and no earlier one. */
  ghost predicate IsFirstFault(calls: seq<ToolCall>, cs: Charset, c: nat, error: ShapeError) {
    c < |calls| && AllRead(calls[..c], cs) && CallArguments(calls[c], cs) == Err(error)
  }

  /** Every call was read; the fields of this call are refused, and those of no earlier one. */
  ghost predicate IsFirstMisshape(calls: seq<ToolCall>, cs: Charset, c: nat, error: ShapeError) {
    && AllRead(calls, cs) && c < |calls| && CallPaths(calls[c], cs) == Err(error)
    && forall d :: 0 <= d < c ==> CallPaths(calls[d], cs).Ok?
  }

  /** A fault of any call comes before a wrong shape of any call. */
  ghost predicate IsRefusal(calls: seq<ToolCall>, cs: Charset, error: ShapeError) {
    (exists c: nat :: IsFirstFault(calls, cs, c, error)) || (exists c: nat :: IsFirstMisshape(calls, cs, c, error))
  }

  ghost predicate IsCallProse(call: ToolCall, cs: Charset, interiors: seq<Span>) {
    && CallArguments(call, cs).Ok? && CallPaths(call, cs).Ok?
    && AreInteriors(call.text, cs, CallArguments(call, cs).value, CallPaths(call, cs).value, interiors)
  }

  function Shifted(spans: seq<Span>, at: nat): seq<Span> {
    seq(|spans|, k requires 0 <= k < |spans| => Span(spans[k].start + at, spans[k].stop + at))
  }

  /** The spans of all calls, call by call, where they stand in the target. */
  function Gathered(calls: seq<ToolCall>, pieces: seq<seq<Span>>): seq<Span>
    requires |calls| == |pieces|
  {
    if calls == [] then []
    else var n := |calls| - 1; Gathered(calls[..n], pieces[..n]) + Shifted(pieces[n], calls[n].at)
  }

  ghost predicate ArePieces(calls: seq<ToolCall>, cs: Charset, pieces: seq<seq<Span>>) {
    |pieces| == |calls| && forall c :: 0 <= c < |calls| ==> IsCallProse(calls[c], cs, pieces[c])
  }

  /** The omitted spans of a target: the interiors of the prose fields of every call. */
  ghost predicate AreOmitted(calls: seq<ToolCall>, cs: Charset, omitted: seq<Span>) {
    exists pieces :: ArePieces(calls, cs, pieces) && omitted == Gathered(calls, pieces)
  }

  /** The arguments of every call read as an object of the shape that its tool takes. */
  ghost predicate AreAccepted(calls: seq<ToolCall>, cs: Charset) {
    forall c :: 0 <= c < |calls| ==> CallArguments(calls[c], cs).Ok? && IsWellShaped(calls[c].tool, CallArguments(calls[c], cs).value)
  }

  /** The native parser on the arguments of every call. */
  method ReadCalls(calls: seq<ToolCall>, cs: Charset) returns (r: Result<seq<Value>, ShapeError>)
    ensures r.Ok? ==> |r.value| == |calls| && forall c :: 0 <= c < |calls| ==> CallArguments(calls[c], cs) == Ok(r.value[c])
    ensures r.Err? ==> exists c: nat :: IsFirstFault(calls, cs, c, r.error)
  {
    hide Parse, Skip;
    var args: seq<Value> := [];
    for c := 0 to |calls|
      invariant |args| == c && forall d :: 0 <= d < c ==> CallArguments(calls[d], cs) == Ok(args[d])
    {
      var parser := new NativeValueParser(calls[c].text, cs);
      var value := parser.Value(0);
      if value.Err? {
        assert IsFirstFault(calls, cs, c, NativeFault(value.error));
        return Err(NativeFault(value.error));
      }
      parser.Space();
      if parser.index != |calls[c].text| || !value.value.Container? || !value.value.obj {
        assert IsFirstFault(calls, cs, c, InvalidArgumentTail);
        return Err(InvalidArgumentTail);
      }
      args := args + [value.value];
    }
    return Ok(args);
  }

  /** The span parser on the arguments of one call, then the interiors of its prose fields. */
  method OmittedProse(call: ToolCall, cs: Charset, args: Value) returns (r: Result<seq<Span>, ShapeError>)
    requires CallArguments(call, cs) == Ok(args)
    ensures r.Err? ==> CallPaths(call, cs) == Err(r.error)
    ensures r.Ok? ==> IsCallProse(call, cs, r.value)
  {
    hide Parse, Skip, SpansOf, ProsePaths, AreInteriors;
    var parser := new SpanParser(call.text, cs);
    var again := parser.Value(0, []);
    parser.base.Space();
    if again != Ok(args) || parser.base.index != |call.text| { return Err(ParsersDisagree); }
    assert map[] + RecordedSpans(call.text, 0, 0, cs) == RecordedSpans(call.text, 0, 0, cs);
    var paths := ProsePaths(call.tool, args);
    if paths.Err? { return Err(paths.error); }
    r := Interiors(call.tool, call.text, cs, paths.value, parser.spans);
  }

  /** The omitted spans of a target with these calls, or why it is refused. */
  method OmittedSpans(calls: seq<ToolCall>, cs: Charset) returns (r: Result<seq<Span>, ShapeError>)
    ensures r.Ok? <==> AreAccepted(calls, cs)
    ensures r.Ok? ==> AreOmitted(calls, cs, r.value)
    ensures r.Err? ==> IsRefusal(calls, cs, r.error)
    ensures r != Err(ParsersDisagree) && r != Err(ProseNotDelimited)
  {
    hide CallArguments, CallPaths, IsCallProse;
    var args := ReadCalls(calls, cs);
    if args.Err? {
      FaultIsNoDisagreement(calls, cs, args.error);
      RefusedIsNotAccepted(calls, cs, args.error);
      return Err(args.error);
    }
    var omitted: seq<Span> := [];
    ghost var pieces: seq<seq<Span>> := [];
    for c := 0 to |calls|
      invariant ArePieces(calls[..c], cs, pieces) && omitted == Gathered(calls[..c], pieces)
    {
      var interiors := OmittedProse(calls[c], cs, args.value[c]);
      if interiors.Err? {
        PiecesHavePaths(calls[..c], cs, pieces);
        assert IsFirstMisshape(calls, cs, c, interiors.error);
        MisshapeIsNoDisagreement(calls[c], cs);
        RefusedIsNotAccepted(calls, cs, interiors.error);
        return Err(interiors.error);
      }
      assert calls[..c + 1][..c] == calls[..c] && (pieces + [interiors.value])[..c] == pieces;
      pieces := pieces + [interiors.value];
      omitted := omitted + Shifted(interiors.value, calls[c].at);
    }
    assert calls[..|calls|] == calls;
    PiecesAreAccepted(calls, cs, pieces);
    return Ok(omitted);
  }

  lemma {:induction false} FaultIsNoDisagreement(calls: seq<ToolCall>, cs: Charset, error: ShapeError)
    requires exists c: nat :: IsFirstFault(calls, cs, c, error)
    ensures error != ParsersDisagree && error != ProseNotDelimited
  {
    hide Parse, IsArguments;
  }

  lemma {:induction false} MisshapeIsNoDisagreement(call: ToolCall, cs: Charset)
    requires CallArguments(call, cs).Ok? && CallPaths(call, cs).Err?
    ensures CallPaths(call, cs).error != ParsersDisagree && CallPaths(call, cs).error != ProseNotDelimited
  {
    hide Parse, IsArguments, ProsePaths;
  }

  lemma {:induction false} PiecesHavePaths(calls: seq<ToolCall>, cs: Charset, pieces: seq<seq<Span>>)
    requires ArePieces(calls, cs, pieces)
    ensures forall c :: 0 <= c < |calls| ==> CallArguments(calls[c], cs).Ok? && CallPaths(calls[c], cs).Ok?
  {
    hide CallArguments, CallPaths, AreInteriors;
  }

  method Interiors(tool: Tool, text: Text, cs: Charset, paths: seq<Path>, spans: map<Path, Span>) returns (r: Result<seq<Span>, ShapeError>)
    requires Parse(text, 0, 0, cs).Ok? && spans == RecordedSpans(text, 0, 0, cs)
    requires var args := ValueOf(Parse(text, 0, 0, cs).value.tree); args.Container? && args.obj && ProsePaths(tool, args) == Ok(paths)
    ensures r.Ok? && AreInteriors(text, cs, ValueOf(Parse(text, 0, 0, cs).value.tree), paths, r.value)
  {
    hide Parse, RecordedSpans, ProsePaths, Interior, IsInterior;
    var omitted: seq<Span> := [];
    for k := 0 to |paths|
      invariant AreInteriors(text, cs, ValueOf(Parse(text, 0, 0, cs).value.tree), paths[..k], omitted)
    {
      ProseIsDelimited(tool, text, cs, k);
      var interior := Interior(text, spans[paths[k]]);
      if interior.None? { return Err(ProseNotDelimited); }
      omitted := omitted + [interior.value];
    }
    assert paths[..|paths|] == paths;
    return Ok(omitted);
  }

  /** Each omitted span lies between the delimiters of the string at its path, and is all of it. */
  ghost predicate IsInterior(text: Text, cs: Charset, args: Value, path: Path, omitted: Span) {
    var spans := RecordedSpans(text, 0, 0, cs);
    && path in spans && IsText(At(args, path))
    && spans[path].start < omitted.start <= omitted.stop < spans[path].stop <= |text|
    && ((text[spans[path].start..omitted.start] == MARKER && text[omitted.stop..spans[path].stop] == MARKER
         && text[omitted.start..omitted.stop] == At(args, path).value.scalar.text)
        || (text[spans[path].start..omitted.start] == [QUOTE] && text[omitted.stop..spans[path].stop] == [QUOTE]))
  }

  ghost predicate AreInteriors(text: Text, cs: Charset, args: Value, paths: seq<Path>, omitted: seq<Span>) {
    |omitted| == |paths| && forall k :: 0 <= k < |paths| ==> IsInterior(text, cs, args, paths[k], omitted[k])
  }

  // ----- Strings and their delimiters --------------------------------------------------------

  /** A text that is one value has delimiters exactly when the value is a string. */
  lemma {:induction false} OnlyStringsAreDelimited(text: Text, value: Value, cs: Charset)
    requires ReadsAs(text, value, cs)
    ensures Delimiter(text).Some? <==> value.Atom? && value.scalar.Str?
    ensures Delimiter(text) == Some(5) ==> text[5..|text| - 5] == value.scalar.text
  {
    hide ContainerAt, NumberAt, Scan, Find;
    assert text != [] && StandsAt(text, 0, MARKER) ==> text[0] == text[0..5][0];
    if !OpensContainer(text, 0) && OpensString(text, 0) {
      StringEndsDelimited(text);
    }
  }

  lemma {:induction false} StringEndsDelimited(text: Text)
    requires OpensString(text, 0) && StringAt(text, 0).Ok? && StringAt(text, 0).value.1 == |text|
    ensures StandsAt(text, 0, MARKER) ==>
              |text| >= 10 && StandsAt(text, |text| - 5, MARKER) && text[5..|text| - 5] == StringAt(text, 0).value.0
    ensures !StandsAt(text, 0, MARKER) ==> |text| >= 2 && text[|text| - 1] == QUOTE
  {
    if StandsAt(text, 0, MARKER) {
      FoundStands(text, 5, MARKER);
    } else {
      ScanEndsInQuote(text, 1);
    }
  }

  lemma {:induction false} FoundStands(s: Text, i: nat, part: Text)
    requires i <= |s| && Find(s, i, part).Some?
    ensures StandsAt(s, Find(s, i, part).value, part)
    decreases |s| - i
  {
    if !StandsAt(s, i, part) {
      FoundStands(s, i + 1, part);
    }
  }

  lemma {:induction false} ScanEndsInQuote(s: Text, i: nat)
    requires Scan(s, i).Some?
    ensures s[Scan(s, i).value.1 - 1] == QUOTE
    decreases |s| - i
  {
    if s[i] == BACKSLASH {
      ScanEndsInQuote(s, Escape(s, i).value.1);
    } else if s[i] != QUOTE {
      ScanEndsInQuote(s, i + 1);
    }
  }

  // ----- Prose paths -------------------------------------------------------------------------

  /** A path goes on from what its front part leads to. */
  lemma {:induction false} AtInSteps(value: Value, front: Path, step: Step)
    ensures At(value, front + [step]) == match At(value, front) case None => None case Some(inner) => At(inner, [step])
    decreases |front|
  {
    if front == [] {
      assert front + [step] == [step];
    } else if value.Container? {
      assert (front + [step])[1..] == front[1..] + [step];
      var k := IndexOf(MemberSteps(value.members), front[0]);
      if k < |value.members| {
        AtInSteps(value.members[k].value, front[1..], step);
      }
    }
  }

  lemma {:induction false} MemberByIndex(list: Value, k: nat)
    requires list.Container? && k < |list.members| && forall j :: 0 <= j < |list.members| ==> list.members[j].step == Index(j)
    ensures At(list, [Index(k)]) == Some(list.members[k].value)
  {
    assert MemberSteps(list.members)[k] == Index(k);
    assert [Index(k)][1..] == [];
  }

  /** In what was read from a text, the members of a list are found under their own indices. */
  lemma {:induction false} ListMembersByIndex(text: Text, cs: Charset, front: Path, list: Value, k: nat)
    requires Parse(text, 0, 0, cs).Ok? && At(ValueOf(Parse(text, 0, 0, cs).value.tree), front) == Some(list)
    requires list.Container? && !list.obj && k < |list.members|
    ensures At(list, [Index(k)]) == Some(list.members[k].value)
  {
    hide Parse, Lookup, At;
    var p := Parse(text, 0, 0, cs).value;
    ParseIsSound(text, 0, 0, cs);
    LookupIsAt(p.tree, p.start, front);
    LookupIsSound(text, p.tree, p.start, 0, cs, front);
    var tree := Lookup(p.tree, p.start, front).value.tree;
    assert forall j :: 0 <= j < |list.members| ==> list.members[j] == MemberOf(tree.entries[j]);
    MemberByIndex(list, k);
  }

  /** Every prose path leads to a string. */
  lemma {:induction false} ProseIsText(tool: Tool, text: Text, cs: Charset, k: nat)
    requires Parse(text, 0, 0, cs).Ok?
    requires var args := ValueOf(Parse(text, 0, 0, cs).value.tree);
      args.Container? && args.obj && ProsePaths(tool, args).Ok? && k < |ProsePaths(tool, args).value|
    ensures var args := ValueOf(Parse(text, 0, 0, cs).value.tree); IsText(At(args, ProsePaths(tool, args).value[k]))
  {
    hide Parse, At, ListGiftsShape, IdList, OnlyFields;
    var args := ValueOf(Parse(text, 0, 0, cs).value.tree);
    if k > 0 {
      var products := Field(args, PRODUCTS).value;
      assert HasReason(products.members[k - 1].value);
      ListMembersByIndex(text, cs, [PRODUCTS], products, k - 1);
      AtInSteps(args, [PRODUCTS], Index(k - 1));
      AtInSteps(args, [PRODUCTS, Index(k - 1)], REASON);
      assert [PRODUCTS] + [Index(k - 1)] == [PRODUCTS, Index(k - 1)];
      assert [PRODUCTS, Index(k - 1)] + [REASON] == ReasonPath(k - 1);
    }
  }

  lemma {:induction false} ProseIsDelimited(tool: Tool, text: Text, cs: Charset, k: nat)
    requires Parse(text, 0, 0, cs).Ok?
    requires var args := ValueOf(Parse(text, 0, 0, cs).value.tree);
      args.Container? && args.obj && ProsePaths(tool, args).Ok? && k < |ProsePaths(tool, args).value|
    ensures var args := ValueOf(Parse(text, 0, 0, cs).value.tree);
      var path := ProsePaths(tool, args).value[k];
      var spans := RecordedSpans(text, 0, 0, cs);
      && path in spans && spans[path].start <= spans[path].stop <= |text|
      && Interior(text, spans[path]).Some? && IsInterior(text, cs, args, path, Interior(text, spans[path]).value)
  {
    hide Parse, At, RecordedSpans, ReadsAs, ProsePaths;
    var args := ValueOf(Parse(text, 0, 0, cs).value.tree);
    var path := ProsePaths(tool, args).value[k];
    ProseIsText(tool, text, cs, k);
    SpanTextReadsAsItsValue(text, 0, 0, cs, path);
    var span := RecordedSpans(text, 0, 0, cs)[path];
    OnlyStringsAreDelimited(text[span.start..span.stop], At(args, path).value, cs);
    DelimitersInPlace(text, span);
  }

  lemma {:induction false} DelimitersStand(piece: Text)
    requires Delimiter(piece).Some?
    ensures var n := Delimiter(piece).value;
      && 1 <= n && piece[0..n] == piece[|piece| - n..|piece|] == (if n == 5 then MARKER else [QUOTE])
  {
    if Delimiter(piece) == Some(5) {
      assert piece[|piece| - 5..|piece| - 5 + 5] == piece[|piece| - 5..|piece|];
    }
  }

  /** The delimiters of a piece, seen in the whole text. */
  lemma {:induction false} DelimitersInPlace(text: Text, span: Span)
    requires span.start <= span.stop <= |text| && Delimiter(text[span.start..span.stop]).Some?
    ensures var (piece, inner) := (text[span.start..span.stop], Interior(text, span).value);
      && span.start < inner.start <= inner.stop < span.stop
      && text[span.start..inner.start] == text[inner.stop..span.stop] == (if Delimiter(piece) == Some(5) then MARKER else [QUOTE])
      && (Delimiter(piece) == Some(5) ==> text[inner.start..inner.stop] == piece[5..|piece| - 5])
  {
    hide Delimiter;
    var piece := text[span.start..span.stop];
    var n := Delimiter(piece).value;
    DelimitersStand(piece);
    SubWindow(text, span.start, span.stop, span.start, span.start + n);
    SubWindow(text, span.start, span.stop, span.stop - n, span.stop);
    SubWindow(text, span.start, span.stop, span.start + n, span.stop - n);
  }

  // ----- Prose fields stay apart -------------------------------------------------------------

  /** Of two prose fields neither lies inside the other. */
  lemma {:induction false} ProsePathsBranch(tool: Tool, args: Value, j: nat, k: nat)
    requires args.Container? && args.obj && ProsePaths(tool, args).Ok? && j < k < |ProsePaths(tool, args).value|
    ensures var paths := ProsePaths(tool, args).value; !(paths[j] <= paths[k]) && !(paths[k] <= paths[j])
  {
    hide ListGiftsShape, IdList, OnlyFields, At;
    var paths := ProsePaths(tool, args).value;
    assert paths[k] == ReasonPath(k - 1);
    if j == 0 {
      assert paths[j] == [MESSAGE];
      assert MESSAGE.name[0] == 'm' as int && PRODUCTS.name[0] == 'p' as int;
      assert paths[j][0] != paths[k][0];
    } else {
      assert paths[j] == ReasonPath(j - 1);
      assert paths[j][1] != paths[k][1];
    }
  }

  // ----- Every prose field and no other ------------------------------------------------------

  lemma {:induction false} SameOnly(args: Value, names: set<string>, steps: set<Step>)
    requires args.Container? && forall step :: step in steps <==> IsOneOf(step, names)
    ensures HasOnly(args, names) <==> OnlyFields(args, steps)
  {
    hide Codes;
    forall k | 0 <= k < |args.members|
      ensures IsOneOf(args.members[k].step, names) <==> args.members[k].step in steps
    {
    }
    assert HasOnly(args, names) <==> forall k :: 0 <= k < |args.members| ==> IsOneOf(args.members[k].step, names);
  }

  lemma {:induction false} SameIds(value: Option<Value>, most: nat)
    ensures AreProductIds(value, most) <==> IdList(value, most)
  {
  }

  lemma {:induction false} SameIdForm(args: Value)
    requires args.Container?
    ensures IsIdForm(args) <==> Field(args, PRODUCT_IDS).Some? && OnlyFields(args, {PRODUCT_IDS, MESSAGE})
  {
    hide At, OnlyFields, HasOnly;
    SameOnly(args, {"product_ids", "message"}, {PRODUCT_IDS, MESSAGE});
  }

  lemma {:induction false} SameListGifts(args: Value)
    requires args.Container?
    ensures IsWellShaped(ListGifts, args) <==> ListGiftsShape(args) && HasTextIfAny(args, "message")
  {
    hide At, OnlyFields, HasOnly, AreProductIds, IdList, Codes;
    SameOnly(args, {"product_ids", "format", "one_per_brand", "message"}, {PRODUCT_IDS, FORMAT, ONE_PER_BRAND, MESSAGE});
    SameIds(Field(args, PRODUCT_IDS), 30);
    SameBoolean(args);
  }

  lemma {:induction false} SameBoolean(args: Value)
    ensures var value := Field(args, ONE_PER_BRAND);
      value.Some? ==> (value.value in {Atom(Boolean(true)), Atom(Boolean(false))} <==> value.value.Atom? && value.value.scalar.Boolean?)
  {
    hide At;
  }

  /** The fields of a call are found exactly when its arguments have the shape that its tool takes. */
  lemma {:induction false} AcceptedExactlyWhenWellShaped(tool: Tool, args: Value)
    requires args.Container? && args.obj
    ensures ProsePaths(tool, args).Ok? <==> IsWellShaped(tool, args)
  {
    hide At, ListGiftsShape, OnlyFields, HasOnly, AreProductIds, IdList, IsIdForm;
    match tool
    case ListGifts => SameListGifts(args);
    case ShowGifts =>
      SameIdForm(args);
      SameIds(Field(args, PRODUCT_IDS), 3);
    case _ =>
  }

  lemma {:induction false} ListHasIndex(list: Value, k: nat)
    requires list.Container? && forall j :: 0 <= j < |list.members| ==> list.members[j].step == Index(j)
    ensures At(list, [Index(k)]).Some? <==> k < |list.members|
  {
    if k < |list.members| {
      MemberByIndex(list, k);
    } else {
      var steps := MemberSteps(list.members);
      assert forall j :: 0 <= j < |steps| ==> steps[j] != Index(k);
    }
  }

  /** The products of a parsed call stand under their indices. */
  lemma {:induction false} ProductsByIndex(call: ToolCall, cs: Charset, k: nat)
    requires CallArguments(call, cs).Ok? && IsList(Field(CallArguments(call, cs).value, PRODUCTS))
    ensures var args := CallArguments(call, cs).value;
      At(args, [PRODUCTS, Index(k)]).Some? <==> k < |Field(args, PRODUCTS).value.members|
  {
    hide Parse, Lookup, At, IsArguments;
    var (p, args) := (Parse(call.text, 0, 0, cs).value, CallArguments(call, cs).value);
    var list := Field(args, PRODUCTS).value;
    ParseIsSound(call.text, 0, 0, cs);
    LookupIsAt(p.tree, p.start, [PRODUCTS]);
    LookupIsSound(call.text, p.tree, p.start, 0, cs, [PRODUCTS]);
    var tree := Lookup(p.tree, p.start, [PRODUCTS]).value.tree;
    assert forall j :: 0 <= j < |list.members| ==> list.members[j] == MemberOf(tree.entries[j]);
    ListHasIndex(list, k);
    AtInSteps(args, [PRODUCTS], Index(k));
    assert [PRODUCTS] + [Index(k)] == [PRODUCTS, Index(k)];
  }

  ghost predicate ListsProse(tool: Tool, args: Value, paths: seq<Path>)
    requires args.Container?
  {
    && (forall path :: IsProseField(tool, args, path) <==> path in paths)
    && forall j, k :: 0 <= j < k < |paths| ==> paths[j] != paths[k]
  }

  /** The paths that are looked up are all the prose fields of an accepted call, each once. */
  lemma {:induction false} PathsAreTheProseFields(call: ToolCall, cs: Charset)
    requires CallArguments(call, cs).Ok? && CallPaths(call, cs).Ok?
    ensures ListsProse(call.tool, CallArguments(call, cs).value, CallPaths(call, cs).value)
  {
    hide Parse, At, ListGiftsShape, IdList, IsArguments;
    var (args, paths) := (CallArguments(call, cs).value, CallPaths(call, cs).value);
    forall j, k | 0 <= j < k < |paths| ensures paths[j] != paths[k] {
      ProsePathsBranch(call.tool, args, j, k);
    }
    forall path ensures IsProseField(call.tool, args, path) <==> path in paths {
      if call.tool.ShowGifts? {
        SameIdForm(args);
        if !IsIdForm(args) {
          ReasonsAreListed(call, cs, path);
        }
      }
    }
  }

  lemma {:induction false} ReasonsAreListed(call: ToolCall, cs: Charset, path: Path)
    requires call.tool.ShowGifts? && CallArguments(call, cs).Ok? && CallPaths(call, cs).Ok?
    requires !IsIdForm(CallArguments(call, cs).value)
    ensures IsProseField(call.tool, CallArguments(call, cs).value, path) <==> path in CallPaths(call, cs).value
  {
    hide Parse, At, IdList, IsArguments, OnlyFields, IsIdForm, CallArguments, HasReason, Codes;
    var (args, paths) := (CallArguments(call, cs).value, CallPaths(call, cs).value);
    SameIdForm(args);
    var products := Field(args, PRODUCTS).value.members;
    assert |paths| == |products| + 1 && paths[0] == [MESSAGE];
    assert forall k :: 0 <= k < |products| ==> paths[k + 1] == ReasonPath(k);
    if IsReason(args, path) {
      var k: nat :| path == [PRODUCTS, Index(k), REASON] && At(args, [PRODUCTS, Index(k)]).Some?;
      ProductsByIndex(call, cs, k);
      assert path == paths[k + 1];
    }
    if path in paths && path != [MESSAGE] {
      var k :| 0 <= k < |paths| && paths[k] == path;
      ProductsByIndex(call, cs, k - 1);
      assert path == [PRODUCTS, Index(k - 1), REASON];
    }
  }

  /** The omitted spans of an accepted call are the insides of its prose fields, one for each field and no other. */
  lemma {:induction false} OmittedSpansAreTheProseFields(call: ToolCall, cs: Charset, interiors: seq<Span>)
    requires IsCallProse(call, cs, interiors)
    ensures IsWellShaped(call.tool, CallArguments(call, cs).value)
    ensures exists paths: seq<Path> ::
              && ListsProse(call.tool, CallArguments(call, cs).value, paths)
              && AreInteriors(call.text, cs, CallArguments(call, cs).value, paths, interiors)
  {
    hide CallArguments, ProsePaths, ListsProse, AreInteriors, IsWellShaped;
    AcceptedExactlyWhenWellShaped(call.tool, CallArguments(call, cs).value);
    PathsAreTheProseFields(call, cs);
  }

  lemma {:induction false} PiecesAreAccepted(calls: seq<ToolCall>, cs: Charset, pieces: seq<seq<Span>>)
    requires ArePieces(calls, cs, pieces)
    ensures AreAccepted(calls, cs)
  {
    hide CallArguments, ProsePaths, IsWellShaped, AreInteriors;
    forall c | 0 <= c < |calls| ensures CallArguments(calls[c], cs).Ok? && IsWellShaped(calls[c].tool, CallArguments(calls[c], cs).value) {
      assert IsCallProse(calls[c], cs, pieces[c]);
      AcceptedExactlyWhenWellShaped(calls[c].tool, CallArguments(calls[c], cs).value);
    }
  }

  lemma {:induction false} RefusedIsNotAccepted(calls: seq<ToolCall>, cs: Charset, error: ShapeError)
    requires IsRefusal(calls, cs, error)
    ensures !AreAccepted(calls, cs)
  {
    hide CallArguments, ProsePaths, IsWellShaped;
    if AreAccepted(calls, cs) {
      forall c | 0 <= c < |calls| ensures CallArguments(calls[c], cs).Ok? && CallPaths(calls[c], cs).Ok? {
        AcceptedExactlyWhenWellShaped(calls[c].tool, CallArguments(calls[c], cs).value);
      }
      assert false;
    }
  }

  lemma {:induction false} CallSpansAreApart(call: ToolCall, cs: Charset, interiors: seq<Span>, j: nat, k: nat)
    requires IsCallProse(call, cs, interiors) && j < k < |interiors|
    ensures interiors[j].stop < interiors[k].start || interiors[k].stop < interiors[j].start
  {
    hide Parse, RecordedSpans, ProsePaths, At;
    var args := CallArguments(call, cs).value;
    var paths := CallPaths(call, cs).value;
    ProsePathsBranch(call.tool, args, j, k);
    assert IsInterior(call.text, cs, args, paths[j], interiors[j]) && IsInterior(call.text, cs, args, paths[k], interiors[k]);
    SpansNestLikeTheValue(call.text, 0, 0, cs, paths[j], paths[k]);
  }

  /** The calls follow one another in the target. */
  predicate InOrder(calls: seq<ToolCall>) {
    forall c, d :: 0 <= c < d < |calls| ==> calls[c].at + |calls[c].text| <= calls[d].at
  }

  lemma {:induction false} CallSpansWithinText(call: ToolCall, cs: Charset, interiors: seq<Span>, k: nat)
    requires IsCallProse(call, cs, interiors) && k < |interiors|
    ensures 0 < interiors[k].start <= interiors[k].stop < |call.text|
  {
    hide Parse, RecordedSpans, ProsePaths, At;
    assert IsInterior(call.text, cs, CallArguments(call, cs).value, CallPaths(call, cs).value[k], interiors[k]);
  }

  lemma {:induction false} GatheredBefore(calls: seq<ToolCall>, cs: Charset, pieces: seq<seq<Span>>, bound: nat, k: nat)
    requires ArePieces(calls, cs, pieces) && k < |Gathered(calls, pieces)|
    requires forall c :: 0 <= c < |calls| ==> calls[c].at + |calls[c].text| <= bound
    ensures Gathered(calls, pieces)[k].stop < bound
    decreases |calls|
  {
    hide IsCallProse;
    var n := |calls| - 1;
    var front := Gathered(calls[..n], pieces[..n]);
    if k < |front| {
      GatheredBefore(calls[..n], cs, pieces[..n], bound, k);
    } else {
      CallSpansWithinText(calls[n], cs, pieces[n], k - |front|);
    }
  }

  lemma {:induction false} GatheredAreApart(calls: seq<ToolCall>, cs: Charset, pieces: seq<seq<Span>>, j: nat, k: nat)
    requires ArePieces(calls, cs, pieces) && InOrder(calls) && j < k < |Gathered(calls, pieces)|
    ensures var spans := Gathered(calls, pieces); spans[j].stop < spans[k].start || spans[k].stop < spans[j].start
    decreases |calls|
  {
    hide IsCallProse;
    var n := |calls| - 1;
    var front := Gathered(calls[..n], pieces[..n]);
    if k < |front| {
      GatheredAreApart(calls[..n], cs, pieces[..n], j, k);
    } else if j < |front| {
      GatheredBefore(calls[..n], cs, pieces[..n], calls[n].at, j);
      CallSpansWithinText(calls[n], cs, pieces[n], k - |front|);
    } else {
      CallSpansAreApart(calls[n], cs, pieces[n], j - |front|, k - |front|);
    }
  }

  /** The omitted spans of a target are pairwise apart: no character is omitted for two fields, of one call or of two. */
  lemma {:induction false} OmittedSpansAreApart(calls: seq<ToolCall>, cs: Charset, omitted: seq<Span>, j: nat, k: nat)
    requires AreOmitted(calls, cs, omitted) && InOrder(calls) && j < k < |omitted|
    ensures omitted[j].stop < omitted[k].start || omitted[k].stop < omitted[j].start
  {
    var pieces :| ArePieces(calls, cs, pieces) && omitted == Gathered(calls, pieces);
    GatheredAreApart(calls, cs, pieces, j, k);
  }

  // ----- Labels ------------------------------------------------------------------------------

  const IGNORED := -100

  /** The token lies wholly inside one omitted span and is not empty. */
  predicate Masked(token: Span, omitted: seq<Span>) {
    token.start < token.stop && exists k :: 0 <= k < |omitted| && omitted[k].start <= token.start && token.stop <= omitted[k].stop
  }

  predicate Touches(token: Span, omitted: seq<Span>) {
    exists k :: 0 <= k < |omitted| && token.start < omitted[k].stop && omitted[k].start < token.stop
  }

  /** The positions below `n` whose token is masked, in order. */
  function MaskedPositions(offsets: seq<Span>, omitted: seq<Span>, n: nat): (positions: seq<nat>)
    requires n <= |offsets|
    ensures forall k :: 0 <= k < |positions| ==> positions[k] < n && Masked(offsets[positions[k]], omitted)
    ensures forall k :: 0 <= k < n && Masked(offsets[k], omitted) ==> k in positions
    ensures forall j, k :: 0 <= j < k < |positions| ==> positions[j] < positions[k]
  {
    if n == 0 then []
    else MaskedPositions(offsets, omitted, n - 1) + if Masked(offsets[n - 1], omitted) then [n - 1] else []
  }

  /** How many tokens below `n` cross a boundary of prose and keep their label. */
  function Crossing(offsets: seq<Span>, omitted: seq<Span>, n: nat): nat
    requires n <= |offsets|
  {
    if n == 0 then 0
    else Crossing(offsets, omitted, n - 1) + if Touches(offsets[n - 1], omitted) && !Masked(offsets[n - 1], omitted) then 1 else 0
  }

  /** The label that a token gets: the prompt has none, the completion its own id unless it is masked. */
  function LabelOf(prefix: nat, ids: seq<nat>, offsets: seq<Span>, omitted: seq<Span>, k: nat): int
    requires |ids| == prefix + |offsets| && k < |ids|
  {
    if k < prefix || Masked(offsets[k - prefix], omitted) then IGNORED else ids[k]
  }

  /** The labels when the first `n` tokens of the completion have been looked at. */
  predicate LabelsAfter(prefix: nat, ids: seq<nat>, offsets: seq<Span>, omitted: seq<Span>, n: nat, labels: seq<int>)
    requires |ids| == prefix + |offsets| && n <= |offsets|
  {
    && |labels| == |ids|
    && (forall k :: 0 <= k < prefix + n ==> labels[k] == LabelOf(prefix, ids, offsets, omitted, k))
    && forall k :: prefix + n <= k < |ids| ==> labels[k] == ids[k]
  }

  lemma {:induction false} NextLabel(prefix: nat, ids: seq<nat>, offsets: seq<Span>, omitted: seq<Span>, n: nat, labels: seq<int>)
    requires |ids| == prefix + |offsets| && n < |offsets| && LabelsAfter(prefix, ids, offsets, omitted, n, labels)
    ensures LabelsAfter(prefix, ids, offsets, omitted, n + 1,
                        if Masked(offsets[n], omitted) then labels[prefix + n := IGNORED] else labels)
  {
    hide Masked;
  }

  method MaskLabels(prefix: nat, ids: seq<nat>, offsets: seq<Span>, omitted: seq<Span>)
    returns (labels: seq<int>, dropped: seq<nat>, crossing: nat)
    requires |ids| == prefix + |offsets|
    ensures |labels| == |ids| && forall k :: 0 <= k < |ids| ==> labels[k] == LabelOf(prefix, ids, offsets, omitted, k)
    ensures dropped == MaskedPositions(offsets, omitted, |offsets|) && crossing == Crossing(offsets, omitted, |offsets|)
  {
    hide Masked, Touches;
    labels := seq(|ids|, k requires 0 <= k < |ids| => if k < prefix then IGNORED else ids[k]);
    dropped, crossing := [], 0;
    for index := 0 to |offsets|
      invariant LabelsAfter(prefix, ids, offsets, omitted, index, labels)
      invariant dropped == MaskedPositions(offsets, omitted, index) && crossing == Crossing(offsets, omitted, index)
    {
      NextLabel(prefix, ids, offsets, omitted, index, labels);
      var token := offsets[index];
      if Masked(token, omitted) {
        labels := labels[prefix + index := IGNORED];
        dropped := dropped + [index];
      } else if Touches(token, omitted) {
        crossing := crossing + 1;
      }
    }
  }

  /** How many of the first `n` labels are supervised. */
  function Supervised(labels: seq<int>, n: nat): nat
    requires n <= |labels|
  {
    if n == 0 then 0 else Supervised(labels, n - 1) + if labels[n - 1] != IGNORED then 1 else 0
  }

  /** Dropped plus supervised tokens make up the completion, and the prompt is never supervised. */
  lemma {:induction false} DroppedPlusSupervised(prefix: nat, ids: seq<nat>, offsets: seq<Span>, omitted: seq<Span>, labels: seq<int>, n: nat)
    requires |ids| == prefix + |offsets| == |labels| && n <= |offsets|
    requires forall k :: 0 <= k < |ids| ==> labels[k] == LabelOf(prefix, ids, offsets, omitted, k)
    ensures Supervised(labels, prefix) == 0
    ensures Supervised(labels, prefix + n) + |MaskedPositions(offsets, omitted, n)| == n
  {
    hide Masked;
    if n > 0 {
      DroppedPlusSupervised(prefix, ids, offsets, omitted, labels, n - 1);
    } else {
      PromptUnsupervised(labels, prefix);
    }
  }

  lemma {:induction false} PromptUnsupervised(labels: seq<int>, n: nat)
    requires n <= |labels| && forall k :: 0 <= k < n ==> labels[k] == IGNORED
    ensures Supervised(labels, n) == 0
  {
    if n > 0 {
      PromptUnsupervised(labels, n - 1);
    }
  }

  /** The token stands inside a prose string of this call, off its delimiters. */
  ghost predicate InProse(call: ToolCall, cs: Charset, token: Span)
    requires CallArguments(call, cs).Ok?
  {
    exists path :: IsProseField(call.tool, CallArguments(call, cs).value, path) && BetweenDelimiters(call.text, cs, path, call.at, token)
  }

  /**
   A completion token loses its label if and only if it is not empty and every character of it
   stands between the delimiters of one and the same prose field, a message or a product's reason,
   of some call.
   */
  lemma {:induction false} MaskedTokensAreProse(
    calls: seq<ToolCall>, cs: Charset, omitted: seq<Span>, prefix: nat, ids: seq<nat>, offsets: seq<Span>, k: nat)
    requires AreOmitted(calls, cs, omitted)
    requires |ids| == prefix + |offsets| && k < |offsets|
    ensures forall c :: 0 <= c < |calls| ==> CallArguments(calls[c], cs).Ok?
    ensures LabelOf(prefix, ids, offsets, omitted, prefix + k) == IGNORED <==>
              offsets[k].start < offsets[k].stop && exists c :: 0 <= c < |calls| && InProse(calls[c], cs, offsets[k])
  {
    hide CallArguments, CallPaths, IsCallProse, InProse, Masked;
    var pieces :| ArePieces(calls, cs, pieces) && omitted == Gathered(calls, pieces);
    PiecesHavePaths(calls, cs, pieces);
    var token := offsets[k];
    MaskedInSomeCall(token, calls, pieces);
    forall c | 0 <= c < |calls|
      ensures Masked(token, Shifted(pieces[c], calls[c].at)) <==> token.start < token.stop && InProse(calls[c], cs, token)
    {
      MaskedInCall(token, calls[c], cs, pieces[c]);
    }
    MaskedIsNotEmpty(token, omitted);
  }

  lemma {:induction false} MaskedIsNotEmpty(token: Span, omitted: seq<Span>)
    ensures Masked(token, omitted) ==> token.start < token.stop
  {
  }

  lemma {:induction false} NothingMasked(token: Span)
    ensures !Masked(token, [])
  {
  }

  lemma {:induction false} MaskedInEither(token: Span, front: seq<Span>, back: seq<Span>)
    ensures Masked(token, front + back) <==> Masked(token, front) || Masked(token, back)
  {
    var all := front + back;
    assert forall k :: 0 <= k < |front| ==> all[k] == front[k];
    assert forall k :: 0 <= k < |back| ==> all[|front| + k] == back[k];
  }

  lemma {:induction false} MaskedInSomeCall(token: Span, calls: seq<ToolCall>, pieces: seq<seq<Span>>)
    requires |calls| == |pieces|
    ensures Masked(token, Gathered(calls, pieces)) <==>
              exists c :: 0 <= c < |calls| && Masked(token, Shifted(pieces[c], calls[c].at))
    decreases |calls|
  {
    hide Masked, Shifted;
    if calls == [] {
      NothingMasked(token);
    } else {
      var n := |calls| - 1;
      MaskedInSomeCall(token, calls[..n], pieces[..n]);
      MaskedInEither(token, Gathered(calls[..n], pieces[..n]), Shifted(pieces[n], calls[n].at));
    }
  }

  lemma {:induction false} MaskedInCall(token: Span, call: ToolCall, cs: Charset, interiors: seq<Span>)
    requires IsCallProse(call, cs, interiors)
    ensures Masked(token, Shifted(interiors, call.at)) <==> token.start < token.stop && InProse(call, cs, token)
  {
    hide Parse, RecordedSpans, ProsePaths, At, IsText, StandsAt, InProse;
    var paths := CallPaths(call, cs).value;
    var shifted := Shifted(interiors, call.at);
    forall j | 0 <= j < |paths|
      ensures BetweenDelimiters(call.text, cs, paths[j], call.at, token) <==>
              shifted[j].start <= token.start && token.stop <= shifted[j].stop
    {
      DelimiterWidth(call.text, cs, CallArguments(call, cs).value, paths[j], interiors[j]);
    }
    ProseByPath(call, cs, token);
  }

  lemma {:induction false} ProseByPath(call: ToolCall, cs: Charset, token: Span)
    requires CallArguments(call, cs).Ok? && CallPaths(call, cs).Ok?
    ensures var paths := CallPaths(call, cs).value;
      InProse(call, cs, token) <==> exists j :: 0 <= j < |paths| && BetweenDelimiters(call.text, cs, paths[j], call.at, token)
  {
    hide CallArguments, CallPaths, IsProseField, BetweenDelimiters;
    var (args, paths) := (CallArguments(call, cs).value, CallPaths(call, cs).value);
    PathsAreTheProseFields(call, cs);
    if InProse(call, cs, token) {
      var path :| IsProseField(call.tool, args, path) && BetweenDelimiters(call.text, cs, path, call.at, token);
      var j :| 0 <= j < |paths| && paths[j] == path;
    }
  }

  lemma {:induction false} DelimiterWidth(text: Text, cs: Charset, args: Value, path: Path, interior: Span)
    requires IsInterior(text, cs, args, path, interior)
    ensures var span := RecordedSpans(text, 0, 0, cs)[path];
      var width := if StandsAt(text, span.start, MARKER) then 5 else 1;
      interior.start == span.start + width && interior.stop + width == span.stop
  {
    hide Parse, RecordedSpans, At;
    var span := RecordedSpans(text, 0, 0, cs)[path];
    var opening := text[span.start..interior.start];
    assert opening[0] == text[span.start];
    if StandsAt(text, span.start, MARKER) {
      assert text[span.start] == text[span.start..span.start + 5][0];
    }
    if opening == MARKER {
      assert text[span.start..span.start + 5] == MARKER;
      assert |text[interior.stop..span.stop]| == 5;
    } else {
      assert |text[interior.stop..span.stop]| == 1;
    }
  }

  /** The token stands inside the string at `path`, off its opening and its closing delimiter. */
  ghost predicate BetweenDelimiters(text: Text, cs: Charset, path: Path, at: nat, token: Span) {
    var spans := RecordedSpans(text, 0, 0, cs);
    && path in spans && spans[path].start <= spans[path].stop <= |text|
    && var width := if StandsAt(text, spans[path].start, MARKER) then 5 else 1;
       at + spans[path].start + width <= token.start && token.stop + width <= at + spans[path].stop
  }
}
