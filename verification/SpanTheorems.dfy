/** What the recorded spans mean: they nest like the value, and each one's text is its own value. */
module SpanTheorems {
  import opened Outcomes
  import opened NativeGrammar
  import opened NativeParsers
  import opened NativeWindows

  // ----- Paths -------------------------------------------------------------------------------

  function StepsOf(entries: seq<Entry>): seq<Step> {
    seq(|entries|, k requires 0 <= k < |entries| => entries[k].step)
  }

  function MemberSteps(members: seq<Member>): seq<Step> {
    seq(|members|, k requires 0 <= k < |members| => members[k].step)
  }

  function IndexOf(steps: seq<Step>, step: Step): (k: nat)
    ensures k <= |steps| && (k < |steps| ==> steps[k] == step) && forall j :: 0 <= j < k ==> steps[j] != step
  {
    if steps == [] || steps[0] == step then 0 else 1 + IndexOf(steps[1..], step)
  }

  /** The value at a path. */
  function At(value: Value, path: Path): Option<Value>
    decreases |path|
  {
    if path == [] then Some(value)
    else if value.Atom? then None
    else
      var k := IndexOf(MemberSteps(value.members), path[0]);
      if k == |value.members| then None else At(value.members[k].value, path[1..])
  }

  datatype Located = Located(start: nat, tree: Tree)

  /** The tree at a path and where it begins, for a tree that begins at `start`. */
  function Lookup(tree: Tree, start: nat, path: Path): Option<Located>
    decreases |path|
  {
    if path == [] then Some(Located(start, tree))
    else if tree.Leaf? then None
    else
      var k := IndexOf(StepsOf(tree.entries), path[0]);
      if k == |tree.entries| then None else Lookup(tree.entries[k].tree, start + tree.entries[k].offset, path[1..])
  }

  lemma {:induction false} LookupIsAt(tree: Tree, start: nat, path: Path)
    ensures At(ValueOf(tree), path) == match Lookup(tree, start, path) case None => None case Some(l) => Some(ValueOf(l.tree))
    decreases |path|
  {
    if path != [] && tree.Branch? {
      var members := MembersOf(tree.entries);
      assert MemberSteps(members) == StepsOf(tree.entries) by {
        assert forall k :: 0 <= k < |members| ==> members[k] == MemberOf(tree.entries[k]);
      }
      var k := IndexOf(StepsOf(tree.entries), path[0]);
      if k < |tree.entries| {
        assert members[k] == MemberOf(tree.entries[k]);
        LookupIsAt(tree.entries[k].tree, start + tree.entries[k].offset, path[1..]);
      }
    }
  }

  // ----- Sound trees -------------------------------------------------------------------------

  function EndOf(entry: Entry): nat {
    entry.offset + entry.tree.length
  }

  /** Members stand inside their container, apart from each other and in order, under distinct steps. */
  predicate Laid(entries: seq<Entry>, obj: bool, length: nat) {
    && (forall k :: 0 <= k < |entries| ==> 1 <= entries[k].offset && EndOf(entries[k]) < length)
    && (forall k, l :: 0 <= k < l < |entries| ==> EndOf(entries[k]) < entries[l].offset && entries[k].step != entries[l].step)
    && (forall k :: 0 <= k < |entries| ==> if obj then entries[k].step.Key? else entries[k].step == Index(k))
  }

  /** Every part of the tree is what the grammar reads at its own place. */
  predicate Sound(s: Text, tree: Tree, start: nat, depth: nat, cs: Charset)
    decreases tree
  {
    && start <= |s| && Parse(s, start, depth, cs) == Ok(Parsed(start, tree))
    && match tree
       case Leaf(_, _) => true
       case Branch(length, obj, entries) =>
         && Laid(entries, obj, length)
         && forall k :: 0 <= k < |entries| ==> SoundEntry(s, entries[k], start, depth + 1, cs)
  }

  predicate SoundEntry(s: Text, entry: Entry, begin: nat, depth: nat, cs: Charset)
    decreases entry
  {
    Sound(s, entry.tree, begin + entry.offset, depth, cs)
  }

  predicate SoundEntries(s: Text, entries: seq<Entry>, begin: nat, depth: nat, cs: Charset) {
    forall k :: 0 <= k < |entries| ==> SoundEntry(s, entries[k], begin, depth, cs)
  }

  lemma {:induction false} ParseIsSound(s: Text, i: nat, depth: nat, cs: Charset)
    requires i <= |s| && Parse(s, i, depth, cs).Ok?
    ensures var p := Parse(s, i, depth, cs).value; Sound(s, p.tree, p.start, depth, cs)
    decreases |s| - i, 1
  {
    hide ScalarAt, ContainerAt, Skip, Laid;
    SkippedSpace(s, i, cs);
    var start := i + Skip(s, i, cs);
    if OpensContainer(s, start) {
      ContainerIsSound(s, start, depth, cs);
    }
  }

  lemma {:induction false} ContainerIsSound(s: Text, i: nat, depth: nat, cs: Charset)
    requires OpensContainer(s, i) && ContainerAt(s, i, depth, cs).Ok?
    ensures var tree := ContainerAt(s, i, depth, cs).value;
      Laid(tree.entries, tree.obj, tree.length) && SoundEntries(s, tree.entries, i, depth + 1, cs)
    decreases |s| - i, 0
  {
    hide Members, Skip, SoundEntry;
    var obj := s[i] == OPEN_OBJECT;
    var first := i + 1 + Skip(s, i + 1, cs);
    if !(first < |s| && s[first] == Closing(obj)) {
      MembersAreSound(s, first, i, depth, obj, [], cs);
    }
  }

  lemma {:induction false} MembersAreSound(s: Text, i: nat, begin: nat, depth: nat, obj: bool, out: seq<Entry>, cs: Charset)
    requires begin < i <= |s| && Members(s, i, begin, depth, obj, out, cs).Ok?
    requires Laid(out, obj, i - begin) && SoundEntries(s, out, begin, depth + 1, cs)
    ensures var (entries, end) := Members(s, i, begin, depth, obj, out, cs).value;
      Laid(entries, obj, end - begin) && SoundEntries(s, entries, begin, depth + 1, cs)
    decreases |s| - i, 3
  {
    hide MemberAt, Separator, SoundEntry, Laid;
    var entry := MemberAt(s, i, begin, depth, obj, out, cs).value;
    var (closed, next) := Separator(s, begin + EndOf(entry), obj, cs).value;
    MemberIsSound(s, i, begin, depth, obj, out, cs);
    LaidGrows(out, entry, obj, i - begin, next - begin);
    if !closed {
      MembersAreSound(s, next, begin, depth, obj, out + [entry], cs);
    }
  }

  lemma {:induction false} LaidGrows(out: seq<Entry>, entry: Entry, obj: bool, length: nat, longer: nat)
    requires Laid(out, obj, length) && 1 <= length <= entry.offset && EndOf(entry) < longer && 1 <= entry.tree.length
    requires !HasStep(out, entry.step) && if obj then entry.step.Key? else entry.step == Index(|out|)
    ensures Laid(out + [entry], obj, longer)
  {
  }

  lemma {:induction false} MemberIsSound(s: Text, i: nat, begin: nat, depth: nat, obj: bool, out: seq<Entry>, cs: Charset)
    requires begin < i <= |s| && MemberAt(s, i, begin, depth, obj, out, cs).Ok? && Laid(out, obj, i - begin)
    ensures var entry := MemberAt(s, i, begin, depth, obj, out, cs).value;
      && SoundEntry(s, entry, begin, depth + 1, cs)
      && i - begin <= entry.offset && 1 <= entry.tree.length && !HasStep(out, entry.step)
      && if obj then entry.step.Key? else entry.step == Index(|out|)
    decreases |s| - i, 2
  {
    hide KeyAt, Parse, Sound;
    ParseIsSound(s, StepAt(s, i, depth, obj, out, cs).value.1, depth + 1, cs);
  }

  // ----- Spans -------------------------------------------------------------------------------

  lemma {:induction false} KeysExtend(tree: Tree, path: Path, start: nat, key: Path)
    requires key in SpansOf(tree, path, start)
    ensures path <= key
    decreases tree
  {
    if tree.Branch? && key != path {
      EntryKeysExtend(tree.entries, path, start, key);
    }
  }

  lemma {:induction false} EntryKeyExtends(entry: Entry, path: Path, start: nat, key: Path)
    requires key in EntrySpan(entry, path, start)
    ensures path + [entry.step] <= key
    decreases entry
  {
    KeysExtend(entry.tree, path + [entry.step], start + entry.offset, key);
  }

  lemma {:induction false} EntryKeysExtend(entries: seq<Entry>, path: Path, start: nat, key: Path)
    requires key in EntrySpans(entries, path, start)
    ensures path < key
    decreases entries
  {
    if entries != [] {
      var last := entries[|entries| - 1];
      if key in EntrySpan(last, path, start) {
        EntryKeyExtends(last, path, start, key);
      } else {
        EntryKeysExtend(entries[..|entries| - 1], path, start, key);
      }
    }
  }

  /** Among entries with distinct steps, a longer path belongs to the entry of its next step. */
  lemma {:induction false} EntrySpansAt(entries: seq<Entry>, path: Path, start: nat, q: Path)
    requires q != [] && forall k, l :: 0 <= k < l < |entries| ==> entries[k].step != entries[l].step
    ensures var k := IndexOf(StepsOf(entries), q[0]);
      && (path + q in EntrySpans(entries, path, start) <==> k < |entries| && path + q in EntrySpan(entries[k], path, start))
      && (k < |entries| && path + q in EntrySpan(entries[k], path, start) ==>
            EntrySpans(entries, path, start)[path + q] == EntrySpan(entries[k], path, start)[path + q])
  {
    hide EntrySpan;
    if entries != [] {
      var n := |entries| - 1;
      EntrySpansAt(entries[..n], path, start, q);
      StepsSplit(entries, q[0]);
      if path + q in EntrySpan(entries[n], path, start) {
        EntryKeyExtends(entries[n], path, start, path + q);
        assert (path + q)[|path|] == (path + [entries[n].step])[|path|];
      }
    }
  }

  lemma {:induction false} StepsSplit(entries: seq<Entry>, step: Step)
    requires entries != [] && forall k, l :: 0 <= k < l < |entries| ==> entries[k].step != entries[l].step
    ensures var (k, m) := (IndexOf(StepsOf(entries), step), IndexOf(StepsOf(entries[..|entries| - 1]), step));
      && (m < |entries| - 1 ==> k == m && entries[|entries| - 1].step != step)
      && (m == |entries| - 1 ==> k == if entries[|entries| - 1].step == step then m else m + 1)
  {
    var n := |entries| - 1;
    var steps, fewer := StepsOf(entries), StepsOf(entries[..n]);
    assert forall j :: 0 <= j < n ==> steps[j] == fewer[j];
    var k, m := IndexOf(steps, step), IndexOf(fewer, step);
    if m < n {
      assert fewer[m] == step && steps[m] == step;
      assert !(k < m) && !(m < k);
    } else {
      assert steps[n] == entries[n].step;
    }
  }

  /** The recorded span of a path is where the tree has its value, and exactly the value's paths are recorded. */
  lemma {:induction false} SpansAreLookups(s: Text, tree: Tree, start: nat, depth: nat, cs: Charset, path: Path, q: Path)
    requires Sound(s, tree, start, depth, cs)
    ensures var found := Lookup(tree, start, q);
      && (path + q in SpansOf(tree, path, start) <==> found.Some?)
      && (found.Some? ==>
            SpansOf(tree, path, start)[path + q] == Span(found.value.start, found.value.start + found.value.tree.length))
    decreases |q|
  {
    hide Parse, EntrySpans;
    if q == [] {
      assert path + q == path;
    } else {
      assert path + q != path;
      if tree.Branch? {
        EntrySpansAt(tree.entries, path, start, q);
        var k := IndexOf(StepsOf(tree.entries), q[0]);
        if k < |tree.entries| {
          var entry := tree.entries[k];
          assert SoundEntry(s, entry, start, depth + 1, cs);
          assert (path + [entry.step]) + q[1..] == path + q;
          SpansAreLookups(s, entry.tree, start + entry.offset, depth + 1, cs, path + [entry.step], q[1..]);
        }
      }
    }
  }

  /** What a path leads to is sound in its place, and inside. */
  lemma {:induction false} LookupIsSound(s: Text, tree: Tree, start: nat, depth: nat, cs: Charset, q: Path)
    requires Sound(s, tree, start, depth, cs) && Lookup(tree, start, q).Some?
    ensures var l := Lookup(tree, start, q).value;
      && Sound(s, l.tree, l.start, depth + |q|, cs)
      && start <= l.start && l.start + l.tree.length <= start + tree.length
      && (q != [] ==> start < l.start && l.start + l.tree.length < start + tree.length)
    decreases |q|
  {
    hide Parse;
    if q != [] {
      var k := IndexOf(StepsOf(tree.entries), q[0]);
      var entry := tree.entries[k];
      assert SoundEntry(s, entry, start, depth + 1, cs);
      LookupIsSound(s, entry.tree, start + entry.offset, depth + 1, cs, q[1..]);
    }
  }

  predicate Apart(a: Located, b: Located) {
    a.start + a.tree.length < b.start || b.start + b.tree.length < a.start
  }

  predicate Within(inner: Located, outer: Located) {
    outer.start < inner.start && inner.start + inner.tree.length < outer.start + outer.tree.length
  }

  lemma {:induction false} HeadsAndTails(q: Path, r: Path)
    requires q != [] && r != []
    ensures q <= r <==> q[0] == r[0] && q[1..] <= r[1..]
    ensures q < r <==> q[0] == r[0] && q[1..] < r[1..]
  {
    if q <= r {
      assert q[1..] == r[1..][..|q| - 1];
    }
    if q[0] == r[0] && q[1..] <= r[1..] {
      assert q == [q[0]] + q[1..] && r == [r[0]] + r[1..];
    }
  }

  /** Places in different members are apart. */
  lemma {:induction false} MembersApart(s: Text, tree: Tree, start: nat, depth: nat, cs: Charset, q: Path, r: Path)
    requires Sound(s, tree, start, depth, cs) && Lookup(tree, start, q).Some? && Lookup(tree, start, r).Some?
    requires q != [] && r != [] && q[0] != r[0]
    ensures Apart(Lookup(tree, start, q).value, Lookup(tree, start, r).value)
    ensures q[0].Index? && r[0].Index? && q[0].i < r[0].i ==>
              Lookup(tree, start, q).value.start + Lookup(tree, start, q).value.tree.length < Lookup(tree, start, r).value.start
  {
    hide Sound, Lookup;
    var k := InMember(s, tree, start, depth, cs, q);
    var l := InMember(s, tree, start, depth, cs, r);
  }

  /** A place below the root lies in the member of its first step. */
  lemma {:induction false} InMember(s: Text, tree: Tree, start: nat, depth: nat, cs: Charset, q: Path) returns (k: nat)
    requires Sound(s, tree, start, depth, cs) && Lookup(tree, start, q).Some? && q != []
    ensures tree.Branch? && Laid(tree.entries, tree.obj, tree.length) && k < |tree.entries| && tree.entries[k].step == q[0]
    ensures var l := Lookup(tree, start, q).value;
      start + tree.entries[k].offset <= l.start && l.start + l.tree.length <= start + EndOf(tree.entries[k])
  {
    hide Parse, Laid;
    k := IndexOf(StepsOf(tree.entries), q[0]);
    assert SoundEntry(s, tree.entries[k], start, depth + 1, cs);
    LookupIsSound(s, tree.entries[k].tree, start + tree.entries[k].offset, depth + 1, cs, q[1..]);
  }

  /** Of two places, either one path extends the other and its place lies inside, or the places are apart. */
  lemma {:induction false} PathsDecidePlaces(s: Text, tree: Tree, start: nat, depth: nat, cs: Charset, q: Path, r: Path)
    requires Sound(s, tree, start, depth, cs) && Lookup(tree, start, q).Some? && Lookup(tree, start, r).Some?
    ensures q < r ==> Within(Lookup(tree, start, r).value, Lookup(tree, start, q).value)
    ensures !(q <= r) && !(r <= q) ==> Apart(Lookup(tree, start, q).value, Lookup(tree, start, r).value)
    decreases |q|
  {
    hide Parse, Laid, Within, Apart;
    if q == [] {
      if r != [] {
        InsideTheWhole(s, tree, start, depth, cs, r);
      }
    } else if r != [] {
      HeadsAndTails(q, r);
      HeadsAndTails(r, q);
      if q[0] == r[0] {
        var k := IndexOf(StepsOf(tree.entries), q[0]);
        assert SoundEntry(s, tree.entries[k], start, depth + 1, cs);
        PathsDecidePlaces(s, tree.entries[k].tree, start + tree.entries[k].offset, depth + 1, cs, q[1..], r[1..]);
      } else {
        MembersApart(s, tree, start, depth, cs, q, r);
      }
    }
  }

  lemma {:induction false} InsideTheWhole(s: Text, tree: Tree, start: nat, depth: nat, cs: Charset, r: Path)
    requires Sound(s, tree, start, depth, cs) && Lookup(tree, start, r).Some? && r != []
    ensures Within(Lookup(tree, start, r).value, Located(start, tree))
  {
    hide Sound, Lookup;
    LookupIsSound(s, tree, start, depth, cs, r);
  }

  /** Under one list, places stand in the order of their indices. */
  lemma {:induction false} IndicesInOrder(s: Text, tree: Tree, start: nat, depth: nat, cs: Charset, q: Path, x: nat, y: nat)
    requires Sound(s, tree, start, depth, cs) && x < y
    requires Lookup(tree, start, q + [Index(x)]).Some? && Lookup(tree, start, q + [Index(y)]).Some?
    ensures var (a, b) := (Lookup(tree, start, q + [Index(x)]).value, Lookup(tree, start, q + [Index(y)]).value);
      a.start + a.tree.length < b.start
    decreases |q|
  {
    hide Parse, Laid;
    if q == [] {
      MembersApart(s, tree, start, depth, cs, q + [Index(x)], q + [Index(y)]);
    } else {
      assert (q + [Index(x)])[1..] == q[1..] + [Index(x)] && (q + [Index(y)])[1..] == q[1..] + [Index(y)];
      var entry := tree.entries[IndexOf(StepsOf(tree.entries), q[0])];
      assert SoundEntry(s, entry, start, depth + 1, cs);
      IndicesInOrder(s, entry.tree, start + entry.offset, depth + 1, cs, q[1..], x, y);
    }
  }

  // ----- Main results ------------------------------------------------------------------------

  /** What the span parser has recorded after reading the value at `i` from the empty path. */
  function RecordedSpans(text: Text, i: nat, depth: nat, cs: Charset): map<Path, Span>
    requires i <= |text|
  {
    match Parse(text, i, depth, cs)
    case Err(_) => map[]
    case Ok(p) => SpansOf(p.tree, [], p.start)
  }

  lemma {:induction false} RecordedSpansArePlaces(text: Text, i: nat, depth: nat, cs: Charset, q: Path)
    requires i <= |text| && Parse(text, i, depth, cs).Ok?
    ensures var p := Parse(text, i, depth, cs).value;
      var found := Lookup(p.tree, p.start, q);
      && Sound(text, p.tree, p.start, depth, cs)
      && (q in RecordedSpans(text, i, depth, cs) <==> found.Some?)
      && (found.Some? ==>
            && 1 <= found.value.tree.length
            && RecordedSpans(text, i, depth, cs)[q] == Span(found.value.start, found.value.start + found.value.tree.length))
  {
    hide Parse, SpansOf, Sound, Lookup;
    var p := Parse(text, i, depth, cs).value;
    ParseIsSound(text, i, depth, cs);
    assert [] + q == q;
    SpansAreLookups(text, p.tree, p.start, depth, cs, [], q);
    if Lookup(p.tree, p.start, q).Some? {
      var l := Lookup(p.tree, p.start, q).value;
      LookupIsSound(text, p.tree, p.start, depth, cs, q);
      PieceReadsAsItself(text, l.tree, l.start, depth + |q|, cs);
    }
  }

  /** The whole text, and nothing else, is one value. */
  predicate ReadsAs(text: Text, value: Value, cs: Charset) {
    var r := Parse(text, 0, 0, cs);
    r.Ok? && r.value.start == 0 && r.value.End() == |text| && ValueOf(r.value.tree) == value
  }

  /**
   The recorded paths are exactly the paths of the value; the text of each recorded span, read on
   its own, is exactly the value at its path.
   */
  lemma {:induction false} SpanTextReadsAsItsValue(text: Text, i: nat, depth: nat, cs: Charset, q: Path)
    requires i <= |text| && Parse(text, i, depth, cs).Ok?
    ensures var p := Parse(text, i, depth, cs).value;
      var spans := RecordedSpans(text, i, depth, cs);
      && (q in spans <==> At(ValueOf(p.tree), q).Some?)
      && (q in spans ==>
            && p.start <= spans[q].start < spans[q].stop <= p.End()
            && ReadsAs(text[spans[q].start..spans[q].stop], At(ValueOf(p.tree), q).value, cs))
  {
    hide Parse, RecordedSpans, Sound, Lookup, At, ReadsAs;
    var p := Parse(text, i, depth, cs).value;
    RecordedSpansArePlaces(text, i, depth, cs, q);
    LookupIsAt(p.tree, p.start, q);
    if q in RecordedSpans(text, i, depth, cs) {
      var l := Lookup(p.tree, p.start, q).value;
      LookupIsSound(text, p.tree, p.start, depth, cs, q);
      PieceReadsAsItself(text, l.tree, l.start, depth + |q|, cs);
    }
  }

  lemma {:induction false} PieceReadsAsItself(s: Text, tree: Tree, start: nat, depth: nat, cs: Charset)
    requires Sound(s, tree, start, depth, cs)
    ensures 1 <= tree.length && start + tree.length <= |s| && ReadsAs(s[start..start + tree.length], ValueOf(tree), cs)
  {
    hide Parse, Laid;
    ShallowerParse(s, start, depth, 0, cs);
    WindowParse(s, start, start, start + tree.length, 0, cs);
  }

  /** Recorded spans nest exactly like their paths, and are apart exactly where the paths branch. */
  lemma {:induction false} SpansNestLikeTheValue(text: Text, i: nat, depth: nat, cs: Charset, q: Path, r: Path)
    requires i <= |text| && q in RecordedSpans(text, i, depth, cs) && r in RecordedSpans(text, i, depth, cs)
    ensures var (a, b) := (RecordedSpans(text, i, depth, cs)[q], RecordedSpans(text, i, depth, cs)[r]);
      && (q < r <==> a.start < b.start && b.stop < a.stop)
      && (!(q <= r) && !(r <= q) <==> a.stop < b.start || b.stop < a.start)
  {
    hide Parse, SpansOf, Sound, Lookup;
    var p := Parse(text, i, depth, cs).value;
    RecordedSpansArePlaces(text, i, depth, cs, q);
    RecordedSpansArePlaces(text, i, depth, cs, r);
    PathsDecidePlaces(text, p.tree, p.start, depth, cs, q, r);
    PathsDecidePlaces(text, p.tree, p.start, depth, cs, r, q);
    assert q <= r && r <= q ==> q == r;
    assert q <= r && |q| == |r| ==> q == r;
    assert r <= q && |q| == |r| ==> q == r;
  }

  /** In a list, spans stand in the order of their indices. */
  lemma {:induction false} ListSpansAreOrdered(text: Text, i: nat, depth: nat, cs: Charset, q: Path, x: nat, y: nat)
    requires i <= |text| && x < y
    requires q + [Index(x)] in RecordedSpans(text, i, depth, cs) && q + [Index(y)] in RecordedSpans(text, i, depth, cs)
    ensures RecordedSpans(text, i, depth, cs)[q + [Index(x)]].stop < RecordedSpans(text, i, depth, cs)[q + [Index(y)]].start
  {
    hide Parse, SpansOf, Sound, Lookup;
    var p := Parse(text, i, depth, cs).value;
    RecordedSpansArePlaces(text, i, depth, cs, q + [Index(x)]);
    RecordedSpansArePlaces(text, i, depth, cs, q + [Index(y)]);
    IndicesInOrder(text, p.tree, p.start, depth, cs, q, x, y);
  }
}
