/** The native value parser and the parser that records spans, each moving an index over its text. */
module NativeParsers {
  import opened Outcomes
  import opened NativeGrammar

  predicate HasMember(members: seq<Member>, step: Step) {
    exists k :: 0 <= k < |members| && members[k].step == step
  }

  lemma {:induction false} SameSteps(entries: seq<Entry>, step: Step)
    ensures HasMember(MembersOf(entries), step) <==> HasStep(entries, step)
  {
    var members := MembersOf(entries);
    assert forall k :: 0 <= k < |entries| ==> members[k] == MemberOf(entries[k]);
    if HasMember(members, step) {
      var k :| 0 <= k < |members| && members[k].step == step;
      assert entries[k].step == step;
    }
    if HasStep(entries, step) {
      var k :| 0 <= k < |entries| && entries[k].step == step;
      assert members[k].step == step;
    }
  }

  lemma {:induction false} MembersGrow(entries: seq<Entry>, entry: Entry)
    ensures MembersOf(entries + [entry]) == MembersOf(entries) + [MemberOf(entry)]
  {
    assert (entries + [entry])[..|entries|] == entries;
  }

  lemma {:induction false} EntrySpansGrow(entries: seq<Entry>, entry: Entry, path: Path, start: nat)
    ensures EntrySpans(entries + [entry], path, start) == EntrySpans(entries, path, start) + EntrySpan(entry, path, start)
  {
    assert (entries + [entry])[..|entries|] == entries;
  }

  lemma {:induction false} NoEntries(path: Path, start: nat)
    ensures MembersOf([]) == [] && EntrySpans([], path, start) == map[]
  {
  }

  lemma {:induction false} SkippedSpace(s: Text, i: nat, cs: Charset)
    requires i <= |s|
    ensures Skip(s, i + Skip(s, i, cs), cs) == 0
    decreases |s| - i
  {
    if i < |s| && cs.space(s[i]) {
      SkippedSpace(s, i + 1, cs);
    }
  }

  /** Space before a member belongs to no member. */
  lemma {:induction false} SpaceBeforeMember(s: Text, i: nat, begin: nat, depth: nat, obj: bool, out: seq<Entry>, cs: Charset)
    requires begin <= i <= |s|
    ensures MemberAt(s, i + Skip(s, i, cs), begin, depth, obj, out, cs) == MemberAt(s, i, begin, depth, obj, out, cs)
  {
    hide Skip, NameAt, ContainerAt, ScalarAt;
    SkippedSpace(s, i, cs);
  }

  class NativeValueParser {
    const text: Text
    const cs: Charset
    var index: nat

    constructor (text: Text, cs: Charset)
      ensures this.text == text && this.cs == cs && index == 0
    {
      this.text, this.cs, this.index := text, cs, 0;
    }

    method Space()
      requires index <= |text|
      modifies this
      ensures index == old(index) + Skip(text, old(index), cs) <= |text|
    {
      while index < |text| && cs.space(text[index])
        invariant old(index) <= index <= |text|
        invariant old(index) + Skip(text, old(index), cs) == index + Skip(text, index, cs)
        decreases |text| - index
      {
        index := index + 1;
      }
    }

    /** A string at the index, in either notation. */
    method StringValue() returns (r: Result<Text, Fault>)
      requires OpensString(text, index)
      modifies this
      ensures match StringAt(text, old(index))
              case Err(e) => r == Err(e)
              case Ok((value, end)) => r == Ok(value) && index == end
    {
      if StandsAt(text, index, MARKER) {
        var end := Find(text, index + 5, MARKER);
        if end.None? { return Err(UnterminatedString); }
        r := Ok(text[index + 5..end.value]);
        index := end.value + 5;
        return;
      }
      var found := Scan(text, index + 1);
      if found.None? { return Err(BadQuotedString); }
      index := found.value.1;
      return Ok(found.value.0);
    }

    /** The key of the next member, and its colon. */
    method Name(depth: nat) returns (r: Result<Text, Fault>)
      requires index <= |text|
      modifies this
      ensures match KeyAt(text, old(index), depth, cs)
              case Err(e) => r == Err(e)
              case Ok((name, end)) => r == Ok(name) && index == end
    {
      hide Skip, StringAt;
      Space();
      if OpensString(text, index) {
        if depth + 1 > DEPTH_LIMIT { return Err(TooDeep); }
        r := StringValue();
        if r.Err? { return; }
      } else {
        var end := NameEnd(text, index, cs);
        if end.None? { return Err(InvalidKey); }
        r := Ok(text[index..end.value]);
        index := end.value;
      }
      Space();
      if index >= |text| || text[index] != COLON { return Err(MissingColon); }
      index := index + 1;
    }

    /** A value that is no container, at the index. */
    method ScalarValue() returns (r: Result<Value, Fault>)
      modifies this
      ensures match ScalarAt(text, old(index), cs)
              case Err(e) => r == Err(e)
              case Ok(tree) => r == Ok(ValueOf(tree)) && index == old(index) + tree.length
    {
      hide StringAt, NumberEnd;
      if index >= |text| { return Err(TruncatedValue); }
      if OpensString(text, index) {
        var str := StringValue();
        if str.Err? { return Err(str.error); }
        return Ok(Atom(Str(str.value)));
      }
      if StandsAt(text, index, TRUE_WORD) {
        index := index + 4;
        return Ok(Atom(Boolean(true)));
      }
      if StandsAt(text, index, FALSE_WORD) {
        index := index + 5;
        return Ok(Atom(Boolean(false)));
      }
      if StandsAt(text, index, NULL_WORD) {
        index := index + 4;
        return Ok(Atom(Null));
      }
      var end := NumberEnd(text, index, cs);
      if end.None? { return Err(InvalidValue); }
      var literal := text[index..end.value];
      index := end.value;
      if !Ascii(literal) { return Err(BadNumber); }
      return Ok(Atom(Number(literal)));
    }

    method Value(depth: nat) returns (r: Result<Value, Fault>)
      requires index <= |text|
      modifies this
      ensures match Parse(text, old(index), depth, cs)
              case Err(e) => r == Err(e)
              case Ok(parsed) => r == Ok(ValueOf(parsed.tree)) && index == parsed.End()
      decreases |text| - index, 1
    {
      hide Skip, ScalarAt, ContainerAt;
      if depth > DEPTH_LIMIT { return Err(TooDeep); }
      Space();
      if index < |text| && (text[index] == OPEN_OBJECT || text[index] == OPEN_LIST) {
        r := ContainerValue(depth);
      } else {
        r := ScalarValue();
      }
    }

    /** The next member of a container that began at `begin` and has the given members so far. */
    method NextMember(depth: nat, obj: bool, members: seq<Member>, ghost begin: nat, ghost entries: seq<Entry>)
      returns (r: Result<Member, Fault>)
      requires begin <= index <= |text| && members == MembersOf(entries)
      modifies this
      ensures match MemberAt(text, old(index), begin, depth, obj, entries, cs)
              case Err(e) => r == Err(e)
              case Ok(entry) => r == Ok(MemberOf(entry)) && index == begin + entry.offset + entry.tree.length
      decreases |text| - index, 2
    {
      hide KeyAt, Parse;
      var step := Index(|members|);
      if obj {
        var name := Name(depth);
        if name.Err? { return Err(name.error); }
        SameSteps(entries, Key(name.value));
        if HasMember(members, Key(name.value)) { return Err(DuplicateKey); }
        step := Key(name.value);
      }
      var value := Value(depth + 1);
      if value.Err? { return Err(value.error); }
      return Ok(Member(step, value.value));
    }

    /** Whether the container closes here or goes on after a comma. */
    method Next(obj: bool) returns (r: Result<bool, Fault>)
      requires index <= |text|
      modifies this
      ensures match Separator(text, old(index), obj, cs)
              case Err(e) => r == Err(e)
              case Ok((closed, next)) => r == Ok(closed) && index == next
    {
      Space();
      if index < |text| && text[index] == Closing(obj) {
        index := index + 1;
        return Ok(true);
      }
      if index >= |text| || text[index] != COMMA { return Err(InvalidSeparator); }
      index := index + 1;
      return Ok(false);
    }

    method ContainerValue(depth: nat) returns (r: Result<Value, Fault>)
      requires OpensContainer(text, index)
      modifies this
      ensures match ContainerAt(text, old(index), depth, cs)
              case Err(e) => r == Err(e)
              case Ok(tree) => r == Ok(ValueOf(tree)) && index == old(index) + tree.length
      decreases |text| - index, 0
    {
      hide MemberAt, Skip, Separator, MembersOf;
      NoEntries([], 0);
      var obj := text[index] == OPEN_OBJECT;
      index := index + 1;
      Space();
      if index < |text| && text[index] == Closing(obj) {
        index := index + 1;
        return Ok(Container(obj, []));
      }
      var members: seq<Member> := [];
      ghost var begin := old(index);
      ghost var entries: seq<Entry> := [];
      ghost var whole := Members(text, index, begin, depth, obj, [], cs);
      while true
        invariant begin < index <= |text| && members == MembersOf(entries)
        invariant whole == Members(text, index, begin, depth, obj, entries, cs)
        decreases |text| - index
      {
        ghost var entry := MemberAt(text, index, begin, depth, obj, entries, cs);
        var member := NextMember(depth, obj, members, begin, entries);
        if member.Err? { return Err(member.error); }
        MembersGrow(entries, entry.value);
        members, entries := members + [member.value], entries + [entry.value];
        var closed := Next(obj);
        if closed.Err? { return Err(closed.error); }
        if closed.value { return Ok(Container(obj, members)); }
      }
    }
  }

  /** The parser that also records, for every path of the value, where its text stands. */
  class SpanParser {
    const base: NativeValueParser
    var spans: map<Path, Span>

    constructor (text: Text, cs: Charset)
      ensures base.text == text && base.cs == cs && base.index == 0 && spans == map[] && fresh(base)
    {
      base := new NativeValueParser(text, cs);
      spans := map[];
    }

    method Value(depth: nat, path: Path) returns (r: Result<Value, Fault>)
      requires base.index <= |base.text|
      modifies this, base
      ensures match Parse(base.text, old(base.index), depth, base.cs)
              case Err(e) => r == Err(e)
              case Ok(parsed) =>
                && r == Ok(ValueOf(parsed.tree)) && base.index == parsed.End()
                && spans == old(spans) + SpansOf(parsed.tree, path, parsed.start)
      decreases |base.text| - base.index, 1
    {
      hide ScalarAt, Skip, ContainerAt;
      if depth > DEPTH_LIMIT { return Err(TooDeep); }
      base.Space();
      var start := base.index;
      if base.index < |base.text| && (base.text[base.index] == OPEN_OBJECT || base.text[base.index] == OPEN_LIST) {
        r := ContainerValue(depth, path);
      } else {
        r := base.ScalarValue();
      }
      if r.Err? { return; }
      spans := spans[path := Span(start, base.index)];
    }

    method NextMember(depth: nat, obj: bool, path: Path, members: seq<Member>, ghost begin: nat, ghost entries: seq<Entry>)
      returns (r: Result<Member, Fault>)
      requires begin <= base.index <= |base.text| && members == MembersOf(entries)
      modifies this, base
      ensures match MemberAt(base.text, old(base.index), begin, depth, obj, entries, base.cs)
              case Err(e) => r == Err(e)
              case Ok(entry) =>
                && r == Ok(MemberOf(entry)) && base.index == begin + entry.offset + entry.tree.length
                && spans == old(spans) + EntrySpan(entry, path, begin)
      decreases |base.text| - base.index, 2
    {
      hide KeyAt, Parse, SpansOf;
      SpaceBeforeMember(base.text, base.index, begin, depth, obj, entries, base.cs);
      base.Space();
      var step := Index(|members|);
      if obj {
        var name := base.Name(depth);
        if name.Err? { return Err(name.error); }
        SameSteps(entries, Key(name.value));
        if HasMember(members, Key(name.value)) { return Err(DuplicateKey); }
        step := Key(name.value);
      }
      var value := Value(depth + 1, path + [step]);
      if value.Err? { return Err(value.error); }
      return Ok(Member(step, value.value));
    }

    method ContainerValue(depth: nat, path: Path) returns (r: Result<Value, Fault>)
      requires OpensContainer(base.text, base.index)
      modifies this, base
      ensures match ContainerAt(base.text, old(base.index), depth, base.cs)
              case Err(e) => r == Err(e)
              case Ok(tree) =>
                && r == Ok(ValueOf(tree)) && base.index == old(base.index) + tree.length
                && spans == old(spans) + EntrySpans(tree.entries, path, old(base.index))
      decreases |base.text| - base.index, 0
    {
      hide MemberAt, Skip, Separator, MembersOf, SpansOf, EntrySpans;
      ghost var begin := base.index;
      NoEntries(path, begin);
      var obj := base.text[base.index] == OPEN_OBJECT;
      base.index := base.index + 1;
      base.Space();
      if base.index < |base.text| && base.text[base.index] == Closing(obj) {
        base.index := base.index + 1;
        return Ok(Container(obj, []));
      }
      var members: seq<Member> := [];
      ghost var entries: seq<Entry> := [];
      ghost var whole := Members(base.text, base.index, begin, depth, obj, [], base.cs);
      while true
        invariant begin < base.index <= |base.text| && members == MembersOf(entries)
        invariant spans == old(spans) + EntrySpans(entries, path, begin)
        invariant whole == Members(base.text, base.index, begin, depth, obj, entries, base.cs)
        decreases |base.text| - base.index
      {
        ghost var entry := MemberAt(base.text, base.index, begin, depth, obj, entries, base.cs);
        var member := NextMember(depth, obj, path, members, begin, entries);
        if member.Err? { return Err(member.error); }
        MembersGrow(entries, entry.value);
        EntrySpansGrow(entries, entry.value, path, begin);
        members, entries := members + [member.value], entries + [entry.value];
        var closed := base.Next(obj);
        if closed.Err? { return Err(closed.error); }
        if closed.value { return Ok(Container(obj, members)); }
      }
    }
  }
}
