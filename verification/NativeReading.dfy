/** The other direction: whatever the parser accepts is a value that can be written, and reads the same again. */
module NativeReading {
  import opened Outcomes
  import opened NativeGrammar
  import opened NativeParsers
  import opened SpanTheorems
  import opened NativeWriting
  import opened NativeRoundTrip

  // ----- Numbers -----------------------------------------------------------------------------

  lemma {:induction false} DigitsInside(s: Text, i: nat, cs: Charset)
    requires IsUsual(cs) && i <= |s| && forall k :: i <= k < DigitsEnd(s, i, cs) ==> s[k] < 128
    ensures forall k :: i <= k < DigitsEnd(s, i, cs) ==> IsDigit(s[k])
    decreases |s| - i
  {
    if i < |s| && cs.digit(s[i]) {
      DigitsInside(s, i + 1, cs);
    }
  }

  lemma {:induction false} DigitsPiece(s: Text, i: nat, cs: Charset)
    requires IsUsual(cs) && i <= |s| && i < DigitsEnd(s, i, cs) && forall k :: i <= k < DigitsEnd(s, i, cs) ==> s[k] < 128
    ensures AreDigits(s[i..DigitsEnd(s, i, cs)])
  {
    hide IsUsual;
    DigitsInside(s, i, cs);
  }

  lemma {:induction false} WholePiece(s: Text, i: nat, cs: Charset) returns (a: nat)
    requires IsUsual(cs) && IntegerEnd(s, i, cs).Some? && forall k :: i <= k < IntegerEnd(s, i, cs).value ==> s[k] < 128
    ensures i <= a < IntegerEnd(s, i, cs).value && IsSign(s[i..a]) && IsWhole(s[a..IntegerEnd(s, i, cs).value])
  {
    hide IsUsual;
    var end := IntegerEnd(s, i, cs).value;
    a := SignEnd(s, i, false);
    if s[a] != ZERO {
      DigitsInside(s, a + 1, cs);
    }
    assert forall k :: a <= k < end ==> IsDigit(s[k]);
    assert s[a..end][0] == s[a];
  }

  lemma {:induction false} FractionPiece(s: Text, i: nat, cs: Charset)
    requires IsUsual(cs) && i <= |s| && forall k :: i <= k < FractionEnd(s, i, cs) ==> s[k] < 128
    ensures IsFraction(s[i..FractionEnd(s, i, cs)])
  {
    hide IsUsual;
    var end := FractionEnd(s, i, cs);
    if end > i {
      DigitsPiece(s, i + 1, cs);
      assert s[i..end][1..] == s[i + 1..end] && s[i..end][0] == s[i];
    }
  }

  lemma {:induction false} ExponentPiece(s: Text, i: nat, cs: Charset)
    requires IsUsual(cs) && i <= |s| && forall k :: i <= k < ExponentEnd(s, i, cs) ==> s[k] < 128
    ensures IsExponent(s[i..ExponentEnd(s, i, cs)])
  {
    hide IsUsual;
    var end := ExponentEnd(s, i, cs);
    if end > i {
      var a := SignEnd(s, i + 1, true);
      DigitsPiece(s, a, cs);
      var t := s[i..end];
      assert t[0] == s[i] && t[a - i..] == s[a..end];
      assert a == i + 2 ==> t[1] == s[i + 1];
    }
  }

  lemma {:induction false} FourPieces(s: Text, i: nat, a: nat, b: nat, c: nat, end: nat)
    requires i <= a <= b <= c <= end <= |s|
    ensures s[i..end] == s[i..a] + s[a..b] + s[b..c] + s[c..end]
  {
    assert s[i..c] == s[i..a] + s[a..b] + s[b..c];
    assert s[i..end] == s[i..c] + s[c..end];
  }

  lemma {:induction false} ReadNumberIsNumber(s: Text, i: nat, cs: Charset)
    requires IsUsual(cs) && NumberAt(s, i, cs).Ok?
    ensures IsNumber(NumberAt(s, i, cs).value.scalar.literal)
  {
    hide IsUsual, IntegerEnd, FractionEnd, ExponentEnd, IsWhole, IsFraction, IsExponent, IsSign;
    var end := NumberEnd(s, i, cs).value;
    var b := IntegerEnd(s, i, cs).value;
    var c := FractionEnd(s, b, cs);
    forall k | i <= k < end ensures s[k] < 128 {
      assert s[k] == s[i..end][k - i];
    }
    var a := WholePiece(s, i, cs);
    FractionPiece(s, b, cs);
    ExponentPiece(s, c, cs);
    FourPieces(s, i, a, b, c, end);
  }

  // ----- Values ------------------------------------------------------------------------------

  /** What is read is a value without repeated keys, with numbers as JSON has them, and no deeper than the limit. */
  lemma {:induction false} ReadValueIsWritable(s: Text, tree: Tree, start: nat, depth: nat, cs: Charset)
    requires IsUsual(cs) && Sound(s, tree, start, depth, cs)
    ensures IsWritable(ValueOf(tree), Json) && depth + Height(ValueOf(tree)) <= 40
    decreases tree
  {
    hide IsUsual, ContainerAt, NumberAt, StringAt, Skip, IsNumber;
    match tree
    case Leaf(_, scalar) =>
      if scalar.Number? {
        LeafIsScalar(s, tree, start, depth, cs);
        ReadNumberIsNumber(s, start, cs);
      }
    case Branch(_, obj, entries) =>
      var members := MembersOf(entries);
      forall k | 0 <= k < |members| ensures IsWritableMember(members[k], obj, k, Json) && depth + 1 + Height(members[k].value) <= 40 {
        assert SoundEntry(s, entries[k], start, depth + 1, cs);
        ReadEntryIsWritable(s, entries[k], start, depth + 1, cs);
        assert members[k] == MemberOf(entries[k]);
      }
      AllFit(members, depth);
  }

  lemma {:induction false} ReadEntryIsWritable(s: Text, entry: Entry, begin: nat, depth: nat, cs: Charset)
    requires IsUsual(cs) && SoundEntry(s, entry, begin, depth, cs)
    ensures IsWritable(ValueOf(entry.tree), Json) && depth + Height(ValueOf(entry.tree)) <= 40
    decreases entry
  {
    hide IsUsual;
    ReadValueIsWritable(s, entry.tree, begin + entry.offset, depth, cs);
  }

  lemma {:induction false} LeafIsScalar(s: Text, tree: Tree, start: nat, depth: nat, cs: Charset)
    requires Sound(s, tree, start, depth, cs) && tree.Leaf? && tree.scalar.Number?
    ensures NumberAt(s, start, cs) == Ok(tree)
  {
    hide ContainerAt, NumberAt, StringAt;
    assert Parse(s, start, depth, cs) == Ok(Parsed(start, tree));
  }

  lemma {:induction false} AllFit(members: seq<Member>, depth: nat)
    requires depth <= 40 && forall k :: 0 <= k < |members| ==> depth + 1 + Height(members[k].value) <= 40
    ensures members != [] ==> depth + 1 + HeightOfAll(members) <= 40
    decreases |members|
  {
    if |members| > 1 {
      assert forall k :: 0 <= k < |members[1..]| ==> members[1..][k] == members[k + 1];
      AllFit(members[1..], depth);
    }
  }

  /**
   Any text that the parser accepts: its value written again, in JSON or in the template's notation,
   reads as the same value.
   */
  lemma {:induction false} ReadValueReadsBack(s: Text, i: nat, gap: Text, cs: Charset)
    requires IsUsual(cs) && IsGap(gap, cs) && i <= |s| && Parse(s, i, 0, cs).Ok?
    ensures var v := ValueOf(Parse(s, i, 0, cs).value.tree);
      && IsWritable(v, Json) && IsWritable(v, Native)
      && (forall notation :: notation in {Json, Native} ==>
            var (text, r) := (Rendered(v, Style(notation, gap)), Parse(Rendered(v, Style(notation, gap)), 0, 0, cs));
            r.Ok? && r.value.End() == |text| && ValueOf(r.value.tree) == v)
  {
    hide IsUsual, IsGap, Parse, Rendered, Height, Sound;
    var p := Parse(s, i, 0, cs).value;
    ParseIsSound(s, i, 0, cs);
    ReadValueIsWritable(s, p.tree, p.start, 0, cs);
    var v := ValueOf(p.tree);
    SameInNative(v);
    WrittenValueReadsBack(v, Style(Json, gap), cs);
    WrittenValueReadsBack(v, Style(Native, gap), cs);
  }

  lemma {:induction false} SameInNative(v: Value)
    requires IsWritable(v, Json)
    ensures IsWritable(v, Native)
    decreases v
  {
    hide IsNumber;
    if v.Container? {
      forall k | 0 <= k < |v.members| ensures IsWritableMember(v.members[k], v.obj, k, Native) {
        assert IsWritableMember(v.members[k], v.obj, k, Json);
        SameInNative(v.members[k].value);
      }
    }
  }
}
