/**
 A value read from a text is read again, unchanged, from any piece of that text that contains it
 and starts no later, and from any smaller depth.
 */
module NativeWindows {
  import opened Outcomes
  import opened NativeGrammar

  predicate Window(s: Text, a: nat, i: nat, k: nat) {
    a <= i <= k <= |s|
  }

  function Min(x: nat, y: nat): nat {
    if x < y then x else y
  }

  lemma {:induction false} SubWindow(s: Text, a: nat, k: nat, x: nat, y: nat)
    requires a <= x <= y <= k <= |s|
    ensures s[a..k][x - a..y - a] == s[x..y]
  {
    var inner := s[a..k][x - a..y - a];
    assert |inner| == y - x;
    forall j | 0 <= j < y - x ensures inner[j] == s[x..y][j] {
      assert inner[j] == s[a..k][x - a + j] == s[x + j];
    }
  }

  // ----- Tokens ------------------------------------------------------------------------------

  lemma {:induction false} WindowSkip(s: Text, a: nat, i: nat, k: nat, cs: Charset)
    requires Window(s, a, i, k)
    ensures Skip(s[a..k], i - a, cs) == Min(Skip(s, i, cs), k - i)
    decreases k - i
  {
    if i < k {
      assert s[a..k][i - a] == s[i];
      if cs.space(s[i]) {
        WindowSkip(s, a, i + 1, k, cs);
      }
    }
  }

  lemma {:induction false} WindowStands(s: Text, a: nat, i: nat, k: nat, part: Text)
    requires Window(s, a, i, k)
    ensures StandsAt(s[a..k], i - a, part) <==> StandsAt(s, i, part) && i + |part| <= k
  {
    if i + |part| <= k {
      SubWindow(s, a, k, i, i + |part|);
    }
  }

  lemma {:induction false} WindowFind(s: Text, a: nat, i: nat, k: nat, part: Text)
    requires Window(s, a, i, k) && Find(s, i, part).Some? && Find(s, i, part).value + |part| <= k
    ensures Find(s[a..k], i - a, part) == Some(Find(s, i, part).value - a)
    decreases k - i
  {
    WindowStands(s, a, i, k, part);
    if !StandsAt(s, i, part) {
      WindowFind(s, a, i + 1, k, part);
    }
  }

  lemma {:induction false} WindowHex(s: Text, a: nat, i: nat, k: nat)
    requires Window(s, a, i, k)
    ensures Hex4(s[a..k], i - a) == if i + 4 <= k then Hex4(s, i) else None
  {
  }

  /** An escape ends before the quote does, so all that it looks at lies in the window. */
  lemma {:induction false} WindowEscape(s: Text, a: nat, i: nat, k: nat)
    requires Window(s, a, i, k) && i < |s| && s[i] == BACKSLASH
    requires Escape(s, i).Some? && Scan(s, Escape(s, i).value.1).Some? && Scan(s, Escape(s, i).value.1).value.1 <= k
    ensures Escape(s[a..k], i - a) == Some((Escape(s, i).value.0, Escape(s, i).value.1 - a))
  {
    hide Scan, Hex4;
    var next := Escape(s, i).value.1;
    var t := s[a..k];
    assert next < k;
    assert t[i + 1 - a] == s[i + 1];
    if s[i + 1] == LETTER_U {
      WindowHex(s, a, i + 2, k);
      if next == i + 6 {
        PairScans(s, i + 6);
        if PairFollows(s, i + 6) {
          WindowHex(s, a, i + 8, k);
          assert PairFollows(t, i + 6 - a);
        } else {
          assert !PairFollows(t, i + 6 - a);
        }
      } else {
        WindowHex(s, a, i + 8, k);
        assert PairFollows(t, i + 6 - a);
      }
    }
  }

  /** What scans as a string from a `\u` goes on for at least its four digits and a quote. */
  lemma {:induction false} PairScans(s: Text, i: nat)
    ensures PairFollows(s, i) && Scan(s, i).Some? ==> i + 7 <= Scan(s, i).value.1
  {
    if PairFollows(s, i) && Scan(s, i).Some? {
      assert Escape(s, i).value.1 >= i + 6;
    }
  }

  lemma {:induction false} WindowScan(s: Text, a: nat, i: nat, k: nat)
    requires Window(s, a, i, k) && Scan(s, i).Some? && Scan(s, i).value.1 <= k
    ensures Scan(s[a..k], i - a) == Some((Scan(s, i).value.0, Scan(s, i).value.1 - a))
    decreases k - i
  {
    hide Escape;
    assert s[a..k][i - a] == s[i];
    if s[i] == QUOTE {
    } else if s[i] == BACKSLASH {
      WindowEscape(s, a, i, k);
      WindowScan(s, a, Escape(s, i).value.1, k);
    } else {
      WindowScan(s, a, i + 1, k);
    }
  }

  lemma {:induction false} WindowDigits(s: Text, a: nat, i: nat, k: nat, cs: Charset)
    requires Window(s, a, i, k)
    ensures DigitsEnd(s[a..k], i - a, cs) == Min(DigitsEnd(s, i, cs), k) - a
    decreases k - i
  {
    if i < k {
      assert s[a..k][i - a] == s[i];
      if cs.digit(s[i]) {
        WindowDigits(s, a, i + 1, k, cs);
      }
    }
  }

  lemma {:induction false} WindowInteger(s: Text, a: nat, i: nat, k: nat, cs: Charset)
    requires Window(s, a, i, k) && IntegerEnd(s, i, cs).Some? && IntegerEnd(s, i, cs).value <= k
    ensures IntegerEnd(s[a..k], i - a, cs) == Some(IntegerEnd(s, i, cs).value - a)
  {
    var first := SignEnd(s, i, false);
    assert s[a..k][i - a] == s[i];
    assert s[a..k][first - a] == s[first];
    WindowDigits(s, a, first + 1, k, cs);
  }

  lemma {:induction false} WindowFraction(s: Text, a: nat, i: nat, k: nat, cs: Charset)
    requires Window(s, a, i, k) && FractionEnd(s, i, cs) <= k
    ensures FractionEnd(s[a..k], i - a, cs) == FractionEnd(s, i, cs) - a
  {
    if i < k {
      assert s[a..k][i - a] == s[i];
      WindowDigits(s, a, i + 1, k, cs);
    }
  }

  lemma {:induction false} WindowExponent(s: Text, a: nat, i: nat, k: nat, cs: Charset)
    requires Window(s, a, i, k) && ExponentEnd(s, i, cs) <= k
    ensures ExponentEnd(s[a..k], i - a, cs) == ExponentEnd(s, i, cs) - a
  {
    if i < k {
      assert s[a..k][i - a] == s[i];
      WindowDigits(s, a, i + 1, k, cs);
      if i + 1 < k {
        assert s[a..k][i + 1 - a] == s[i + 1];
        WindowDigits(s, a, SignEnd(s, i + 1, true), k, cs);
      }
    }
  }

  lemma {:induction false} WindowNumber(s: Text, a: nat, i: nat, k: nat, cs: Charset)
    requires Window(s, a, i, k) && NumberAt(s, i, cs).Ok? && i + NumberAt(s, i, cs).value.length <= k
    ensures NumberAt(s[a..k], i - a, cs) == NumberAt(s, i, cs)
  {
    hide IntegerEnd, FractionEnd, ExponentEnd;
    var integer := IntegerEnd(s, i, cs).value;
    var fraction := FractionEnd(s, integer, cs);
    WindowInteger(s, a, i, k, cs);
    WindowFraction(s, a, integer, k, cs);
    WindowExponent(s, a, fraction, k, cs);
    var end := NumberEnd(s, i, cs).value;
    SubWindow(s, a, k, i, end);
  }

  lemma {:induction false} WindowWords(s: Text, a: nat, i: nat, k: nat, cs: Charset)
    requires Window(s, a, i, k)
    ensures WordsEnd(s[a..k], i - a, cs) == Min(WordsEnd(s, i, cs), k) - a
    decreases k - i
  {
    if i < k {
      assert s[a..k][i - a] == s[i];
      if cs.word(s[i]) {
        WindowWords(s, a, i + 1, k, cs);
      }
    }
  }

  lemma {:induction false} WindowString(s: Text, a: nat, i: nat, k: nat)
    requires Window(s, a, i, k) && OpensString(s, i) && StringAt(s, i).Ok? && StringAt(s, i).value.1 <= k
    ensures OpensString(s[a..k], i - a)
    ensures StringAt(s[a..k], i - a) == Ok((StringAt(s, i).value.0, StringAt(s, i).value.1 - a))
  {
    hide StandsAt, Find, Scan;
    WindowStands(s, a, i, k, MARKER);
    assert s[a..k][i - a] == s[i];
    if StandsAt(s, i, MARKER) {
      WindowFind(s, a, i + 5, k, MARKER);
      var end := Find(s, i + 5, MARKER).value;
      SubWindow(s, a, k, i + 5, end);
    } else {
      WindowScan(s, a, i + 1, k);
    }
  }

  lemma {:induction false} WindowScalar(s: Text, a: nat, i: nat, k: nat, cs: Charset)
    requires Window(s, a, i, k) && ScalarAt(s, i, cs).Ok? && i + ScalarAt(s, i, cs).value.length <= k
    ensures ScalarAt(s[a..k], i - a, cs) == ScalarAt(s, i, cs)
  {
    hide StringAt, NumberAt, StandsAt;
    assert s[a..k][i - a] == s[i];
    WindowStands(s, a, i, k, MARKER);
    WindowStands(s, a, i, k, TRUE_WORD);
    WindowStands(s, a, i, k, FALSE_WORD);
    WindowStands(s, a, i, k, NULL_WORD);
    if OpensString(s, i) {
      WindowString(s, a, i, k);
    } else if !StandsAt(s, i, TRUE_WORD) && !StandsAt(s, i, FALSE_WORD) && !StandsAt(s, i, NULL_WORD) {
      WindowNumber(s, a, i, k, cs);
    }
  }

  lemma {:induction false} WindowKey(s: Text, a: nat, i: nat, k: nat, depth: nat, cs: Charset)
    requires Window(s, a, i, k) && KeyAt(s, i, depth, cs).Ok? && KeyAt(s, i, depth, cs).value.1 <= k
    ensures KeyAt(s[a..k], i - a, depth, cs) == Ok((KeyAt(s, i, depth, cs).value.0, KeyAt(s, i, depth, cs).value.1 - a))
  {
    hide StringAt, StandsAt, Skip;
    var at := i + Skip(s, i, cs);
    var end := NameAt(s, at, depth, cs).value.1;
    WindowSkip(s, a, i, k, cs);
    WindowSkip(s, a, end, k, cs);
    WindowStands(s, a, at, k, MARKER);
    assert s[a..k][at - a] == s[at];
    if OpensString(s, at) {
      WindowString(s, a, at, k);
    } else {
      WindowWords(s, a, at + 1, k, cs);
      SubWindow(s, a, k, at, end);
    }
    var colon := end + Skip(s, end, cs);
    assert s[a..k][colon - a] == s[colon];
  }

  // ----- Values ------------------------------------------------------------------------------

  lemma {:induction false} WindowParse(s: Text, a: nat, i: nat, k: nat, depth: nat, cs: Charset)
    requires Window(s, a, i, k) && Parse(s, i, depth, cs).Ok? && Parse(s, i, depth, cs).value.End() <= k
    ensures var p := Parse(s, i, depth, cs).value; Parse(s[a..k], i - a, depth, cs) == Ok(Parsed(p.start - a, p.tree))
    decreases |s| - i, 1
  {
    hide ScalarAt, ContainerAt, Skip;
    WindowSkip(s, a, i, k, cs);
    var start := i + Skip(s, i, cs);
    assert start < k && s[a..k][start - a] == s[start];
    if OpensContainer(s, start) {
      WindowContainer(s, a, start, k, depth, cs);
    } else {
      WindowScalar(s, a, start, k, cs);
    }
  }

  lemma {:induction false} WindowContainer(s: Text, a: nat, i: nat, k: nat, depth: nat, cs: Charset)
    requires Window(s, a, i, k) && OpensContainer(s, i)
    requires ContainerAt(s, i, depth, cs).Ok? && i + ContainerAt(s, i, depth, cs).value.length <= k
    ensures OpensContainer(s[a..k], i - a) && ContainerAt(s[a..k], i - a, depth, cs) == ContainerAt(s, i, depth, cs)
    decreases |s| - i, 0
  {
    hide Members, Skip;
    var obj := s[i] == OPEN_OBJECT;
    assert s[a..k][i - a] == s[i];
    WindowSkip(s, a, i + 1, k, cs);
    var first := i + 1 + Skip(s, i + 1, cs);
    if first < |s| && s[first] == Closing(obj) {
      assert s[a..k][first - a] == s[first];
    } else {
      WindowMembers(s, a, first, k, i, depth, obj, [], cs);
      assert s[a..k][first - a] == s[first];
    }
  }

  lemma {:induction false} WindowMember(
    s: Text, a: nat, i: nat, k: nat, begin: nat, depth: nat, obj: bool, out: seq<Entry>, cs: Charset)
    requires Window(s, a, i, k) && a <= begin <= i && MemberAt(s, i, begin, depth, obj, out, cs).Ok?
    requires var entry := MemberAt(s, i, begin, depth, obj, out, cs).value; begin + entry.offset + entry.tree.length <= k
    ensures MemberAt(s[a..k], i - a, begin - a, depth, obj, out, cs) == MemberAt(s, i, begin, depth, obj, out, cs)
    decreases |s| - i, 2
  {
    hide KeyAt, Parse;
    if obj {
      WindowKey(s, a, i, k, depth, cs);
    }
    var next := StepAt(s, i, depth, obj, out, cs).value.1;
    WindowParse(s, a, next, k, depth + 1, cs);
  }

  lemma {:induction false} WindowSeparator(s: Text, a: nat, i: nat, k: nat, obj: bool, cs: Charset)
    requires Window(s, a, i, k) && Separator(s, i, obj, cs).Ok? && Separator(s, i, obj, cs).value.1 <= k
    ensures Separator(s[a..k], i - a, obj, cs) == Ok((Separator(s, i, obj, cs).value.0, Separator(s, i, obj, cs).value.1 - a))
  {
    hide Skip;
    WindowSkip(s, a, i, k, cs);
    var at := i + Skip(s, i, cs);
    assert s[a..k][at - a] == s[at];
  }

  lemma {:induction false} WindowMembers(
    s: Text, a: nat, i: nat, k: nat, begin: nat, depth: nat, obj: bool, out: seq<Entry>, cs: Charset)
    requires Window(s, a, i, k) && a <= begin <= i && Members(s, i, begin, depth, obj, out, cs).Ok?
    requires Members(s, i, begin, depth, obj, out, cs).value.1 <= k
    ensures var r := Members(s, i, begin, depth, obj, out, cs).value;
      Members(s[a..k], i - a, begin - a, depth, obj, out, cs) == Ok((r.0, r.1 - a))
    decreases |s| - i, 3
  {
    hide MemberAt, Separator;
    var entry := MemberAt(s, i, begin, depth, obj, out, cs).value;
    var stop := begin + entry.offset + entry.tree.length;
    var (closed, next) := Separator(s, stop, obj, cs).value;
    if !closed {
      WindowMembers(s, a, next, k, begin, depth, obj, out + [entry], cs);
    }
    WindowMember(s, a, i, k, begin, depth, obj, out, cs);
    WindowSeparator(s, a, stop, k, obj, cs);
  }

  // ----- Depth -------------------------------------------------------------------------------

  lemma {:induction false} ShallowerParse(s: Text, i: nat, depth: nat, less: nat, cs: Charset)
    requires i <= |s| && less <= depth && Parse(s, i, depth, cs).Ok?
    ensures Parse(s, i, less, cs) == Parse(s, i, depth, cs)
    decreases |s| - i, 1
  {
    hide ScalarAt, ContainerAt, Skip;
    var start := i + Skip(s, i, cs);
    if OpensContainer(s, start) {
      ShallowerContainer(s, start, depth, less, cs);
    }
  }

  lemma {:induction false} ShallowerContainer(s: Text, i: nat, depth: nat, less: nat, cs: Charset)
    requires OpensContainer(s, i) && less <= depth && ContainerAt(s, i, depth, cs).Ok?
    ensures ContainerAt(s, i, less, cs) == ContainerAt(s, i, depth, cs)
    decreases |s| - i, 0
  {
    hide Members, Skip;
    var obj := s[i] == OPEN_OBJECT;
    var first := i + 1 + Skip(s, i + 1, cs);
    if !(first < |s| && s[first] == Closing(obj)) {
      ShallowerMembers(s, first, i, depth, less, obj, [], cs);
    }
  }

  lemma {:induction false} ShallowerMembers(
    s: Text, i: nat, begin: nat, depth: nat, less: nat, obj: bool, out: seq<Entry>, cs: Charset)
    requires begin <= i <= |s| && less <= depth && Members(s, i, begin, depth, obj, out, cs).Ok?
    ensures Members(s, i, begin, less, obj, out, cs) == Members(s, i, begin, depth, obj, out, cs)
    decreases |s| - i, 3
  {
    hide MemberAt, Separator;
    var entry := MemberAt(s, i, begin, depth, obj, out, cs).value;
    var (closed, next) := Separator(s, begin + entry.offset + entry.tree.length, obj, cs).value;
    if !closed {
      ShallowerMembers(s, next, begin, depth, less, obj, out + [entry], cs);
    }
    ShallowerMember(s, i, begin, depth, less, obj, out, cs);
  }

  lemma {:induction false} ShallowerMember(
    s: Text, i: nat, begin: nat, depth: nat, less: nat, obj: bool, out: seq<Entry>, cs: Charset)
    requires begin <= i <= |s| && less <= depth && MemberAt(s, i, begin, depth, obj, out, cs).Ok?
    ensures MemberAt(s, i, begin, less, obj, out, cs) == MemberAt(s, i, begin, depth, obj, out, cs)
    decreases |s| - i, 2
  {
    hide StringAt, Parse;
    ShallowerParse(s, StepAt(s, i, depth, obj, out, cs).value.1, depth + 1, less + 1, cs);
  }
}
