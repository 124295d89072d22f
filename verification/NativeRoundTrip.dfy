/** What the writer writes, the parser reads back. */
module NativeRoundTrip {
  import opened Outcomes
  import opened NativeGrammar
  import opened NativeParsers
  import opened NativeWriting

  // ----- Parts of a text ---------------------------------------------------------------------

  lemma {:induction false} StandsParts(s: Text, i: nat, a: Text, b: Text)
    ensures StandsAt(s, i, a + b) <==> StandsAt(s, i, a) && StandsAt(s, i + |a|, b)
  {
    if StandsAt(s, i, a + b) {
      var t := s[i..i + |a + b|];
      assert t[..|a|] == s[i..i + |a|] == (a + b)[..|a|];
      assert t[|a|..] == s[i + |a|..i + |a| + |b|] == (a + b)[|a|..];
    }
    if StandsAt(s, i, a) && StandsAt(s, i + |a|, b) {
      assert s[i..i + |a + b|] == s[i..i + |a|] + s[i + |a|..i + |a| + |b|];
    }
  }

  lemma {:induction false} StandsCodes(s: Text, i: nat, t: Text)
    requires StandsAt(s, i, t)
    ensures forall k :: 0 <= k < |t| ==> s[i + k] == t[k]
  {
    forall k | 0 <= k < |t| ensures s[i + k] == t[k] {
      assert s[i..i + |t|][k] == t[k];
    }
  }

  lemma {:induction false} StandsFirst(s: Text, i: nat, t: Text)
    ensures StandsAt(s, i, t) && t != [] ==> s[i] == t[0]
  {
    if StandsAt(s, i, t) && t != [] {
      assert s[i..i + |t|][0] == t[0];
    }
  }

  lemma {:induction false} Spelled()
    ensures Codes("<|\"|>") == MARKER && Codes("true") == TRUE_WORD && Codes("false") == FALSE_WORD && Codes("null") == NULL_WORD
  {
  }

  // ----- Space -------------------------------------------------------------------------------

  lemma {:induction false} SkipGap(s: Text, i: nat, gap: Text, cs: Charset)
    requires StandsAt(s, i, gap) && IsGap(gap, cs)
    ensures Skip(s, i, cs) == |gap| + Skip(s, i + |gap|, cs)
    decreases |gap|
  {
    if gap != [] {
      assert gap == [gap[0]] + gap[1..];
      StandsParts(s, i, [gap[0]], gap[1..]);
      assert s[i] == gap[0] by { StandsCodes(s, i, gap); }
      SkipGap(s, i + 1, gap[1..], cs);
    }
  }

  lemma {:induction false} NoSkip(s: Text, i: nat, cs: Charset)
    requires IsUsual(cs) && i < |s| && 33 <= s[i] <= 126
    ensures Skip(s, i, cs) == 0
  {
  }

  // ----- Strings -----------------------------------------------------------------------------

  lemma {:induction false} HexReads(s: Text, i: nat, c: nat)
    requires c < 0x10000 && StandsAt(s, i, HexText(c))
    ensures Hex4(s, i) == Some(c)
  {
    StandsCodes(s, i, HexText(c));
    HexDigitReads(c / 0x1000);
    HexDigitReads(c / 0x100 % 16);
    HexDigitReads(c / 0x10 % 16);
    HexDigitReads(c % 16);
    FourDigits(c);
  }

  lemma {:induction false} HexDigitReads(n: nat)
    requires n < 16
    ensures HexDigit(HexCode(n)) == Some(n)
  {
  }

  lemma {:induction false} FourDigits(c: nat)
    requires c < 0x10000
    ensures ((c / 0x1000 * 16 + c / 0x100 % 16) * 16 + c / 0x10 % 16) * 16 + c % 16 == c
  {
    var (x, y, z) := (c / 0x1000, c / 0x100, c / 0x10);
    assert y / 16 == x && z / 16 == y && c / 16 == z;
    assert y == 16 * x + y % 16 && z == 16 * y + z % 16 && c == 16 * z + c % 16;
  }

  lemma {:induction false} UnicodeEscapeReads(s: Text, i: nat, c: nat)
    requires c < 0x10000 && StandsAt(s, i, UnicodeEscape(c))
    ensures i + 6 <= |s| && s[i] == BACKSLASH && s[i + 1] == LETTER_U && Hex4(s, i + 2) == Some(c)
  {
    StandsParts(s, i, ['\\' as int, 'u' as int], HexText(c));
    StandsCodes(s, i, ['\\' as int, 'u' as int]);
    HexReads(s, i + 2, c);
  }

  /** An escape reads as its character. */
  lemma {:induction false} EscapeReads(s: Text, i: nat, c: Code, ascii: bool)
    requires (ascii ==> IsScalar(c)) && StandsAt(s, i, Escaped(c, ascii)) && Escaped(c, ascii) != [c]
    ensures s[i] == BACKSLASH && Escape(s, i) == Some((c, i + |Escaped(c, ascii)|))
  {
    hide Hex4, HexText, UnicodeEscape, Simple, Codes;
    if c >= 0x10000 {
      PairReads(s, i, c);
    } else if Escaped(c, ascii) == UnicodeEscape(c) {
      UnicodeEscapeReads(s, i, c);
    } else {
      ShortEscape(c, ascii);
      StandsCodes(s, i, Escaped(c, ascii));
    }
  }

  lemma {:induction false} ShortEscape(c: Code, ascii: bool)
    requires c < 0x10000 && (ascii ==> IsScalar(c)) && Escaped(c, ascii) != [c] && Escaped(c, ascii) != UnicodeEscape(c)
    ensures var t := Escaped(c, ascii); |t| == 2 && t[0] == BACKSLASH && t[1] != LETTER_U && Simple(t[1]) == Some(c)
  {
    hide HexText;
  }

  lemma {:induction false} PairReads(s: Text, i: nat, c: Code)
    requires 0x10000 <= c < 0x110000
    requires StandsAt(s, i, UnicodeEscape(0xD800 + (c - 0x10000) / 0x400) + UnicodeEscape(0xDC00 + (c - 0x10000) % 0x400))
    ensures s[i] == BACKSLASH && Escape(s, i) == Some((c, i + 12))
  {
    hide Hex4, UnicodeEscape;
    var (high, low) := (0xD800 + (c - 0x10000) / 0x400, 0xDC00 + (c - 0x10000) % 0x400);
    StandsParts(s, i, UnicodeEscape(high), UnicodeEscape(low));
    UnicodeEscapeReads(s, i, high);
    UnicodeEscapeReads(s, i + 6, low);
    assert (high - 0xD800) * 0x400 + (low - 0xDC00) == c - 0x10000;
  }

  lemma {:induction false} QuotedReads(s: Text, i: nat, t: Text, ascii: bool)
    requires (ascii ==> AreScalars(t)) && StandsAt(s, i, QuotedRest(t, ascii))
    ensures Scan(s, i) == Some((t, i + |QuotedRest(t, ascii)|))
    decreases |t|
  {
    hide Escape, Escaped;
    if t == [] {
      StandsCodes(s, i, ['"' as int]);
    } else {
      var (first, rest) := (Escaped(t[0], ascii), QuotedRest(t[1..], ascii));
      StandsParts(s, i, first, rest);
      QuotedReads(s, i + |first|, t[1..], ascii);
      assert [t[0]] + t[1..] == t;
      if first == [t[0]] {
        StandsCodes(s, i, first);
        RawIsPlain(t[0], ascii);
      } else {
        EscapeReads(s, i, t[0], ascii);
      }
    }
  }

  lemma {:induction false} RawIsPlain(c: Code, ascii: bool)
    requires (ascii ==> IsScalar(c)) && Escaped(c, ascii) == [c]
    ensures c != QUOTE && c != BACKSLASH && c >= 32
  {
  }

  lemma {:induction false} MarkerInside(s: Text, i: nat, t: Text)
    requires StandsAt(s, i, t) && StandsAt(s, i, MARKER) && |t| >= 5
    ensures HasMarker(t)
  {
    Spelled();
    assert t[0..5] == s[i..i + |t|][0..5] == s[i..i + 5];
    assert StandsAt(t, 0, MARKER);
  }

  /** The marker does not overlap itself. */
  lemma {:induction false} MarkersApart(s: Text, i: nat, k: nat)
    requires StandsAt(s, i, MARKER) && 0 < k < 5
    ensures !StandsAt(s, i + k, MARKER)
  {
    StandsFirst(s, i + k, MARKER);
    assert s[i..i + 5][k] == MARKER[k] != MARKER[0];
  }

  /** So none stands before the one that closes the text. */
  lemma {:induction false} NoEarlierMarker(s: Text, i: nat, t: Text)
    requires StandsAt(s, i, t) && StandsAt(s, i + |t|, MARKER) && !HasMarker(t) && t != []
    ensures !StandsAt(s, i, MARKER)
  {
    hide StandsAt, HasMarker;
    if StandsAt(s, i, MARKER) {
      if |t| < 5 { MarkersApart(s, i, |t|); } else { MarkerInside(s, i, t); }
    }
  }

  lemma {:induction false} LongerHasMarker(t: Text)
    requires t != [] && HasMarker(t[1..])
    ensures HasMarker(t)
  {
    Spelled();
    var k: nat :| k <= |t[1..]| && StandsAt(t[1..], k, MARKER);
    assert t[k + 1..k + 6] == t[1..][k..k + 5];
    assert StandsAt(t, k + 1, MARKER);
  }

  lemma {:induction false} MarkedReads(s: Text, i: nat, t: Text)
    requires StandsAt(s, i, t) && StandsAt(s, i + |t|, MARKER) && !HasMarker(t)
    ensures Find(s, i, MARKER) == Some(i + |t|)
    decreases |t|
  {
    hide StandsAt, HasMarker;
    StandsInside(s, i, t);
    StandsInside(s, i + |t|, MARKER);
    if t != [] {
      NoEarlierMarker(s, i, t);
      assert t == [t[0]] + t[1..];
      StandsParts(s, i, [t[0]], t[1..]);
      if HasMarker(t[1..]) { LongerHasMarker(t); }
      MarkedReads(s, i + 1, t[1..]);
    }
  }

  lemma {:induction false} StandsInside(s: Text, i: nat, t: Text)
    requires StandsAt(s, i, t)
    ensures i + |t| <= |s|
  {
  }

  lemma {:induction false} QuotedStringReads(s: Text, i: nat, t: Text, ascii: bool)
    requires (ascii ==> AreScalars(t)) && StandsAt(s, i, Quoted(t, ascii))
    ensures OpensString(s, i) && StringAt(s, i) == Ok((t, i + |Quoted(t, ascii)|))
  {
    hide QuotedRest, Scan, Find;
    StandsParts(s, i, ['"' as int], QuotedRest(t, ascii));
    StandsFirst(s, i, ['"' as int]);
    StandsFirst(s, i, MARKER);
    QuotedReads(s, i + 1, t, ascii);
  }

  lemma {:induction false} MarkedStringReads(s: Text, i: nat, t: Text)
    requires StandsAt(s, i, MARKER + t + MARKER) && !HasMarker(t)
    ensures OpensString(s, i) && StringAt(s, i) == Ok((t, i + |MARKER + t + MARKER|))
  {
    hide Find, Scan, HasMarker;
    StandsParts(s, i, MARKER + t, MARKER);
    StandsParts(s, i, MARKER, t);
    MarkedReads(s, i + 5, t);
  }

  lemma {:induction false} StringReads(s: Text, i: nat, t: Text, notation: Notation)
    requires (notation.AsciiJson? ==> AreScalars(t)) && StandsAt(s, i, StringText(t, notation))
    ensures OpensString(s, i) && StringAt(s, i) == Ok((t, i + |StringText(t, notation)|))
  {
    hide Quoted, HasMarker, Codes, StringAt, OpensString, StandsAt;
    Spelled();
    if notation.Native? && !HasMarker(t) {
      MarkedStringReads(s, i, t);
    } else {
      QuotedStringReads(s, i, t, notation.AsciiJson?);
    }
  }

  // ----- Numbers and names -------------------------------------------------------------------

  /** What may stand behind a value: nothing, or a comma or a closing bracket. */
  predicate Ends(s: Text, i: nat) {
    i <= |s| && (i < |s| ==> s[i] in {COMMA, CLOSE_OBJECT, CLOSE_LIST})
  }

  predicate NoDigitAt(s: Text, i: nat) {
    i <= |s| && (i < |s| ==> s[i] < 128 && !IsDigit(s[i]))
  }

  lemma {:induction false} DigitsRead(s: Text, i: nat, t: Text, cs: Charset)
    requires IsUsual(cs) && StandsAt(s, i, t) && NoDigitAt(s, i + |t|) && forall k :: 0 <= k < |t| ==> IsDigit(t[k])
    ensures DigitsEnd(s, i, cs) == i + |t|
    decreases |t|
  {
    if t != [] {
      StandsFirst(s, i, t);
      assert t == [t[0]] + t[1..];
      StandsParts(s, i, [t[0]], t[1..]);
      DigitsRead(s, i + 1, t[1..], cs);
    }
  }

  lemma {:induction false} UnsignedReads(s: Text, a: nat, whole: Text, cs: Charset)
    requires IsUsual(cs) && IsWhole(whole) && StandsAt(s, a, whole) && NoDigitAt(s, a + |whole|)
    ensures a < |s| && IsDigit(s[a]) && (if s[a] == ZERO then |whole| == 1 else DigitsEnd(s, a + 1, cs) == a + |whole|)
  {
    hide IsUsual, StandsAt, DigitsEnd;
    StandsInside(s, a, whole);
    StandsFirst(s, a, whole);
    assert whole == [whole[0]] + whole[1..];
    StandsParts(s, a, [whole[0]], whole[1..]);
    DigitsRead(s, a + 1, whole[1..], cs);
  }

  lemma {:induction false} WholeReads(s: Text, i: nat, sign: Text, whole: Text, cs: Charset)
    requires IsUsual(cs) && IsSign(sign) && IsWhole(whole) && StandsAt(s, i, sign + whole) && NoDigitAt(s, i + |sign + whole|)
    ensures IntegerEnd(s, i, cs) == Some(i + |sign + whole|)
  {
    hide IsUsual, StandsAt, DigitsEnd, IsWhole, NoDigitAt;
    StandsParts(s, i, sign, whole);
    StandsFirst(s, i, sign);
    UnsignedReads(s, i + |sign|, whole, cs);
    assert SignEnd(s, i, false) == i + |sign|;
  }

  lemma {:induction false} FractionReads(s: Text, i: nat, fraction: Text, cs: Charset)
    requires IsUsual(cs) && IsFraction(fraction) && StandsAt(s, i, fraction) && NoDigitAt(s, i + |fraction|)
    requires fraction == [] && i < |s| ==> s[i] != '.' as int
    ensures FractionEnd(s, i, cs) == i + |fraction|
  {
    hide IsUsual;
    if fraction != [] {
      StandsFirst(s, i, fraction);
      assert fraction == [fraction[0]] + fraction[1..];
      StandsParts(s, i, [fraction[0]], fraction[1..]);
      DigitsRead(s, i + 1, fraction[1..], cs);
    }
  }

  /** The digits of an exponent, behind a sign if there is one. */
  lemma {:induction false} SignedDigitsRead(s: Text, i: nat, sign: Text, digits: Text, cs: Charset)
    requires IsUsual(cs) && sign in {[], ['+' as int], ['-' as int]} && AreDigits(digits)
    requires StandsAt(s, i, sign) && StandsAt(s, i + |sign|, digits) && NoDigitAt(s, i + |sign| + |digits|)
    ensures SignEnd(s, i, true) == i + |sign| && DigitsEnd(s, i + |sign|, cs) == i + |sign| + |digits|
  {
    hide IsUsual;
    StandsFirst(s, i, sign);
    StandsFirst(s, i + |sign|, digits);
    DigitsRead(s, i + |sign|, digits, cs);
  }

  lemma {:induction false} ExponentReads(s: Text, i: nat, exponent: Text, cs: Charset)
    requires IsUsual(cs) && IsExponent(exponent) && StandsAt(s, i, exponent) && NoDigitAt(s, i + |exponent|)
    requires exponent == [] && i < |s| ==> s[i] != 'e' as int && s[i] != 'E' as int
    ensures ExponentEnd(s, i, cs) == i + |exponent|
  {
    hide IsUsual, StandsAt, DigitsEnd, SignEnd;
    StandsInside(s, i, exponent);
    if exponent != [] {
      StandsFirst(s, i, exponent);
      var rest := exponent[1..];
      assert exponent == [exponent[0]] + rest;
      StandsParts(s, i, [exponent[0]], rest);
      if AreDigits(rest) {
        StandsParts(s, i + 1, [], rest);
        assert [] + rest == rest;
        SignedDigitsRead(s, i + 1, [], rest, cs);
      } else {
        assert rest == [rest[0]] + exponent[2..];
        StandsParts(s, i + 1, [rest[0]], exponent[2..]);
        SignedDigitsRead(s, i + 1, [rest[0]], exponent[2..], cs);
      }
    }
  }

  /** What follows the parts of a number is no digit, so that each part ends where it ends. */
  lemma {:induction false} NumberPartsRead(s: Text, i: nat, sign: Text, whole: Text, fraction: Text, exponent: Text, cs: Charset)
    requires IsUsual(cs) && IsSign(sign) && IsWhole(whole) && IsFraction(fraction) && IsExponent(exponent)
    requires StandsAt(s, i, sign + whole + fraction + exponent) && Ends(s, i + |sign + whole + fraction + exponent|)
    ensures NumberEnd(s, i, cs) == Some(i + |sign + whole + fraction + exponent|)
  {
    hide IsUsual, IntegerEnd, FractionEnd, ExponentEnd, IsWhole, IsSign;
    StandsParts(s, i, sign + whole + fraction, exponent);
    StandsParts(s, i, sign + whole, fraction);
    var a := i + |sign + whole|;
    var b := a + |fraction|;
    StandsFirst(s, a, fraction);
    StandsFirst(s, b, exponent);
    WholeReads(s, i, sign, whole, cs);
    FractionReads(s, a, fraction, cs);
    ExponentReads(s, b, exponent, cs);
  }

  predicate OpensNumber(c: Code) {
    IsDigit(c) || c == '-' as int
  }

  lemma {:induction false} NumberShape(literal: Text)
    requires IsNumber(literal)
    ensures Ascii(literal) && literal != [] && OpensNumber(literal[0])
  {
    var sign, whole, fraction, exponent :|
      IsSign(sign) && IsWhole(whole) && IsFraction(fraction) && IsExponent(exponent) && literal == sign + whole + fraction + exponent;
    assert Ascii(sign) && Ascii(whole);
    DigitsAreAscii(fraction);
    DigitsAreAscii(exponent);
  }

  lemma {:induction false} DigitsAreAscii(t: Text)
    requires IsFraction(t) || IsExponent(t)
    ensures Ascii(t)
  {
    assert forall k :: 1 <= k < |t| ==> t[k] == t[1..][k - 1];
    assert forall k :: 2 <= k < |t| ==> t[k] == t[2..][k - 2];
  }

  lemma {:induction false} NumberReads(s: Text, i: nat, literal: Text, cs: Charset)
    requires IsUsual(cs) && IsNumber(literal) && StandsAt(s, i, literal) && Ends(s, i + |literal|)
    ensures NumberAt(s, i, cs) == Ok(Leaf(|literal|, Number(literal)))
  {
    hide IsUsual, NumberEnd;
    NumberShape(literal);
    var sign, whole, fraction, exponent :|
      IsSign(sign) && IsWhole(whole) && IsFraction(fraction) && IsExponent(exponent) && literal == sign + whole + fraction + exponent;
    NumberPartsRead(s, i, sign, whole, fraction, exponent, cs);
  }

  lemma {:induction false} WordsRead(s: Text, i: nat, t: Text, cs: Charset)
    requires IsUsual(cs) && StandsAt(s, i, t) && forall k :: 0 <= k < |t| ==> Letter(t[k]) || IsDigit(t[k])
    requires i + |t| < |s| && s[i + |t|] == COLON
    ensures WordsEnd(s, i, cs) == i + |t|
    decreases |t|
  {
    if t != [] {
      StandsFirst(s, i, t);
      assert t == [t[0]] + t[1..];
      StandsParts(s, i, [t[0]], t[1..]);
      WordsRead(s, i + 1, t[1..], cs);
    }
  }

  lemma {:induction false} BareNameReads(s: Text, i: nat, name: Text, depth: nat, cs: Charset)
    requires IsUsual(cs) && IsBareName(name) && StandsAt(s, i, name) && i + |name| < |s| && s[i + |name|] == COLON
    ensures Skip(s, i, cs) == 0 && NameAt(s, i, depth, cs) == Ok((name, i + |name|))
  {
    hide IsUsual, StringAt;
    StandsFirst(s, i, name);
    StandsFirst(s, i, MARKER);
    NoSkip(s, i, cs);
    assert name == [name[0]] + name[1..];
    StandsParts(s, i, [name[0]], name[1..]);
    WordsRead(s, i + 1, name[1..], cs);
    assert !OpensString(s, i);
  }

  /** A key and its colon, where the key may be bare. */
  lemma {:induction false} KeyReads(s: Text, i: nat, name: Text, notation: Notation, depth: nat, cs: Charset)
    requires IsUsual(cs) && (notation.AsciiJson? ==> AreScalars(name)) && depth + 1 <= DEPTH_LIMIT
    requires StandsAt(s, i, KeyText(name, notation) + [COLON])
    ensures KeyAt(s, i, depth, cs) == Ok((name, i + |KeyText(name, notation)| + 1))
  {
    hide IsUsual, StringText, StringAt, OpensString, StandsAt, IsBareName;
    var key := KeyText(name, notation);
    StandsParts(s, i, key, [COLON]);
    StandsFirst(s, i + |key|, [COLON]);
    StandsInside(s, i + |key|, [COLON]);
    NoSkip(s, i + |key|, cs);
    if notation.Native? && IsBareName(name) {
      BareNameReads(s, i, name, depth, cs);
    } else {
      StringReads(s, i, name, notation);
      StringOpens(s, i, name, notation);
      NoSkip(s, i, cs);
    }
  }

  lemma {:induction false} StringOpens(s: Text, i: nat, t: Text, notation: Notation)
    requires (notation.AsciiJson? ==> AreScalars(t)) && StandsAt(s, i, StringText(t, notation))
    ensures i < |s| && (s[i] == QUOTE || s[i] == MARKER[0])
  {
    hide QuotedRest;
    Spelled();
    assert StringText(t, notation)[0] in {QUOTE, MARKER[0]};
    StandsFirst(s, i, StringText(t, notation));
  }

  // ----- Values ------------------------------------------------------------------------------

  lemma {:induction false} LiteralReads(s: Text, i: nat, scalar: Scalar, word: Text, cs: Charset)
    requires StandsAt(s, i, word)
    requires (scalar == Boolean(true) && word == Codes("true")) || (scalar == Boolean(false) && word == Codes("false"))
             || (scalar == Null && word == Codes("null"))
    ensures i < |s| && s[i] == word[0] && !OpensContainer(s, i) && ScalarAt(s, i, cs) == Ok(Leaf(|word|, scalar))
  {
    hide StringAt, NumberAt;
    Spelled();
    StandsFirst(s, i, word);
    StandsFirst(s, i, MARKER);
    StandsFirst(s, i, TRUE_WORD);
    StandsFirst(s, i, FALSE_WORD);
  }

  /** A text that goes on with `true`, `false` or `null`, whatever stands behind it, reads as just that. */
  lemma {:induction false} LiteralsMeanThemselves(s: Text, i: nat, depth: nat, cs: Charset)
    requires IsUsual(cs) && i <= |s| && depth <= 40
    ensures StandsAt(s, i, Codes("true")) ==> Parse(s, i, depth, cs) == Ok(Parsed(i, Leaf(4, Boolean(true))))
    ensures StandsAt(s, i, Codes("false")) ==> Parse(s, i, depth, cs) == Ok(Parsed(i, Leaf(5, Boolean(false))))
    ensures StandsAt(s, i, Codes("null")) ==> Parse(s, i, depth, cs) == Ok(Parsed(i, Leaf(4, Null)))
  {
    hide IsUsual, ScalarAt, ContainerAt, StandsAt;
    if StandsAt(s, i, Codes("true")) {
      LiteralReads(s, i, Boolean(true), Codes("true"), cs);
      NoSkip(s, i, cs);
    }
    if StandsAt(s, i, Codes("false")) {
      LiteralReads(s, i, Boolean(false), Codes("false"), cs);
      NoSkip(s, i, cs);
    }
    if StandsAt(s, i, Codes("null")) {
      LiteralReads(s, i, Null, Codes("null"), cs);
      NoSkip(s, i, cs);
    }
  }

  lemma {:induction false} StringScalarReads(s: Text, i: nat, t: Text, notation: Notation, cs: Charset)
    requires (notation.AsciiJson? ==> AreScalars(t)) && StandsAt(s, i, StringText(t, notation))
    ensures i < |s| && (s[i] == QUOTE || s[i] == MARKER[0])
    ensures !OpensContainer(s, i) && ScalarAt(s, i, cs) == Ok(Leaf(|StringText(t, notation)|, Str(t)))
  {
    hide StringText, StringAt, NumberAt, OpensString, StandsAt;
    StringReads(s, i, t, notation);
    StringOpens(s, i, t, notation);
  }

  lemma {:induction false} NumberScalarReads(s: Text, i: nat, literal: Text, cs: Charset)
    requires IsUsual(cs) && IsNumber(literal) && StandsAt(s, i, literal) && Ends(s, i + |literal|)
    ensures i < |s| && OpensNumber(s[i]) && !OpensContainer(s, i)
    ensures ScalarAt(s, i, cs) == Ok(Leaf(|literal|, Number(literal)))
  {
    hide IsUsual, IsNumber, StringAt, NumberAt;
    NumberShape(literal);
    NumberReads(s, i, literal, cs);
    StandsFirst(s, i, literal);
    StandsFirst(s, i, MARKER);
    StandsFirst(s, i, TRUE_WORD);
    StandsFirst(s, i, FALSE_WORD);
    StandsFirst(s, i, NULL_WORD);
  }

  /** What reading a value that is written at `i` gives. */
  ghost predicate ReadsBack(s: Text, i: nat, v: Value, style: Style, depth: nat, cs: Charset)
    requires i <= |s| && IsWritable(v, style.notation)
  {
    var r := Parse(s, i, depth, cs);
    r.Ok? && r.value.start == i && r.value.tree.length == |Rendered(v, style)| && ValueOf(r.value.tree) == v
  }

  lemma {:induction false} AtomReadsBack(s: Text, i: nat, v: Value, style: Style, depth: nat, cs: Charset)
    requires IsUsual(cs) && v.Atom? && IsWritable(v, style.notation) && depth <= DEPTH_LIMIT
    requires StandsAt(s, i, Rendered(v, style)) && Ends(s, i + |Rendered(v, style)|)
    ensures ReadsBack(s, i, v, style, depth, cs)
  {
    hide IsUsual, ScalarAt, ContainerAt, StringText, IsNumber, StandsAt, Codes;
    LiteralStarts();
    match v.scalar {
      case Str(t) => StringScalarReads(s, i, t, style.notation, cs);
      case Number(literal) => NumberScalarReads(s, i, literal, cs);
      case _ => LiteralReads(s, i, v.scalar, Rendered(v, style), cs);
    }
    NoSkip(s, i, cs);
  }

  lemma {:induction false} LiteralStarts()
    ensures IsVisible(Codes("true")) && IsVisible(Codes("false")) && IsVisible(Codes("null"))
    ensures Codes("true")[0] == 't' as int && Codes("false")[0] == 'f' as int && Codes("null")[0] == 'n' as int
  {
  }

  predicate IsVisible(t: Text) {
    t != [] && 33 <= t[0] <= 126
  }

  lemma {:induction false} StringIsVisible(t: Text, notation: Notation)
    requires notation.AsciiJson? ==> AreScalars(t)
    ensures IsVisible(StringText(t, notation))
  {
    hide QuotedRest;
  }

  lemma {:induction false} RenderedIsVisible(v: Value, style: Style)
    requires IsWritable(v, style.notation)
    ensures IsVisible(Rendered(v, style))
  {
    hide IsNumber, StringText, Codes, RenderedFrom;
    LiteralStarts();
    match v {
      case Atom(Str(t)) => StringIsVisible(t, style.notation);
      case Atom(Number(literal)) => NumberShape(literal);
      case _ =>
    }
  }

  lemma {:induction false} MemberIsVisible(member: Member, obj: bool, k: nat, style: Style)
    requires IsWritableMember(member, obj, k, style.notation)
    ensures IsVisible(RenderedMember(member, obj, k, style))
  {
    hide IsWritable, Rendered, StringText;
    RenderedIsVisible(member.value, style);
    if obj {
      StringIsVisible(member.step.name, style.notation);
    }
  }

  lemma {:induction false} GapBefore(s: Text, i: nat, gap: Text, t: Text, cs: Charset)
    requires IsUsual(cs) && IsGap(gap, cs) && StandsAt(s, i, gap) && StandsAt(s, i + |gap|, t) && IsVisible(t)
    ensures Skip(s, i, cs) == |gap| && Skip(s, i + |gap|, cs) == 0
  {
    hide IsUsual, IsGap;
    SkipGap(s, i, gap, cs);
    StandsFirst(s, i + |gap|, t);
    NoSkip(s, i + |gap|, cs);
  }

  /** A value behind a gap. */
  lemma {:induction false} ParseBehindGap(s: Text, i: nat, v: Value, style: Style, depth: nat, cs: Charset)
    requires IsUsual(cs) && IsGap(style.gap, cs) && IsWritable(v, style.notation)
    requires StandsAt(s, i, style.gap) && StandsAt(s, i + |style.gap|, Rendered(v, style))
    ensures Parse(s, i, depth, cs) == Parse(s, i + |style.gap|, depth, cs)
  {
    hide IsUsual, IsGap, ScalarAt, ContainerAt, Rendered, StandsAt;
    StandsInside(s, i, style.gap);
    RenderedIsVisible(v, style);
    GapBefore(s, i, style.gap, Rendered(v, style), cs);
  }

  /** What stands behind a member: the rest of its container. */
  ghost function RestText(members: seq<Member>, obj: bool, k: nat, style: Style): Text
    requires members != [] && forall j :: 0 <= j < |members| ==> IsWritableMember(members[j], obj, k + j, style.notation)
  {
    (if |members| > 1 then [COMMA] + style.gap else []) + RenderedFrom(members[1..], obj, k + 1, style)
  }

  lemma {:induction false} RestEnds(s: Text, i: nat, members: seq<Member>, obj: bool, k: nat, style: Style)
    requires members != [] && forall j :: 0 <= j < |members| ==> IsWritableMember(members[j], obj, k + j, style.notation)
    requires StandsAt(s, i, RestText(members, obj, k, style))
    ensures i < |s| && s[i] == (if |members| > 1 then COMMA else Closing(obj)) && Ends(s, i)
  {
    hide RenderedMember, IsWritableMember;
    StandsFirst(s, i, RestText(members, obj, k, style));
  }

  predicate Fits(members: seq<Member>, depth: nat) {
    forall k :: 0 <= k < |members| ==> depth + 1 + Height(members[k].value) <= DEPTH_LIMIT
  }

  lemma {:induction false} HeightsFit(members: seq<Member>, depth: nat)
    requires depth + 1 + HeightOfAll(members) <= DEPTH_LIMIT
    ensures Fits(members, depth)
    decreases |members|
  {
    if members != [] {
      HeightsFit(members[1..], depth);
      assert forall k :: 1 <= k < |members| ==> members[k] == members[1..][k - 1];
    }
  }

  /** One member, behind the key if there is one. */
  lemma {:induction false} MemberReadsBack(
    s: Text, i: nat, begin: nat, v: Value, k: nat, out: seq<Entry>, style: Style, depth: nat, cs: Charset)
    requires IsUsual(cs) && IsGap(style.gap, cs) && v.Container? && IsWritable(v, style.notation) && k < |v.members|
    requires begin <= i && MembersOf(out) == v.members[..k] && Fits(v.members, depth)
    requires var t := RenderedMember(v.members[k], v.obj, k, style); StandsAt(s, i, t) && Ends(s, i + |t|)
    ensures var r := MemberAt(s, i, begin, depth, v.obj, out, cs);
      && r.Ok? && MemberOf(r.value) == v.members[k]
      && begin + r.value.offset + r.value.tree.length == i + |RenderedMember(v.members[k], v.obj, k, style)|
    decreases v, 0
  {
    hide IsUsual, IsGap, IsWritable, Rendered, StandsAt, Ends, KeyText, KeyAt, Parse, Height, Fits;
    var (member, gap) := (v.members[k], style.gap);
    WritableMember(v, k, style.notation);
    assert depth + 1 + Height(member.value) <= DEPTH_LIMIT by { FitsMember(v.members, k, depth); }
    var text := Rendered(member.value, style);
    StandsInside(s, i, RenderedMember(member, v.obj, k, style));
    if v.obj {
      var key := KeyText(member.step.name, style.notation) + [COLON];
      assert RenderedMember(member, v.obj, k, style) == key + (gap + text);
      StandsParts(s, i, key, gap + text);
      StandsParts(s, i + |key|, gap, text);
      KeyReads(s, i, member.step.name, style.notation, depth, cs);
      KeyIsNew(v, k, out, style.notation);
      ValueReadsBack(s, i + |key| + |gap|, member.value, style, depth + 1, cs);
      ParseBehindGap(s, i + |key|, member.value, style, depth + 1, cs);
    } else {
      assert RenderedMember(member, v.obj, k, style) == text;
      assert |out| == k by { assert |MembersOf(out)| == k; }
      ValueReadsBack(s, i, member.value, style, depth + 1, cs);
    }
  }

  lemma {:induction false} FitsMember(members: seq<Member>, k: nat, depth: nat)
    requires Fits(members, depth) && k < |members|
    ensures depth + 1 + Height(members[k].value) <= DEPTH_LIMIT
  {
  }

  lemma {:induction false} WritableMember(v: Value, k: nat, notation: Notation)
    requires v.Container? && IsWritable(v, notation) && k < |v.members|
    ensures IsWritableMember(v.members[k], v.obj, k, notation) && IsWritable(v.members[k].value, notation)
  {
  }

  lemma {:induction false} KeyIsNew(v: Value, k: nat, out: seq<Entry>, notation: Notation)
    requires v.Container? && v.obj && IsWritable(v, notation) && k < |v.members| && MembersOf(out) == v.members[..k]
    ensures !HasStep(out, v.members[k].step)
  {
    SameSteps(out, v.members[k].step);
  }

  /** One member and what separates it from the next or closes the container. */
  lemma {:induction false} MembersStep(s: Text, i: nat, begin: nat, depth: nat, obj: bool, out: seq<Entry>, cs: Charset, p: nat)
    requires IsUsual(cs) && begin <= i <= |s| && MemberAt(s, i, begin, depth, obj, out, cs).Ok?
    requires p < |s| && s[p] in {COMMA, Closing(obj)}
    requires var entry := MemberAt(s, i, begin, depth, obj, out, cs).value; begin + entry.offset + entry.tree.length == p
    ensures var more := out + [MemberAt(s, i, begin, depth, obj, out, cs).value];
      Members(s, i, begin, depth, obj, out, cs)
      == if s[p] == COMMA then Members(s, p + 1, begin, depth, obj, more, cs) else Ok((more, p + 1))
  {
    hide IsUsual, MemberAt;
    NoSkip(s, p, cs);
  }

  /** The members from the k-th on, after those that were read. */
  lemma {:induction false} MembersReadBack(
    s: Text, i: nat, begin: nat, v: Value, k: nat, out: seq<Entry>, style: Style, depth: nat, cs: Charset)
    requires IsUsual(cs) && IsGap(style.gap, cs) && v.Container? && IsWritable(v, style.notation) && k < |v.members|
    requires begin <= i && MembersOf(out) == v.members[..k] && Fits(v.members, depth)
    requires forall j :: 0 <= j < |v.members[k..]| ==> IsWritableMember(v.members[k..][j], v.obj, k + j, style.notation)
    requires StandsAt(s, i, RenderedFrom(v.members[k..], v.obj, k, style))
    ensures i <= |s|
    ensures var r := Members(s, i, begin, depth, v.obj, out, cs);
      && r.Ok? && MembersOf(r.value.0) == v.members && r.value.1 == i + |RenderedFrom(v.members[k..], v.obj, k, style)|
    decreases v, 1, |v.members| - k
  {
    hide IsUsual, IsGap, IsWritable, IsWritableMember, RenderedMember, StandsAt, MemberAt, Fits, Members, MembersOf, RenderedFrom, RestText, Ends;
    var (rest, text) := (v.members[k..], RenderedMember(v.members[k], v.obj, k, style));
    var p := i + |text|;
    MemberThenRest(rest, v.obj, k, style);
    StandsInside(s, i, RenderedFrom(rest, v.obj, k, style));
    StandsParts(s, i, text, RestText(rest, v.obj, k, style));
    RestEnds(s, p, rest, v.obj, k, style);
    MemberReadsBack(s, i, begin, v, k, out, style, depth, cs);
    var entry := MemberAt(s, i, begin, depth, v.obj, out, cs).value;
    MembersGrow(out, entry);
    MembersStep(s, i, begin, depth, v.obj, out, cs, p);
    assert v.members[..k + 1] == v.members[..k] + [v.members[k]];
    if k + 1 == |v.members| {
      assert v.members[..k + 1] == v.members;
      assert |RestText(rest, v.obj, k, style)| == 1 by { LastRest(rest, v.obj, k, style); }
    } else {
      assert rest[1..] == v.members[k + 1..];
      RestSplits(s, p, rest, v.obj, k, style);
      MembersReadBack(s, p + 1 + |style.gap|, begin, v, k + 1, out + [entry], style, depth, cs);
      MembersBehindGap(s, p + 1, begin, v, k + 1, out + [entry], style, depth, cs);
    }
  }

  lemma {:induction false} MemberThenRest(members: seq<Member>, obj: bool, k: nat, style: Style)
    requires members != [] && forall j :: 0 <= j < |members| ==> IsWritableMember(members[j], obj, k + j, style.notation)
    ensures RenderedFrom(members, obj, k, style) == RenderedMember(members[0], obj, k, style) + RestText(members, obj, k, style)
  {
    hide IsWritableMember, RenderedMember;
  }

  lemma {:induction false} LastRest(members: seq<Member>, obj: bool, k: nat, style: Style)
    requires |members| == 1 && IsWritableMember(members[0], obj, k, style.notation)
    ensures |RestText(members, obj, k, style)| == 1
  {
    hide IsWritableMember;
  }

  lemma {:induction false} RestSplits(s: Text, p: nat, members: seq<Member>, obj: bool, k: nat, style: Style)
    requires |members| > 1 && forall j :: 0 <= j < |members| ==> IsWritableMember(members[j], obj, k + j, style.notation)
    requires StandsAt(s, p, RestText(members, obj, k, style))
    ensures StandsAt(s, p + 1, style.gap)
    ensures StandsAt(s, p + 1 + |style.gap|, RenderedFrom(members[1..], obj, k + 1, style))
    ensures |RestText(members, obj, k, style)| == 1 + |style.gap| + |RenderedFrom(members[1..], obj, k + 1, style)|
  {
    hide IsWritableMember, RenderedFrom, StandsAt;
    var later := RenderedFrom(members[1..], obj, k + 1, style);
    assert RestText(members, obj, k, style) == [COMMA] + (style.gap + later);
    StandsParts(s, p, [COMMA], style.gap + later);
    StandsParts(s, p + 1, style.gap, later);
  }

  lemma {:induction false} MembersBehindGap(
    s: Text, i: nat, begin: nat, v: Value, k: nat, out: seq<Entry>, style: Style, depth: nat, cs: Charset)
    requires IsUsual(cs) && IsGap(style.gap, cs) && v.Container? && k < |v.members| && begin <= i
    requires forall j :: 0 <= j < |v.members[k..]| ==> IsWritableMember(v.members[k..][j], v.obj, k + j, style.notation)
    requires StandsAt(s, i, style.gap) && StandsAt(s, i + |style.gap|, RenderedFrom(v.members[k..], v.obj, k, style))
    ensures i + |style.gap| <= |s|
    ensures Members(s, i, begin, depth, v.obj, out, cs) == Members(s, i + |style.gap|, begin, depth, v.obj, out, cs)
  {
    hide IsUsual, IsGap, IsWritableMember, RenderedMember, StandsAt, MemberAt;
    StandsInside(s, i, style.gap);
    MemberIsVisible(v.members[k], v.obj, k, style);
    GapBefore(s, i, style.gap, RenderedFrom(v.members[k..], v.obj, k, style), cs);
    SpaceBeforeMember(s, i, begin, depth, v.obj, out, cs);
  }

  /** Where a written container begins, and what stands inside it. */
  lemma {:induction false} ContainerStarts(s: Text, i: nat, v: Value, style: Style, cs: Charset)
    requires IsUsual(cs) && v.Container? && IsWritable(v, style.notation) && StandsAt(s, i, Rendered(v, style))
    requires forall j :: 0 <= j < |v.members| ==> IsWritableMember(v.members[j], v.obj, 0 + j, style.notation)
    ensures |Rendered(v, style)| == 1 + |RenderedFrom(v.members, v.obj, 0, style)|
    ensures i < |s| && s[i] == (if v.obj then OPEN_OBJECT else OPEN_LIST) && Skip(s, i, cs) == 0
    ensures StandsAt(s, i + 1, RenderedFrom(v.members, v.obj, 0, style))
  {
    hide IsUsual, RenderedFrom, StandsAt, IsWritableMember, IsWritable;
    var inner := RenderedFrom(v.members, v.obj, 0, style);
    assert Rendered(v, style) == [if v.obj then OPEN_OBJECT else OPEN_LIST] + inner;
    StandsParts(s, i, [if v.obj then OPEN_OBJECT else OPEN_LIST], inner);
    StandsFirst(s, i, Rendered(v, style));
    StandsInside(s, i, Rendered(v, style));
    NoSkip(s, i, cs);
  }

  lemma {:induction false} ParsedContainer(s: Text, i: nat, v: Value, style: Style, depth: nat, cs: Charset)
    requires v.Container? && IsWritable(v, style.notation) && depth <= DEPTH_LIMIT && OpensContainer(s, i) && Skip(s, i, cs) == 0
    requires var r := ContainerAt(s, i, depth, cs); r.Ok? && r.value.length == |Rendered(v, style)| && ValueOf(r.value) == v
    ensures ReadsBack(s, i, v, style, depth, cs)
  {
    hide ContainerAt, Rendered, IsWritable, ScalarAt;
  }

  /** A written value, before something that ends it, reads back as it is. */
  lemma {:induction false} ValueReadsBack(s: Text, i: nat, v: Value, style: Style, depth: nat, cs: Charset)
    requires IsUsual(cs) && IsGap(style.gap, cs) && IsWritable(v, style.notation) && depth + Height(v) <= DEPTH_LIMIT
    requires StandsAt(s, i, Rendered(v, style)) && Ends(s, i + |Rendered(v, style)|)
    ensures ReadsBack(s, i, v, style, depth, cs)
    decreases v, 2
  {
    hide IsUsual, IsGap, IsWritable, IsWritableMember, Rendered, RenderedFrom, StandsAt, ContainerAt, Height, ReadsBack, Skip;
    if v.Atom? {
      AtomReadsBack(s, i, v, style, depth, cs);
    } else {
      AllWritable(v, style.notation);
      ContainerStarts(s, i, v, style, cs);
      ContainerReadsBack(s, i, v, style, depth, cs);
      ParsedContainer(s, i, v, style, depth, cs);
    }
  }

  lemma {:induction false} ContainerReadsBack(s: Text, i: nat, v: Value, style: Style, depth: nat, cs: Charset)
    requires IsUsual(cs) && IsGap(style.gap, cs) && v.Container? && IsWritable(v, style.notation) && depth + Height(v) <= DEPTH_LIMIT
    requires i < |s| && s[i] == (if v.obj then OPEN_OBJECT else OPEN_LIST)
    requires StandsAt(s, i + 1, RenderedFrom(v.members, v.obj, 0, style))
    ensures var r := ContainerAt(s, i, depth, cs);
      r.Ok? && r.value.length == 1 + |RenderedFrom(v.members, v.obj, 0, style)| && ValueOf(r.value) == v
    decreases v, 1, |v.members| + 1
  {
    hide IsUsual, IsGap, IsWritable, IsWritableMember, StandsAt, Members, RenderedFrom, Height, HeightOfAll;
    AllWritable(v, style.notation);
    NoEntries([], 0);
    if v.members == [] {
      EmptyStarts(s, i + 1, v.obj, style, cs);
    } else {
      FirstMemberStarts(s, i + 1, v, style, cs);
      HeightOfContainer(v);
      HeightsFit(v.members, depth);
      assert v.members[..0] == [] && v.members[0..] == v.members;
      MembersReadBack(s, i + 1, i, v, 0, [], style, depth, cs);
    }
  }

  lemma {:induction false} AllWritable(v: Value, notation: Notation)
    requires v.Container? && IsWritable(v, notation)
    ensures forall j :: 0 <= j < |v.members| ==> IsWritableMember(v.members[j], v.obj, j, notation)
  {
  }

  lemma {:induction false} EmptyStarts(s: Text, i: nat, obj: bool, style: Style, cs: Charset)
    requires IsUsual(cs) && StandsAt(s, i, RenderedFrom([], obj, 0, style))
    ensures |RenderedFrom([], obj, 0, style)| == 1 && i < |s| && s[i] == Closing(obj) && Skip(s, i, cs) == 0
  {
    hide IsUsual;
    StandsFirst(s, i, RenderedFrom([], obj, 0, style));
    NoSkip(s, i, cs);
  }

  lemma {:induction false} FirstMemberStarts(s: Text, i: nat, v: Value, style: Style, cs: Charset)
    requires IsUsual(cs) && v.Container? && IsWritable(v, style.notation) && v.members != []
    requires StandsAt(s, i, RenderedFrom(v.members, v.obj, 0, style))
    ensures i < |s| && s[i] != Closing(v.obj) && Skip(s, i, cs) == 0
  {
    hide IsUsual, StandsAt, RenderedMember, IsWritableMember;
    MemberIsVisible(v.members[0], v.obj, 0, style);
    MemberIsNoClosing(v.members[0], v.obj, 0, style);
    StandsFirst(s, i, RenderedFrom(v.members, v.obj, 0, style));
    StandsInside(s, i, RenderedFrom(v.members, v.obj, 0, style));
    NoSkip(s, i, cs);
  }

  lemma {:induction false} HeightOfContainer(v: Value)
    requires v.Container? && v.members != []
    ensures Height(v) == 1 + HeightOfAll(v.members)
  {
  }

  lemma {:induction false} MemberIsNoClosing(member: Member, obj: bool, k: nat, style: Style)
    requires IsWritableMember(member, obj, k, style.notation)
    ensures var t := RenderedMember(member, obj, k, style); t != [] && t[0] != CLOSE_OBJECT && t[0] != CLOSE_LIST
  {
    hide StringText, IsNumber, QuotedRest, Codes, RenderedFrom;
    MemberIsVisible(member, obj, k, style);
    LiteralStarts();
    if obj {
      StringStarts(member.step.name, style.notation);
    } else {
      match member.value {
        case Atom(Str(t)) => StringStarts(t, style.notation);
        case Atom(Number(literal)) => NumberShape(literal);
        case _ =>
      }
    }
  }

  lemma {:induction false} StringStarts(t: Text, notation: Notation)
    requires notation.AsciiJson? ==> AreScalars(t)
    ensures StringText(t, notation) != [] && StringText(t, notation)[0] in {QUOTE, MARKER[0]}
  {
    hide QuotedRest;
  }

  // ----- The round trip ----------------------------------------------------------------------

  /**
   Every value within the depth limit, written in any of the notations with any gap, is read back as
   it is, up to the end of its text.
   */
  lemma {:induction false} WrittenValueReadsBack(v: Value, style: Style, cs: Charset)
    requires IsUsual(cs) && IsGap(style.gap, cs) && IsWritable(v, style.notation) && Height(v) <= 40
    ensures var (text, r) := (Rendered(v, style), Parse(Rendered(v, style), 0, 0, cs));
      r.Ok? && r.value.start == 0 && r.value.End() == |text| && ValueOf(r.value.tree) == v
  {
    hide IsUsual, Parse, Rendered, IsWritable, Height;
    var text := Rendered(v, style);
    assert text[0..0 + |text|] == text;
    ValueReadsBack(text, 0, v, style, 0, cs);
  }
}
