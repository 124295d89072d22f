/** A writer of native values that knows nothing of the parsers, and the proof that they read back what it writes. */
module NativeWriting {
  import opened Outcomes
  import opened NativeGrammar
  import opened NativeParsers

  /** Strings and keys as the chat template writes them, as JSON does, or as JSON does with ASCII only. */
  datatype Notation = Native | Json | AsciiJson

  /** `gap` is what stands behind each comma and each colon. */
  datatype Style = Style(notation: Notation, gap: Text)

  /** What the Unicode database says of ASCII. */
  ghost predicate IsUsual(cs: Charset) {
    && (forall c: Code :: 33 <= c <= 126 ==> !cs.space(c))
    && (forall c: Code :: c < 128 ==> (cs.digit(c) <==> '0' as int <= c <= '9' as int))
    && (forall c: Code :: c < 128 ==> (cs.word(c) <==> Letter(c) || '0' as int <= c <= '9' as int))
  }

  predicate IsGap(gap: Text, cs: Charset) {
    forall k :: 0 <= k < |gap| ==> cs.space(gap[k])
  }

  // ----- Numbers -----------------------------------------------------------------------------

  predicate IsDigit(c: Code) {
    '0' as int <= c <= '9' as int
  }

  predicate AreDigits(t: Text) {
    t != [] && forall k :: 0 <= k < |t| ==> IsDigit(t[k])
  }

  predicate IsWhole(t: Text) {
    AreDigits(t) && (|t| > 1 ==> t[0] != '0' as int)
  }

  predicate IsFraction(t: Text) {
    t == [] || (t[0] == '.' as int && AreDigits(t[1..]))
  }

  predicate IsExponent(t: Text) {
    t == [] || ((t[0] == 'e' as int || t[0] == 'E' as int)
                && (AreDigits(t[1..]) || (|t| > 2 && (t[1] == '+' as int || t[1] == '-' as int) && AreDigits(t[2..]))))
  }

  predicate IsSign(t: Text) {
    t == [] || t == ['-' as int]
  }

  /** Sign, whole number, fraction and exponent, as in section 6 of RFC 8259. */
  ghost predicate IsNumber(literal: Text) {
    exists sign, whole, fraction, exponent ::
      IsSign(sign) && IsWhole(whole) && IsFraction(fraction) && IsExponent(exponent) && literal == sign + whole + fraction + exponent
  }

  // ----- Strings -----------------------------------------------------------------------------

  function HexCode(n: nat): Code
    requires n < 16
  {
    if n < 10 then '0' as int + n else 'a' as int + n - 10
  }

  function HexText(c: nat): (t: Text)
    requires c < 0x10000
    ensures |t| == 4
  {
    [HexCode(c / 0x1000), HexCode(c / 0x100 % 16), HexCode(c / 0x10 % 16), HexCode(c % 16)]
  }

  function UnicodeEscape(c: nat): (t: Text)
    requires c < 0x10000
    ensures |t| == 6
  {
    ['\\' as int, 'u' as int] + HexText(c)
  }

  predicate IsScalar(c: Code) {
    c < 0xD800 || 0xE000 <= c < 0x110000
  }

  /** One character inside quotes, as section 7 of RFC 8259 has it; beyond U+FFFF two escapes stand for one character. */
  function Escaped(c: Code, ascii: bool): Text
    requires ascii ==> IsScalar(c)
  {
    if c == '"' as int then Codes("\\\"")
    else if c == '\\' as int then Codes("\\\\")
    else if c == 8 then Codes("\\b")
    else if c == 12 then Codes("\\f")
    else if c == 10 then Codes("\\n")
    else if c == 13 then Codes("\\r")
    else if c == 9 then Codes("\\t")
    else if c < 32 then UnicodeEscape(c)
    else if !ascii || c < 127 then [c]
    else if c < 0x10000 then UnicodeEscape(c)
    else UnicodeEscape(0xD800 + (c - 0x10000) / 0x400) + UnicodeEscape(0xDC00 + (c - 0x10000) % 0x400)
  }

  predicate AreScalars(t: Text) {
    forall k :: 0 <= k < |t| ==> IsScalar(t[k])
  }

  /** The inside of a quoted string and its closing quote. */
  function QuotedRest(t: Text, ascii: bool): Text
    requires ascii ==> AreScalars(t)
  {
    if t == [] then ['"' as int] else Escaped(t[0], ascii) + QuotedRest(t[1..], ascii)
  }

  function Quoted(t: Text, ascii: bool): Text
    requires ascii ==> AreScalars(t)
  {
    ['"' as int] + QuotedRest(t, ascii)
  }

  predicate HasMarker(t: Text) {
    exists k: nat :: k <= |t| && StandsAt(t, k, Codes("<|\"|>"))
  }

  /** The template's notation has no escapes, so a text with the marker inside is quoted. */
  function StringText(t: Text, notation: Notation): Text
    requires notation.AsciiJson? ==> AreScalars(t)
  {
    if notation.Native? && !HasMarker(t) then Codes("<|\"|>") + t + Codes("<|\"|>") else Quoted(t, notation.AsciiJson?)
  }

  predicate IsBareName(name: Text) {
    name != [] && Letter(name[0]) && forall k :: 0 <= k < |name| ==> Letter(name[k]) || IsDigit(name[k])
  }

  function KeyText(name: Text, notation: Notation): Text
    requires notation.AsciiJson? ==> AreScalars(name)
  {
    if notation.Native? && IsBareName(name) then name else StringText(name, notation)
  }

  // ----- Values ------------------------------------------------------------------------------

  /** Number literals are numbers, and no key stands twice in an object. */
  ghost predicate IsWritable(v: Value, notation: Notation)
    decreases v
  {
    match v
    case Atom(Str(t)) => notation.AsciiJson? ==> AreScalars(t)
    case Atom(Number(literal)) => IsNumber(literal)
    case Atom(_) => true
    case Container(obj, members) =>
      && (forall k :: 0 <= k < |members| ==> IsWritableMember(members[k], obj, k, notation))
      && forall j, k :: 0 <= j < k < |members| ==> members[j].step != members[k].step
  }

  ghost predicate IsWritableMember(member: Member, obj: bool, k: nat, notation: Notation)
    decreases member
  {
    && (if obj then member.step.Key? && (notation.AsciiJson? ==> AreScalars(member.step.name)) else member.step == Index(k))
    && IsWritable(member.value, notation)
  }

  /** How many containers with members stand inside one another. */
  function Height(v: Value): nat
    decreases v
  {
    if v.Atom? || v.members == [] then 0 else 1 + HeightOfAll(v.members)
  }

  function HeightOfAll(members: seq<Member>): nat
    decreases members
  {
    if members == [] then 0
    else
      var (first, rest) := (HeightOf(members[0]), HeightOfAll(members[1..]));
      if first >= rest then first else rest
  }

  function HeightOf(member: Member): nat
    decreases member
  {
    Height(member.value)
  }

  ghost function Rendered(v: Value, style: Style): (text: Text)
    requires IsWritable(v, style.notation)
    decreases v
  {
    match v
    case Atom(Str(t)) => StringText(t, style.notation)
    case Atom(Number(literal)) => literal
    case Atom(Boolean(b)) => if b then Codes("true") else Codes("false")
    case Atom(Null) => Codes("null")
    case Container(obj, members) =>
      [if obj then '{' as int else '[' as int] + RenderedFrom(members, obj, 0, style)
  }

  ghost function RenderedMember(member: Member, obj: bool, k: nat, style: Style): Text
    requires IsWritableMember(member, obj, k, style.notation)
    decreases member
  {
    (if obj then KeyText(member.step.name, style.notation) + [':' as int] + style.gap else []) + Rendered(member.value, style)
  }

  /** The members, which are those from the k-th on, and the closing bracket. */
  ghost function RenderedFrom(members: seq<Member>, obj: bool, k: nat, style: Style): Text
    requires forall j :: 0 <= j < |members| ==> IsWritableMember(members[j], obj, k + j, style.notation)
    decreases members
  {
    if members == [] then [if obj then '}' as int else ']' as int]
    else
      RenderedMember(members[0], obj, k, style)
      + (if |members| > 1 then [',' as int] + style.gap else [])
      + RenderedFrom(members[1..], obj, k + 1, style)
  }
}
