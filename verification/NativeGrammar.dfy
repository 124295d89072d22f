/**
 The native value grammar: what one value at the front of a text is, or why there is none. Text
 is a sequence of code points, so that a lone surrogate is a value like any other.
 */
module NativeGrammar {
  import opened Outcomes

  type Code = nat
  type Text = seq<Code>

  function Codes(word: string): Text {
    seq(|word|, k requires 0 <= k < |word| => word[k] as int)
  }

  /** The three character classes taken from the Unicode database. */
  datatype Charset = Charset(space: Code -> bool, word: Code -> bool, digit: Code -> bool)

  datatype Fault =
    | TooDeep
    | UnterminatedString
    | TruncatedValue
    | BadQuotedString
    | BadNumber
    | InvalidValue
    | InvalidKey
    | MissingColon
    | DuplicateKey
    | InvalidSeparator

  /** What leads from a container to one of its members. */
  datatype Step = Key(name: Text) | Index(i: nat)

  datatype Scalar = Str(text: Text) | Number(literal: Text) | Boolean(b: bool) | Null

  datatype Value = Atom(scalar: Scalar) | Container(obj: bool, members: seq<Member>)
  datatype Member = Member(step: Step, value: Value)

  /** A value with the length of its text; each entry says how far from its container's start it begins. */
  datatype Tree = Leaf(length: nat, scalar: Scalar) | Branch(length: nat, obj: bool, entries: seq<Entry>)
  datatype Entry = Entry(step: Step, offset: nat, tree: Tree)

  const DEPTH_LIMIT := 40

  const QUOTE: Code := '"' as int
  const BACKSLASH: Code := '\\' as int
  const COLON: Code := ':' as int
  const COMMA: Code := ',' as int
  const OPEN_OBJECT: Code := '{' as int
  const CLOSE_OBJECT: Code := '}' as int
  const OPEN_LIST: Code := '[' as int
  const CLOSE_LIST: Code := ']' as int
  const LETTER_U: Code := 'u' as int
  const ZERO: Code := '0' as int
  const NINE: Code := '9' as int
  const MARKER: Text := ['<' as int, '|' as int, '"' as int, '|' as int, '>' as int]
  const TRUE_WORD: Text := ['t' as int, 'r' as int, 'u' as int, 'e' as int]
  const FALSE_WORD: Text := ['f' as int, 'a' as int, 'l' as int, 's' as int, 'e' as int]
  const NULL_WORD: Text := ['n' as int, 'u' as int, 'l' as int, 'l' as int]

  function Closing(obj: bool): Code {
    if obj then CLOSE_OBJECT else CLOSE_LIST
  }

  // ----- Tokens ------------------------------------------------------------------------------

  predicate StandsAt(s: Text, i: nat, part: Text) {
    i + |part| <= |s| && s[i..i + |part|] == part
  }

  /** How many space characters stand at `i`. */
  function Skip(s: Text, i: nat, cs: Charset): (n: nat)
    requires i <= |s|
    ensures i + n <= |s|
    decreases |s| - i
  {
    if i < |s| && cs.space(s[i]) then 1 + Skip(s, i + 1, cs) else 0
  }

  /** The first place at or after `i` where `part` stands. */
  function Find(s: Text, i: nat, part: Text): (found: Option<nat>)
    requires i <= |s|
    ensures found.Some? ==> i <= found.value && found.value + |part| <= |s|
    decreases |s| - i
  {
    if StandsAt(s, i, part) then Some(i)
    else if i == |s| then None
    else Find(s, i + 1, part)
  }

  function HexDigit(c: Code): Option<nat> {
    if ZERO <= c <= NINE then Some(c - ZERO)
    else if 'a' as int <= c <= 'f' as int then Some(c - 'a' as int + 10)
    else if 'A' as int <= c <= 'F' as int then Some(c - 'A' as int + 10)
    else None
  }

  function Hex4(s: Text, i: nat): Option<nat> {
    if i + 4 > |s| || HexDigit(s[i]).None? || HexDigit(s[i + 1]).None? || HexDigit(s[i + 2]).None? || HexDigit(s[i + 3]).None?
    then None
    else Some(((HexDigit(s[i]).value * 16 + HexDigit(s[i + 1]).value) * 16 + HexDigit(s[i + 2]).value) * 16 + HexDigit(s[i + 3]).value)
  }

  function Simple(c: Code): Option<Code> {
    if c == QUOTE || c == BACKSLASH || c == '/' as int then Some(c)
    else if c == 'b' as int then Some(8)
    else if c == 'f' as int then Some(12)
    else if c == 'n' as int then Some(10)
    else if c == 'r' as int then Some(13)
    else if c == 't' as int then Some(9)
    else None
  }

  predicate PairFollows(s: Text, i: nat) {
    i + 2 <= |s| && s[i] == BACKSLASH && s[i + 1] == LETTER_U
  }

  /** The escape whose backslash is at `i`: the code it stands for and where it ends. */
  function Escape(s: Text, i: nat): (r: Option<(Code, nat)>)
    ensures r.Some? ==> i + 2 <= r.value.1 <= |s|
  {
    if i + 1 >= |s| then None
    else if s[i + 1] != LETTER_U then
      match Simple(s[i + 1])
      case None => None
      case Some(c) => Some((c, i + 2))
    else
      match Hex4(s, i + 2)
      case None => None
      case Some(high) =>
        if 0xD800 <= high <= 0xDBFF && PairFollows(s, i + 6) then
          match Hex4(s, i + 8)
          case None => None
          case Some(low) =>
            if 0xDC00 <= low <= 0xDFFF then Some((0x10000 + (high - 0xD800) * 0x400 + (low - 0xDC00), i + 12))
            else Some((high, i + 6))
        else Some((high, i + 6))
  }

  /** A quoted string from `i`, just after its opening quote or inside it: its codes and its end. */
  function Scan(s: Text, i: nat): (r: Option<(Text, nat)>)
    ensures r.Some? ==> i < r.value.1 <= |s|
    decreases |s| - i
  {
    if i >= |s| then None
    else if s[i] == QUOTE then Some(([], i + 1))
    else if s[i] == BACKSLASH then
      match Escape(s, i)
      case None => None
      case Some((code, next)) =>
        (match Scan(s, next)
         case None => None
         case Some((rest, end)) => Some(([code] + rest, end)))
    else if s[i] < 32 then None
    else
      match Scan(s, i + 1)
      case None => None
      case Some((rest, end)) => Some(([s[i]] + rest, end))
  }

  /** The end of the digits that stand at `i`. */
  function DigitsEnd(s: Text, i: nat, cs: Charset): (end: nat)
    requires i <= |s|
    ensures i <= end <= |s|
    decreases |s| - i
  {
    if i < |s| && cs.digit(s[i]) then DigitsEnd(s, i + 1, cs) else i
  }

  function SignEnd(s: Text, i: nat, plus: bool): nat {
    if i < |s| && (s[i] == '-' as int || (plus && s[i] == '+' as int)) then i + 1 else i
  }

  function IntegerEnd(s: Text, i: nat, cs: Charset): (end: Option<nat>)
    ensures end.Some? ==> i < end.value <= |s|
  {
    var a := SignEnd(s, i, false);
    if a < |s| && s[a] == ZERO then Some(a + 1)
    else if a < |s| && ZERO < s[a] <= NINE then Some(DigitsEnd(s, a + 1, cs))
    else None
  }

  function FractionEnd(s: Text, i: nat, cs: Charset): (end: nat)
    requires i <= |s|
    ensures i <= end <= |s|
  {
    if i < |s| && s[i] == '.' as int && DigitsEnd(s, i + 1, cs) > i + 1 then DigitsEnd(s, i + 1, cs) else i
  }

  function ExponentEnd(s: Text, i: nat, cs: Charset): (end: nat)
    requires i <= |s|
    ensures i <= end <= |s|
  {
    if i < |s| && (s[i] == 'e' as int || s[i] == 'E' as int) && DigitsEnd(s, SignEnd(s, i + 1, true), cs) > SignEnd(s, i + 1, true)
    then DigitsEnd(s, SignEnd(s, i + 1, true), cs)
    else i
  }

  /** The end of the longest number at `i`: sign, integer, fraction and exponent. */
  function NumberEnd(s: Text, i: nat, cs: Charset): (end: Option<nat>)
    ensures end.Some? ==> i < end.value <= |s|
  {
    match IntegerEnd(s, i, cs)
    case None => None
    case Some(end) => Some(ExponentEnd(s, FractionEnd(s, end, cs), cs))
  }

  predicate Letter(c: Code) {
    'A' as int <= c <= 'Z' as int || 'a' as int <= c <= 'z' as int || c == '_' as int
  }

  function WordsEnd(s: Text, i: nat, cs: Charset): (end: nat)
    requires i <= |s|
    ensures i <= end <= |s|
    decreases |s| - i
  {
    if i < |s| && cs.word(s[i]) then WordsEnd(s, i + 1, cs) else i
  }

  function NameEnd(s: Text, i: nat, cs: Charset): (end: Option<nat>)
    ensures end.Some? ==> i < end.value <= |s|
  {
    if i < |s| && Letter(s[i]) then Some(WordsEnd(s, i + 1, cs)) else None
  }

  // ----- Values ------------------------------------------------------------------------------

  predicate OpensString(s: Text, i: nat) {
    StandsAt(s, i, MARKER) || (i < |s| && s[i] == QUOTE)
  }

  /** The string at `i`, in either notation, and its end. */
  function StringAt(s: Text, i: nat): (r: Result<(Text, nat), Fault>)
    requires OpensString(s, i)
    ensures r.Ok? ==> i + 2 <= r.value.1 <= |s|
  {
    if StandsAt(s, i, MARKER) then
      match Find(s, i + 5, MARKER)
      case None => Err(UnterminatedString)
      case Some(end) => Ok((s[i + 5..end], end + 5))
    else
      match Scan(s, i + 1)
      case None => Err(BadQuotedString)
      case Some(found) => Ok(found)
  }

  predicate Ascii(s: Text) {
    forall k :: 0 <= k < |s| ==> s[k] < 128
  }

  /** JSON reads a number only when all of its digits are ASCII. */
  function NumberAt(s: Text, i: nat, cs: Charset): (r: Result<Tree, Fault>)
    ensures r.Ok? ==> 1 <= r.value.length && i + r.value.length <= |s| && r.value.Leaf? && r.value.scalar.Number?
  {
    match NumberEnd(s, i, cs)
    case None => Err(InvalidValue)
    case Some(end) => if Ascii(s[i..end]) then Ok(Leaf(end - i, Number(s[i..end]))) else Err(BadNumber)
  }

  /** A value that is not a container, exactly at `i`. */
  function ScalarAt(s: Text, i: nat, cs: Charset): (r: Result<Tree, Fault>)
    ensures r.Ok? ==> 1 <= r.value.length && i + r.value.length <= |s| && r.value.Leaf?
  {
    if i >= |s| then Err(TruncatedValue)
    else if OpensString(s, i) then
      match StringAt(s, i)
      case Err(e) => Err(e)
      case Ok((text, end)) => Ok(Leaf(end - i, Str(text)))
    else if StandsAt(s, i, TRUE_WORD) then Ok(Leaf(4, Boolean(true)))
    else if StandsAt(s, i, FALSE_WORD) then Ok(Leaf(5, Boolean(false)))
    else if StandsAt(s, i, NULL_WORD) then Ok(Leaf(4, Null))
    else NumberAt(s, i, cs)
  }

  predicate OpensContainer(s: Text, i: nat) {
    i < |s| && (s[i] == OPEN_OBJECT || s[i] == OPEN_LIST)
  }

  predicate HasStep(entries: seq<Entry>, step: Step) {
    exists k :: 0 <= k < |entries| && entries[k].step == step
  }

  /** The key at `i` and its end; a string key is a value one level down. */
  function NameAt(s: Text, i: nat, depth: nat, cs: Charset): (r: Result<(Text, nat), Fault>)
    ensures r.Ok? ==> i < r.value.1 <= |s|
  {
    if OpensString(s, i) then
      if depth + 1 > DEPTH_LIMIT then Err(TooDeep) else StringAt(s, i)
    else
      match NameEnd(s, i, cs)
      case None => Err(InvalidKey)
      case Some(end) => Ok((s[i..end], end))
  }

  /** A key after any space, up to the end of its colon. */
  function KeyAt(s: Text, i: nat, depth: nat, cs: Charset): (r: Result<(Text, nat), Fault>)
    requires i <= |s|
    ensures r.Ok? ==> i < r.value.1 <= |s|
  {
    match NameAt(s, i + Skip(s, i, cs), depth, cs)
    case Err(e) => Err(e)
    case Ok((name, end)) =>
      var colon := end + Skip(s, end, cs);
      if colon >= |s| || s[colon] != COLON then Err(MissingColon) else Ok((name, colon + 1))
  }

  /** The step to the next member and where the member's value may begin. */
  function StepAt(s: Text, i: nat, depth: nat, obj: bool, out: seq<Entry>, cs: Charset): (r: Result<(Step, nat), Fault>)
    requires i <= |s|
    ensures r.Ok? ==> i <= r.value.1 <= |s|
  {
    if !obj then Ok((Index(|out|), i))
    else
      match KeyAt(s, i, depth, cs)
      case Err(e) => Err(e)
      case Ok((name, end)) => if HasStep(out, Key(name)) then Err(DuplicateKey) else Ok((Key(name), end))
  }

  datatype Parsed = Parsed(start: nat, tree: Tree) {
    function End(): nat { start + tree.length }
  }

  /** The value at `i`, after any space: where its own text starts, and its tree. */
  function Parse(s: Text, i: nat, depth: nat, cs: Charset): (r: Result<Parsed, Fault>)
    requires i <= |s|
    ensures r.Ok? ==> r.value.start == i + Skip(s, i, cs) && 1 <= r.value.tree.length && r.value.End() <= |s|
    decreases |s| - i, 1
  {
    if depth > DEPTH_LIMIT then Err(TooDeep)
    else
      var start := i + Skip(s, i, cs);
      match (if OpensContainer(s, start) then ContainerAt(s, start, depth, cs) else ScalarAt(s, start, cs))
      case Err(e) => Err(e)
      case Ok(tree) => Ok(Parsed(start, tree))
  }

  function ContainerAt(s: Text, i: nat, depth: nat, cs: Charset): (r: Result<Tree, Fault>)
    requires OpensContainer(s, i)
    ensures r.Ok? ==> r.value.Branch? && 2 <= r.value.length && i + r.value.length <= |s|
    decreases |s| - i, 0
  {
    var obj := s[i] == OPEN_OBJECT;
    var first := i + 1 + Skip(s, i + 1, cs);
    if first < |s| && s[first] == Closing(obj) then Ok(Branch(first + 1 - i, obj, []))
    else
      match Members(s, first, i, depth, obj, [], cs)
      case Err(e) => Err(e)
      case Ok((entries, end)) => Ok(Branch(end - i, obj, entries))
  }

  /** The next member of the container that began at `begin`. */
  function MemberAt(s: Text, i: nat, begin: nat, depth: nat, obj: bool, out: seq<Entry>, cs: Charset): (r: Result<Entry, Fault>)
    requires begin <= i <= |s|
    ensures r.Ok? ==> 1 <= r.value.tree.length && i <= begin + r.value.offset && begin + r.value.offset + r.value.tree.length <= |s|
    decreases |s| - i, 2
  {
    match StepAt(s, i, depth, obj, out, cs)
    case Err(e) => Err(e)
    case Ok((step, n)) =>
      match Parse(s, n, depth + 1, cs)
      case Err(e) => Err(e)
      case Ok(Parsed(start, tree)) => Ok(Entry(step, start - begin, tree))
  }

  /** What follows a member: whether the container closes, and where the text goes on. */
  function Separator(s: Text, i: nat, obj: bool, cs: Charset): (r: Result<(bool, nat), Fault>)
    requires i <= |s|
    ensures r.Ok? ==> i < r.value.1 <= |s|
  {
    var at := i + Skip(s, i, cs);
    if at >= |s| then Err(InvalidSeparator)
    else if s[at] == Closing(obj) then Ok((true, at + 1))
    else if s[at] != COMMA then Err(InvalidSeparator)
    else Ok((false, at + 1))
  }

  /** The members from `i` on, after those in `out`, and where the container ends. */
  function Members(s: Text, i: nat, begin: nat, depth: nat, obj: bool, out: seq<Entry>, cs: Charset)
    : (r: Result<(seq<Entry>, nat), Fault>)
    requires begin <= i <= |s|
    ensures r.Ok? ==> i < r.value.1 <= |s|
    decreases |s| - i, 3
  {
    match MemberAt(s, i, begin, depth, obj, out, cs)
    case Err(e) => Err(e)
    case Ok(entry) =>
      match Separator(s, begin + entry.offset + entry.tree.length, obj, cs)
      case Err(e) => Err(e)
      case Ok((closed, next)) =>
        if closed then Ok((out + [entry], next)) else Members(s, next, begin, depth, obj, out + [entry], cs)
  }

  // ----- What a tree stands for --------------------------------------------------------------

  /** The value alone. */
  function ValueOf(tree: Tree): Value
    decreases tree
  {
    match tree
    case Leaf(_, scalar) => Atom(scalar)
    case Branch(_, obj, entries) => Container(obj, MembersOf(entries))
  }

  function MemberOf(entry: Entry): Member
    decreases entry
  {
    Member(entry.step, ValueOf(entry.tree))
  }

  function MembersOf(entries: seq<Entry>): (members: seq<Member>)
    ensures |members| == |entries|
    ensures forall k :: 0 <= k < |entries| ==> members[k] == MemberOf(entries[k])
    decreases entries
  {
    if entries == [] then [] else MembersOf(entries[..|entries| - 1]) + [MemberOf(entries[|entries| - 1])]
  }

  type Path = seq<Step>
  datatype Span = Span(start: nat, stop: nat)

  /** Every path of the tree with its span, for a tree that begins at `start`. */
  function SpansOf(tree: Tree, path: Path, start: nat): map<Path, Span>
    decreases tree
  {
    (if tree.Branch? then EntrySpans(tree.entries, path, start) else map[])[path := Span(start, start + tree.length)]
  }

  function EntrySpan(entry: Entry, path: Path, start: nat): map<Path, Span>
    decreases entry
  {
    SpansOf(entry.tree, path + [entry.step], start + entry.offset)
  }

  function EntrySpans(entries: seq<Entry>, path: Path, start: nat): map<Path, Span>
    decreases entries
  {
    if entries == [] then map[]
    else EntrySpans(entries[..|entries| - 1], path, start) + EntrySpan(entries[|entries| - 1], path, start)
  }
}
