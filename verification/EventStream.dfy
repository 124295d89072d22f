/**
 The event stream between the chat server and the integration client: framing as in sections
 9.2.5 and 9.2.6 of the WHATWG HTML Living Standard, cut anywhere by the network.
 */
module EventStream {
  import opened Outcomes

  /** One dispatched event: the number, the event name and the data text. */
  datatype Frame = Frame(id: int, event: string, data: string)

  /** The number and JSON routines of both sides, as far as the framing needs them. */
  datatype Wire = Wire(render: nat -> string, number: string -> Option<int>, json: string -> bool)

  /** Where the HTTP client ends a line; no text on this wire holds a carriage return, so no pair of them is one end. */
  predicate IsBreak(c: char) {
    || c in {'\n', '\r', '\U{0B}', '\U{0C}', '\U{1C}', '\U{1D}', '\U{1E}'}
    || c in {'\U{85}', '\U{2028}', '\U{2029}'}
  }

  predicate OneLine(s: string) {
    forall k :: 0 <= k < |s| ==> !IsBreak(s[k])
  }

  ghost predicate Faithful(w: Wire) {
    forall n: nat :: OneLine(w.render(n)) && w.number(w.render(n)) == Some(n)
  }

  // ----- Sending -----------------------------------------------------------------------------

  datatype Item = Sent(frame: Frame) | KeepAlive

  /** What the server writes: JSON escapes control characters, but not the line ends beyond ASCII. */
  predicate Writable(w: Wire, item: Item) {
    item.Sent? ==>
      && item.frame.id >= 0 && OneLine(item.frame.event) && w.json(item.frame.data)
      && forall k :: 0 <= k < |item.frame.data| ==> item.frame.data[k] >= ' '
  }

  predicate IsUnbroken(item: Item) {
    item.Sent? ==> OneLine(item.frame.data)
  }

  function ItemLines(w: Wire, item: Item): seq<string>
    requires Writable(w, item)
  {
    if item.Sent?
    then ["id: " + w.render(item.frame.id), "event: " + item.frame.event, "data: " + item.frame.data, ""]
    else [": keep-alive", ""]
  }

  function StreamLines(w: Wire, items: seq<Item>): seq<string>
    requires forall i :: 0 <= i < |items| ==> Writable(w, items[i])
  {
    if items == [] then [] else ItemLines(w, items[0]) + StreamLines(w, items[1..])
  }

  /** The bytes on the wire: every line ends with a line feed. */
  function Text(lines: seq<string>): string {
    if lines == [] then "" else lines[0] + "\n" + Text(lines[1..])
  }

  function Frames(items: seq<Item>): seq<Frame> {
    if items == [] then []
    else (if items[0].Sent? then [items[0].frame] else []) + Frames(items[1..])
  }

  // ----- Receiving ---------------------------------------------------------------------------

  /** Lines of a received text; a trailing partial line counts as a line. */
  function Lines(text: string, partialLine: string): seq<string>
    decreases |text|
  {
    if text == "" then (if partialLine == "" then [] else [partialLine])
    else if IsBreak(text[0]) then [partialLine] + Lines(text[1..], "")
    else Lines(text[1..], partialLine + [text[0]])
  }

  /** What the parser has collected since the last blank line. */
  datatype Pending = Pending(id: Option<string>, event: Option<string>, data: seq<string>)

  const NOTHING := Pending(None, None, [])

  function Joined(data: seq<string>): string
    requires data != []
  {
    if |data| == 1 then data[0] else data[0] + "\n" + Joined(data[1..])
  }

  function Dispatched(w: Wire, p: Pending): Option<Frame>
    requires p.data != []
  {
    if p.id.Some? && p.event.Some? && w.number(p.id.value).Some? && w.json(Joined(p.data))
    then Some(Frame(w.number(p.id.value).value, p.event.value, Joined(p.data)))
    else None
  }

  function Colon(line: string): nat
    ensures Colon(line) <= |line|
    ensures Colon(line) < |line| ==> line[Colon(line)] == ':'
    ensures forall i :: 0 <= i < Colon(line) ==> line[i] != ':'
  {
    if line == "" || line[0] == ':' then 0 else 1 + Colon(line[1..])
  }

  function FieldValue(line: string): string {
    if Colon(line) == |line| then ""
    else
      var value := line[Colon(line) + 1..];
      if value != "" && value[0] == ' ' then value[1..] else value
  }

  function Collected(p: Pending, line: string): Pending {
    if line != "" && line[0] == ':' then p
    else if line[..Colon(line)] == "data" then p.(data := p.data + [FieldValue(line)])
    else if line[..Colon(line)] == "id" then p.(id := Some(FieldValue(line)))
    else if line[..Colon(line)] == "event" then p.(event := Some(FieldValue(line)))
    else p
  }

  /** The dispatched frames, and whether a malformed frame stopped the parser. */
  function Parsed(w: Wire, lines: seq<string>, p: Pending): (seq<Frame>, bool) {
    if lines == [] then ([], false)
    else if lines[0] != "" then Parsed(w, lines[1..], Collected(p, lines[0]))
    else if p.data == [] then Parsed(w, lines[1..], NOTHING)
    else if Dispatched(w, p).None? then ([], true)
    else
      var (frames, malformed) := Parsed(w, lines[1..], NOTHING);
      ([Dispatched(w, p).value] + frames, malformed)
  }

  method Parse(w: Wire, lines: seq<string>) returns (frames: seq<Frame>, malformed: bool)
    ensures (frames, malformed) == Parsed(w, lines, NOTHING)
  {
    hide FieldValue, Joined;
    frames := [];
    var id: Option<string>, event: Option<string>, data: seq<string> := None, None, [];
    assert lines[0..] == lines;
    for i := 0 to |lines|
      invariant Parsed(w, lines, NOTHING).0 == frames + Parsed(w, lines[i..], Pending(id, event, data)).0
      invariant Parsed(w, lines, NOTHING).1 == Parsed(w, lines[i..], Pending(id, event, data)).1
    {
      var line := lines[i];
      ghost var p := Pending(id, event, data);
      assert lines[i..][0] == line && lines[i..][1..] == lines[i + 1..];
      if line == "" {
        if data != [] {
          var text := Join(data);
          if id.None? || event.None? || w.number(id.value).None? || !w.json(text) {
            assert Dispatched(w, p).None? && Parsed(w, lines[i..], p) == ([], true);
            assert frames + [] == frames;
            return frames, true;
          }
          assert frames + ([Dispatched(w, p).value] + Parsed(w, lines[i + 1..], NOTHING).0)
              == frames + [Dispatched(w, p).value] + Parsed(w, lines[i + 1..], NOTHING).0;
          frames := frames + [Frame(w.number(id.value).value, event.value, text)];
        }
        id, event, data := None, None, [];
      } else if line[0] != ':' {
        var key, value := Partition(line);
        if key == "data" {
          data := data + [value];
        } else if key == "id" {
          id := Some(value);
        } else if key == "event" {
          event := Some(value);
        }
      }
    }
    assert lines[|lines|..] == [] && frames + [] == frames;
    malformed := false;
  }

  /** The field name before the first colon, and the value behind it without one leading space. */
  method Partition(line: string) returns (key: string, value: string)
    ensures key == line[..Colon(line)] && value == FieldValue(line)
  {
    var colon := 0;
    while colon < |line| && line[colon] != ':'
      invariant 0 <= colon <= |line|
      invariant forall j :: 0 <= j < colon ==> line[j] != ':'
    {
      colon := colon + 1;
    }
    assert colon == Colon(line);
    key, value := line[..colon], if colon < |line| then line[colon + 1..] else "";
    if colon < |line| && value != "" && value[0] == ' ' {
      value := value[1..];
    }
  }

  method Join(data: seq<string>) returns (text: string)
    requires data != []
    ensures text == Joined(data)
  {
    text := data[|data| - 1];
    var i := |data| - 1;
    assert data[i..] == [data[i]];
    while i > 0
      invariant 0 <= i < |data|
      invariant text == Joined(data[i..])
    {
      i := i - 1;
      assert data[i..][1..] == data[i + 1..];
      text := data[i] + "\n" + text;
    }
    assert data[0..] == data;
  }

  // ----- Cutting the stream ------------------------------------------------------------------

  /** Any prefix of a text is some of its lines and perhaps the beginning of one more. */
  lemma {:induction false} CutText(lines: seq<string>, cut: nat) returns (whole: nat, part: string)
    requires forall i :: 0 <= i < |lines| ==> OneLine(lines[i])
    requires cut <= |Text(lines)|
    ensures whole <= |lines|
    ensures Lines(Text(lines)[..cut], "") == lines[..whole] + if part == "" then [] else [part]
    ensures cut == |Text(lines)| ==> whole == |lines| && part == ""
    decreases |lines|
  {
    if lines == [] {
      whole, part := 0, "";
    } else {
      var first, rest := lines[0], Text(lines[1..]);
      var text := Text(lines)[..cut];
      if cut <= |first| {
        assert text == first[..cut];
        LinesOfPartial(text, "");
        whole, part := 0, text;
        assert "" + text == text;
        assert lines[..0] == [];
      } else {
        var c := cut - |first| - 1;
        assert text == first + "\n" + rest[..c];
        LinesAfterFirst(first, rest[..c], "");
        assert "" + first == first;
        var n, p := CutText(lines[1..], c);
        whole, part := n + 1, p;
        assert lines[..whole] == [first] + lines[1..][..n];
      }
    }
  }

  lemma {:induction false} LinesOfPartial(text: string, partialLine: string)
    requires OneLine(text)
    ensures Lines(text, partialLine) == if partialLine + text == "" then [] else [partialLine + text]
    decreases |text|
  {
    if text != "" {
      LinesOfPartial(text[1..], partialLine + [text[0]]);
      assert partialLine + [text[0]] + text[1..] == partialLine + text;
    } else {
      assert partialLine + text == partialLine;
    }
  }

  lemma {:induction false} LinesAfterBreak(first: string, c: char, rest: string, partialLine: string)
    requires OneLine(first) && IsBreak(c)
    ensures Lines(first + [c] + rest, partialLine) == [partialLine + first] + Lines(rest, "")
    decreases |first|
  {
    var text := first + [c] + rest;
    if first == "" {
      assert text[0] == c && text[1..] == rest && partialLine + first == partialLine;
    } else {
      assert text[0] == first[0] && !IsBreak(first[0]);
      assert text[1..] == first[1..] + [c] + rest;
      LinesAfterBreak(first[1..], c, rest, partialLine + [first[0]]);
      assert partialLine + [first[0]] + first[1..] == partialLine + first;
    }
  }

  lemma {:induction false} LinesAfterFirst(first: string, rest: string, partialLine: string)
    requires OneLine(first)
    ensures Lines(first + "\n" + rest, partialLine) == [partialLine + first] + Lines(rest, "")
  {
    LinesAfterBreak(first, '\n', rest, partialLine);
  }

  /** Without a final blank line the last line dispatches nothing. */
  lemma {:induction false} PartialLineDispatchesNothing(w: Wire, lines: seq<string>, part: string, p: Pending)
    requires part != ""
    ensures Parsed(w, lines + [part], p) == Parsed(w, lines, p)
    decreases |lines|
  {
    if lines == [] {
      assert (lines + [part])[1..] == [];
    } else {
      assert (lines + [part])[1..] == lines[1..] + [part];
      PartialLineDispatchesNothing(w, lines[1..], part, if lines[0] != "" then Collected(p, lines[0]) else NOTHING);
    }
  }

  lemma {:induction false} ColonAfterKey(key: string, value: string)
    requires forall i :: 0 <= i < |key| ==> key[i] != ':'
    ensures var line := key + ": " + value;
      Colon(line) == |key| && line[..|key|] == key && FieldValue(line) == value
  {
    var line := key + ": " + value;
    assert line[|key|] == ':' && forall i :: 0 <= i < |key| ==> line[i] == key[i] && key[i] != ':';
    assert line[|key| + 1..] == " " + value;
    assert (" " + value)[1..] == value;
  }

  lemma {:induction false} IdField(p: Pending, value: string)
    ensures Collected(p, "id: " + value) == p.(id := Some(value))
  {
    ColonAfterKey("id", value);
    assert "id: " + value == "id" + ": " + value;
  }

  lemma {:induction false} EventField(p: Pending, value: string)
    ensures Collected(p, "event: " + value) == p.(event := Some(value))
  {
    ColonAfterKey("event", value);
    assert "event: " + value == "event" + ": " + value;
  }

  lemma {:induction false} DataField(p: Pending, value: string)
    ensures Collected(p, "data: " + value) == p.(data := p.data + [value])
  {
    ColonAfterKey("data", value);
    assert "data: " + value == "data" + ": " + value;
  }

  /** The three field lines, read from a clean state. */
  lemma {:induction false} FieldsCollected(w: Wire, f: Frame, data: string, rest: seq<string>)
    requires f.id >= 0
    ensures Parsed(w, ["id: " + w.render(f.id), "event: " + f.event, "data: " + data] + rest, NOTHING)
            == Parsed(w, rest, Pending(Some(w.render(f.id)), Some(f.event), [data]))
  {
    hide Parsed, Collected;
    var (first, second, third) := ("id: " + w.render(f.id), "event: " + f.event, "data: " + data);
    IdField(NOTHING, w.render(f.id));
    EventField(NOTHING.(id := Some(w.render(f.id))), f.event);
    DataField(Pending(Some(w.render(f.id)), Some(f.event), []), data);
    Unfold(w, first, [second, third] + rest, NOTHING);
    Unfold(w, second, [third] + rest, Collected(NOTHING, first));
    Unfold(w, third, rest, Collected(Collected(NOTHING, first), second));
    assert NOTHING.(id := Some(w.render(f.id))).(event := Some(f.event)) == Pending(Some(w.render(f.id)), Some(f.event), []);
    assert [] + [data] == [data];
    assert [first, second, third] + rest == [first] + ([second, third] + rest);
    assert [second, third] + rest == [second] + ([third] + rest);
  }

  /** What was collected from the field lines of a frame is the frame. */
  lemma {:induction false} FieldsAreTheFrame(w: Wire, f: Frame)
    requires Faithful(w) && Writable(w, Sent(f))
    ensures Dispatched(w, Pending(Some(w.render(f.id)), Some(f.event), [f.data])) == Some(f)
  {
  }

  /** Every prefix of the sent lines dispatches a prefix of the sent frames. */
  lemma {:induction false} PrefixDispatchesPrefix(w: Wire, items: seq<Item>, whole: nat) returns (m: nat)
    requires Faithful(w) && forall i :: 0 <= i < |items| ==> Writable(w, items[i]) && IsUnbroken(items[i])
    requires whole <= |StreamLines(w, items)|
    ensures m <= |Frames(items)|
    ensures Parsed(w, StreamLines(w, items)[..whole], NOTHING) == (Frames(items)[..m], false)
    ensures whole == |StreamLines(w, items)| ==> m == |Frames(items)|
    decreases |items|
  {
    if items == [] {
      m := 0;
    } else {
      var own, later := ItemLines(w, items[0]), StreamLines(w, items[1..]);
      assert StreamLines(w, items) == own + later;
      if whole < |own| {
        m := 0;
        assert (own + later)[..whole] == own[..whole];
        IncompleteItem(w, items[0], whole);
      } else {
        var n := PrefixDispatchesPrefix(w, items[1..], whole - |own|);
        assert (own + later)[..whole] == own + later[..whole - |own|];
        CompleteItem(w, items[0], later[..whole - |own|]);
        m := FramesPrefix(items, n);
      }
    }
  }

  lemma {:induction false} FramesPrefix(items: seq<Item>, n: nat) returns (m: nat)
    requires items != [] && n <= |Frames(items[1..])|
    ensures m <= |Frames(items)|
    ensures Frames(items)[..m] == (if items[0].Sent? then [items[0].frame] else []) + Frames(items[1..])[..n]
    ensures n == |Frames(items[1..])| ==> m == |Frames(items)|
  {
    m := n + if items[0].Sent? then 1 else 0;
  }

  /** Nothing is dispatched before a blank line. */
  lemma {:induction false} NothingWithoutBlank(w: Wire, lines: seq<string>, p: Pending)
    requires forall i :: 0 <= i < |lines| ==> lines[i] != ""
    ensures Parsed(w, lines, p) == ([], false)
    decreases |lines|
  {
    hide Collected;
    if lines != [] {
      NothingWithoutBlank(w, lines[1..], Collected(p, lines[0]));
    }
  }

  lemma {:induction false} IncompleteItem(w: Wire, item: Item, whole: nat)
    requires Writable(w, item) && whole < |ItemLines(w, item)|
    ensures Parsed(w, ItemLines(w, item)[..whole], NOTHING) == ([], false)
  {
    hide Parsed;
    NothingWithoutBlank(w, ItemLines(w, item)[..whole], NOTHING);
  }

  lemma {:induction false} CompleteItem(w: Wire, item: Item, rest: seq<string>)
    requires Faithful(w) && Writable(w, item) && IsUnbroken(item)
    ensures var tail := Parsed(w, rest, NOTHING);
      Parsed(w, ItemLines(w, item) + rest, NOTHING)
        == ((if item.Sent? then [item.frame] else []) + tail.0, tail.1)
  {
    hide Parsed, Dispatched, OneLine, Collected;
    var l := ItemLines(w, item);
    if item.Sent? {
      var f := item.frame;
      FieldsAreTheFrame(w, f);
      FieldsCollected(w, f, f.data, [""] + rest);
      assert l + rest == ["id: " + w.render(f.id), "event: " + f.event, "data: " + f.data] + ([""] + rest);
      BlankLine(w, rest, Pending(Some(w.render(f.id)), Some(f.event), [f.data]));
    } else {
      CommentIsSkipped(NOTHING, l[0]);
      Unfold(w, l[0], [""] + rest, NOTHING);
      assert l + rest == [l[0]] + ([""] + rest);
      BlankLine(w, rest, NOTHING);
    }
  }

  lemma {:induction false} CommentIsSkipped(p: Pending, line: string)
    requires line != "" && line[0] == ':'
    ensures Collected(p, line) == p
  {
  }

  lemma {:induction false} Unfold(w: Wire, line: string, rest: seq<string>, p: Pending)
    requires line != ""
    ensures Parsed(w, [line] + rest, p) == Parsed(w, rest, Collected(p, line))
  {
    assert ([line] + rest)[1..] == rest;
  }

  lemma {:induction false} BlankLine(w: Wire, rest: seq<string>, p: Pending)
    requires p.data == [] || Dispatched(w, p).Some?
    ensures var tail := Parsed(w, rest, NOTHING);
      Parsed(w, [""] + rest, p) == ((if p.data == [] then [] else [Dispatched(w, p).value]) + tail.0, tail.1)
  {
    assert ([""] + rest)[1..] == rest;
    assert [] + Parsed(w, rest, NOTHING).0 == Parsed(w, rest, NOTHING).0;
  }

  lemma {:induction false} SentLinesAreLines(w: Wire, items: seq<Item>)
    requires Faithful(w) && forall i :: 0 <= i < |items| ==> Writable(w, items[i]) && IsUnbroken(items[i])
    ensures forall i :: 0 <= i < |StreamLines(w, items)| ==> OneLine(StreamLines(w, items)[i])
  {
    if items != [] {
      ItemLinesAreLines(w, items[0]);
      SentLinesAreLines(w, items[1..]);
    }
  }

  /**
   A stream cut after any number of characters parses, without an error, to a prefix of the
   frames that were sent, and to all of them when it arrives whole.
   */
  lemma {:induction false} CutStreamDeliversPrefix(w: Wire, items: seq<Item>, cut: nat) returns (m: nat)
    requires Faithful(w) && forall i :: 0 <= i < |items| ==> Writable(w, items[i]) && IsUnbroken(items[i])
    requires cut <= |Text(StreamLines(w, items))|
    ensures m <= |Frames(items)|
    ensures Parsed(w, Lines(Text(StreamLines(w, items))[..cut], ""), NOTHING) == (Frames(items)[..m], false)
    ensures cut == |Text(StreamLines(w, items))| ==> m == |Frames(items)|
  {
    var lines := StreamLines(w, items);
    SentLinesAreLines(w, items);
    var whole, part := CutText(lines, cut);
    m := PrefixDispatchesPrefix(w, items, whole);
    if part != "" {
      PartialLineDispatchesNothing(w, lines[..whole], part, NOTHING);
    } else {
      assert lines[..whole] + [] == lines[..whole];
    }
  }

  // ----- Broken data -------------------------------------------------------------------------

  function Chars(lines: seq<string>): nat {
    if lines == [] then 0 else |lines[0]| + Chars(lines[1..])
  }

  /** A text that ends a line is split apart from what follows it, and loses its line ends. */
  lemma {:induction false} LinesOfEnded(text: string, more: string, partialLine: string)
    ensures Lines(text + "\n" + more, partialLine) == Lines(text + "\n", partialLine) + Lines(more, "")
    ensures Chars(Lines(text + "\n", partialLine)) <= |partialLine| + |text|
    decreases |text|
  {
    hide IsBreak;
    NewlineBreaks();
    var (ended, all) := (text + "\n", text + "\n" + more);
    if text == "" {
      assert all[0] == '\n' && all[1..] == more && ended[0] == '\n' && ended[1..] == "";
      assert [partialLine][1..] == [];
    } else {
      assert all[0] == text[0] && all[1..] == text[1..] + "\n" + more && ended[0] == text[0] && ended[1..] == text[1..] + "\n";
      if IsBreak(text[0]) {
        LinesOfEnded(text[1..], more, "");
        assert ([partialLine] + Lines(ended[1..], ""))[1..] == Lines(ended[1..], "");
        assert [partialLine] + (Lines(ended[1..], "") + Lines(more, "")) == [partialLine] + Lines(ended[1..], "") + Lines(more, "");
      } else {
        LinesOfEnded(text[1..], more, partialLine + [text[0]]);
      }
    }
  }

  lemma {:induction false} NewlineBreaks()
    ensures IsBreak('\n')
  {
  }

  lemma {:induction false} JoinedGrows(data: seq<string>, value: string)
    requires data != []
    ensures |Joined(data + [value])| == |Joined(data)| + 1 + |value|
  {
    if |data| > 1 {
      JoinedGrows(data[1..], value);
      assert (data + [value])[1..] == data[1..] + [value];
    } else {
      assert (data + [value])[1..] == [value];
    }
  }

  /** A line adds at most its own length to the data. */
  lemma {:induction false} CollectsAtMostALine(p: Pending, line: string)
    requires p.data != []
    ensures Collected(p, line).data != [] && |Joined(Collected(p, line).data)| <= |Joined(p.data)| + |line|
  {
    hide Joined;
    JoinedGrows(p.data, FieldValue(line));
    assert line[..Colon(line)] == "data" ==> Colon(line) == 4;
  }

  /** The first frame from here on is no longer than the data collected and the lines still to come. */
  lemma {:induction false} NextFrameIsShort(w: Wire, lines: seq<string>, rest: seq<string>, p: Pending)
    requires p.data != []
    ensures var r := Parsed(w, lines + [""] + rest, p);
      if r.0 == [] then r.1 else |r.0[0].data| <= |Joined(p.data)| + Chars(lines)
    decreases |lines|
  {
    hide Collected, Joined;
    var all := lines + [""] + rest;
    if lines != [] && lines[0] != "" {
      CollectsAtMostALine(p, lines[0]);
      assert all[0] == lines[0] && all[1..] == lines[1..] + [""] + rest;
      NextFrameIsShort(w, lines[1..], rest, Collected(p, lines[0]));
    } else {
      assert all[0] == "";
    }
  }

  lemma {:induction false} FirstBreak(data: string) returns (a: string, c: char, b: string)
    requires !OneLine(data)
    ensures data == a + [c] + b && OneLine(a) && IsBreak(c)
  {
    hide IsBreak;
    if IsBreak(data[0]) {
      a, c, b := "", data[0], data[1..];
    } else {
      a, c, b := FirstBreak(data[1..]);
      a := [data[0]] + a;
    }
  }

  /** The text of one frame, as the server writes it. */
  function FrameText(w: Wire, f: Frame): string
    requires f.id >= 0
  {
    "id: " + w.render(f.id) + "\n" + "event: " + f.event + "\n" + "data: " + f.data + "\n" + "\n"
  }

  lemma {:induction false} TextOfMore(line: string, rest: seq<string>)
    ensures Text([line] + rest) == line + "\n" + Text(rest)
  {
    assert ([line] + rest)[1..] == rest;
  }

  lemma {:induction false} FrameTextIsItsLines(w: Wire, f: Frame, rest: seq<string>)
    requires Writable(w, Sent(f))
    ensures Text(ItemLines(w, Sent(f)) + rest) == FrameText(w, f) + Text(rest)
  {
    hide Text;
    var l := ItemLines(w, Sent(f));
    TextOfMore(l[0], [l[1], l[2], l[3]] + rest);
    TextOfMore(l[1], [l[2], l[3]] + rest);
    TextOfMore(l[2], [l[3]] + rest);
    TextOfMore(l[3], rest);
    assert l + rest == [l[0]] + ([l[1], l[2], l[3]] + rest);
    assert [l[1], l[2], l[3]] + rest == [l[1]] + ([l[2], l[3]] + rest);
    assert [l[2], l[3]] + rest == [l[2]] + ([l[3]] + rest);
  }

  /** Broken data, taken apart at its first line end. */
  lemma {:induction false} BrokenText(w: Wire, f: Frame, a: string, c: char, b: string, later: string)
    requires f.id >= 0 && f.data == a + [c] + b
    ensures FrameText(w, f) + later
            == "id: " + w.render(f.id) + "\n" + ("event: " + f.event + "\n" + ("data: " + a + [c] + (b + "\n" + ("\n" + later))))
  {
  }

  lemma {:induction false} OneLineAppends(a: string, b: string)
    requires OneLine(a) && OneLine(b)
    ensures OneLine(a + b)
  {
    hide IsBreak;
  }

  lemma {:induction false} BrokenLines(w: Wire, f: Frame, a: string, c: char, b: string, later: string)
    requires Faithful(w) && Writable(w, Sent(f)) && f.data == a + [c] + b && OneLine(a) && IsBreak(c)
    ensures Lines(FrameText(w, f) + later, "")
            == ["id: " + w.render(f.id), "event: " + f.event, "data: " + a] + (Lines(b + "\n", "") + [""] + Lines(later, ""))
  {
    hide Lines, IsBreak, FrameText;
    var (first, second, third) := ("id: " + w.render(f.id), "event: " + f.event, "data: " + a);
    var tail := b + "\n" + ("\n" + later);
    BrokenText(w, f, a, c, b, later);
    KeysAreLines();
    OneLineAppends("id: ", w.render(f.id));
    OneLineAppends("event: ", f.event);
    OneLineAppends("data: ", a);
    LinesAfterFirst(first, second + "\n" + (third + [c] + tail), "");
    LinesAfterFirst(second, third + [c] + tail, "");
    LinesAfterBreak(third, c, tail, "");
    assert "" + first == first && "" + second == second && "" + third == third;
    LinesOfEnded(b, "\n" + later, "");
    LinesAfterFirst("", later, "");
    assert "" + "\n" + later == "\n" + later && "" + "" == "";
  }

  lemma {:induction false} KeysAreLines()
    ensures OneLine("id: ") && OneLine("event: ") && OneLine("data: ") && OneLine("")
  {
  }

  /** From broken data no frame comes first that carries the data. */
  lemma {:induction false} BrokenFrame(w: Wire, f: Frame, later: string)
    requires Faithful(w) && Writable(w, Sent(f)) && !OneLine(f.data)
    ensures var r := Parsed(w, Lines(FrameText(w, f) + later, ""), NOTHING);
      if r.0 == [] then r.1 else |r.0[0].data| < |f.data|
  {
    hide Parsed, Lines, IsBreak, Joined, Chars, FrameText;
    var a, c, b := FirstBreak(f.data);
    BrokenLines(w, f, a, c, b, later);
    var end := Lines(b + "\n", "");
    FieldsCollected(w, f, a, end + [""] + Lines(later, ""));
    NextFrameIsShort(w, end, Lines(later, ""), Pending(Some(w.render(f.id)), Some(f.event), [a]));
    LinesOfEnded(b, "", "");
    OneJoined(a);
  }

  lemma {:induction false} OneJoined(a: string)
    ensures Joined([a]) == a
  {
  }

  lemma {:induction false} UnbrokenItemLines(w: Wire, item: Item, rest: seq<string>)
    requires Faithful(w) && Writable(w, item) && IsUnbroken(item)
    ensures Lines(Text(ItemLines(w, item) + rest), "") == ItemLines(w, item) + Lines(Text(rest), "")
  {
    hide Lines, IsBreak;
    var own := ItemLines(w, item);
    ItemLinesAreLines(w, item);
    TextSplits(own, rest);
  }

  lemma {:induction false} TextSplits(own: seq<string>, rest: seq<string>)
    requires forall i :: 0 <= i < |own| ==> OneLine(own[i])
    ensures Lines(Text(own + rest), "") == own + Lines(Text(rest), "")
    decreases |own|
  {
    hide Lines, IsBreak;
    if own == [] {
      assert own + rest == rest && own + Lines(Text(rest), "") == Lines(Text(rest), "");
    } else {
      assert (own + rest)[0] == own[0] && (own + rest)[1..] == own[1..] + rest;
      LinesAfterFirst(own[0], Text(own[1..] + rest), "");
      assert "" + own[0] == own[0];
      TextSplits(own[1..], rest);
      assert own == [own[0]] + own[1..];
    }
  }

  lemma {:induction false} ItemLinesAreLines(w: Wire, item: Item)
    requires Faithful(w) && Writable(w, item) && IsUnbroken(item)
    ensures forall i :: 0 <= i < |ItemLines(w, item)| ==> OneLine(ItemLines(w, item)[i])
  {
    KeysAreLines();
    if item.Sent? {
      OneLineAppends("id: ", w.render(item.frame.id));
      OneLineAppends("event: ", item.frame.event);
      OneLineAppends("data: ", item.frame.data);
    } else {
      assert OneLine(": keep-alive");
    }
  }

  /**
   A whole stream as the server writes it is read as the frames that were sent if and only if no
   data holds a line end that JSON leaves as it is: U+0085, U+2028 or U+2029.
   */
  lemma {:induction false} WholeStreamIffUnbroken(w: Wire, items: seq<Item>)
    requires Faithful(w) && forall i :: 0 <= i < |items| ==> Writable(w, items[i])
    ensures Parsed(w, Lines(Text(StreamLines(w, items)), ""), NOTHING) == (Frames(items), false)
            <==> forall i :: 0 <= i < |items| ==> IsUnbroken(items[i])
    decreases |items|
  {
    hide Parsed, Lines, OneLine, ItemLines, FrameText, Faithful;
    if items == [] {
      NothingIsRead(w);
    } else {
      var later := StreamLines(w, items[1..]);
      assert StreamLines(w, items) == ItemLines(w, items[0]) + later;
      if IsUnbroken(items[0]) {
        WholeStreamIffUnbroken(w, items[1..]);
        UnbrokenItemLines(w, items[0], later);
        CompleteItem(w, items[0], Lines(Text(later), ""));
        var own := if items[0].Sent? then [items[0].frame] else [];
        SameBehind(own, Parsed(w, Lines(Text(later), ""), NOTHING).0, Frames(items[1..]));
        assert (forall i :: 0 <= i < |items| ==> IsUnbroken(items[i])) <==>
               (forall i :: 0 <= i < |items[1..]| ==> IsUnbroken(items[1..][i]));
      } else {
        FrameTextIsItsLines(w, items[0].frame, later);
        BrokenFrame(w, items[0].frame, Text(later));
        assert Frames(items)[0] == items[0].frame;
      }
    }
  }

  lemma {:induction false} SameBehind<T>(front: seq<T>, a: seq<T>, b: seq<T>)
    ensures front + a == front + b <==> a == b
  {
    assert (front + a)[|front|..] == a && (front + b)[|front|..] == b;
  }

  lemma {:induction false} NothingIsRead(w: Wire)
    ensures Parsed(w, Lines(Text([]), ""), NOTHING) == ([], false)
  {
  }

  /** What is left of the ASCII control characters, JSON escapes. */
  lemma {:induction false} BreaksBeyondAscii(w: Wire, f: Frame)
    requires Writable(w, Sent(f))
    ensures OneLine(f.data) <==> '\U{85}' !in f.data && '\U{2028}' !in f.data && '\U{2029}' !in f.data
  {
  }

  /** A delta that is one line separator stops the client at its frame. */
  lemma {:induction false} SeparatorStopsTheClient(w: Wire)
    requires Faithful(w) && w.json("\"\U{2028}\"") && !w.json("\"")
    ensures Parsed(w, Lines(Text(StreamLines(w, [Sent(Frame(1, "answer.delta", "\"\U{2028}\""))])), ""), NOTHING) == ([], true)
  {
    hide Lines, FrameText, Parsed, Faithful;
    var f := Frame(1, "answer.delta", "\"\U{2028}\"");
    var quote := "\"";
    assert f.data == quote + ['\U{2028}'] + quote && OneLine(quote) && OneLine(f.event);
    FrameTextIsItsLines(w, f, []);
    assert [Sent(f)][1..] == [] && StreamLines(w, [Sent(f)]) == ItemLines(w, Sent(f)) + [];
    BrokenLines(w, f, quote, '\U{2028}', quote, "");
    LinesAfterFirst(quote, "", "");
    NoLines();
    assert "" + quote == quote && quote + "\n" + "" == quote + "\n" && FrameText(w, f) + "" == FrameText(w, f);
    assert [quote] + [] == [quote] && [quote] + [""] + [] == [quote, ""];
    FieldsCollected(w, f, quote, [quote, ""]);
    LoneQuoteStops(w, Pending(Some(w.render(1)), Some(f.event), [quote]));
  }

  lemma {:induction false} LoneQuoteStops(w: Wire, p: Pending)
    requires p.data == ["\""] && !w.json("\"")
    ensures Parsed(w, ["\"", ""], p) == ([], true)
  {
    var quote := "\"";
    assert Colon(quote) == 1 && quote[..1] == quote && Collected(p, quote) == p;
    assert ["\"", ""][1..] == [""] && Joined(p.data) == quote;
  }

  lemma {:induction false} NoLines()
    ensures Lines("", "") == [] && Text([]) == ""
  {
  }
}
