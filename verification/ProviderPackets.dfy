/** What the low-latency provider adapter yields for the packets of one response. */
module ProviderPackets {
  import opened Outcomes

  /** The content of a choice: absent or falsy, a text, or something else. */
  datatype Content = NoContent | Text(value: string) | NotText

  datatype Choice = Choice(failed: bool, content: Content, calls: seq<string>, finish: Option<string>)

  datatype Packet = Broken | Packet(usage: bool, choices: seq<Choice>)

  datatype Output = UsageOutput | TextOutput(value: string) | OtherOutput | ToolOutput(call: string) | FinishOutput(reason: string)

  datatype ProviderError = PacketError | ChoiceError | ContentAfterFinish | InvalidAnswer

  const TEXT_LIMIT := 8000

  function TextsOf(outputs: seq<Output>): seq<string> {
    if outputs == [] then []
    else
      var last := outputs[|outputs| - 1];
      TextsOf(outputs[..|outputs| - 1]) + if last.TextOutput? then [last.value] else []
  }

  function CallsOf(outputs: seq<Output>): seq<string> {
    if outputs == [] then []
    else
      var last := outputs[|outputs| - 1];
      CallsOf(outputs[..|outputs| - 1]) + if last.ToolOutput? then [last.call] else []
  }

  /** The outputs that are neither texts nor calls. */
  function MarksOf(outputs: seq<Output>): seq<Output> {
    if outputs == [] then []
    else
      var last := outputs[|outputs| - 1];
      MarksOf(outputs[..|outputs| - 1]) + if last.TextOutput? || last.ToolOutput? then [] else [last]
  }

  /** Other content is passed on at once, unless text is held, and so is each finish reason. */
  function ChoiceMark(choice: Choice, hold: bool): seq<Output> {
    (if choice.content.NotText? && !hold then [OtherOutput] else [])
    + if choice.finish.Some? then [FinishOutput(choice.finish.value)] else []
  }

  function ChoiceMarks(choices: seq<Choice>, hold: bool): seq<Output> {
    if choices == [] then []
    else ChoiceMarks(choices[..|choices| - 1], hold) + ChoiceMark(choices[|choices| - 1], hold)
  }

  function StreamMarks(packets: seq<Packet>, hold: bool): seq<Output> {
    if packets == [] then []
    else
      var last := packets[|packets| - 1];
      StreamMarks(packets[..|packets| - 1], hold)
      + if last.Packet? then (if last.usage then [UsageOutput] else []) + ChoiceMarks(last.choices, hold) else []
  }

  /** The texts and the calls of a stream, whatever is done with them. */
  function ChoiceTexts(choices: seq<Choice>): seq<string> {
    if choices == [] then []
    else
      var last := choices[|choices| - 1];
      ChoiceTexts(choices[..|choices| - 1]) + if last.content.Text? then [last.content.value] else []
  }

  function ChoiceCalls(choices: seq<Choice>): seq<string> {
    if choices == [] then [] else ChoiceCalls(choices[..|choices| - 1]) + choices[|choices| - 1].calls
  }

  function StreamTexts(packets: seq<Packet>): seq<string> {
    if packets == [] then []
    else
      var last := packets[|packets| - 1];
      StreamTexts(packets[..|packets| - 1]) + if last.Packet? then ChoiceTexts(last.choices) else []
  }

  function StreamCalls(packets: seq<Packet>): seq<string> {
    if packets == [] then []
    else
      var last := packets[|packets| - 1];
      StreamCalls(packets[..|packets| - 1]) + if last.Packet? then ChoiceCalls(last.choices) else []
  }

  lemma {:induction false} OutputsAppend(outputs: seq<Output>, output: Output)
    ensures TextsOf(outputs + [output]) == TextsOf(outputs) + if output.TextOutput? then [output.value] else []
    ensures CallsOf(outputs + [output]) == CallsOf(outputs) + if output.ToolOutput? then [output.call] else []
    ensures MarksOf(outputs + [output]) == MarksOf(outputs) + if output.TextOutput? || output.ToolOutput? then [] else [output]
  {
    assert (outputs + [output])[..|outputs|] == outputs;
  }

  lemma {:induction false} ChoicesAppend(choices: seq<Choice>, k: nat)
    requires k < |choices|
    ensures ChoiceTexts(choices[..k + 1]) == ChoiceTexts(choices[..k]) + if choices[k].content.Text? then [choices[k].content.value] else []
    ensures ChoiceCalls(choices[..k + 1]) == ChoiceCalls(choices[..k]) + choices[k].calls
    ensures forall hold :: ChoiceMarks(choices[..k + 1], hold) == ChoiceMarks(choices[..k], hold) + ChoiceMark(choices[k], hold)
  {
    assert choices[..k + 1][..k] == choices[..k];
  }

  lemma {:induction false} PacketsAppend(packets: seq<Packet>, k: nat)
    requires k < |packets| && packets[k].Packet?
    ensures StreamTexts(packets[..k + 1]) == StreamTexts(packets[..k]) + ChoiceTexts(packets[k].choices)
    ensures StreamCalls(packets[..k + 1]) == StreamCalls(packets[..k]) + ChoiceCalls(packets[k].choices)
    ensures forall hold :: StreamMarks(packets[..k + 1], hold)
              == StreamMarks(packets[..k], hold) + ((if packets[k].usage then [UsageOutput] else []) + ChoiceMarks(packets[k].choices, hold))
  {
    assert packets[..k + 1][..k] == packets[..k];
  }

  // ----- What a response must be like ---------------------------------------------------------

  function Length(texts: seq<string>): nat {
    if texts == [] then 0 else Length(texts[..|texts| - 1]) + |texts[|texts| - 1]|
  }

  predicate IsBare(choice: Choice) {
    choice.content.NoContent? && choice.calls == []
  }

  predicate HasStop(choices: seq<Choice>) {
    exists k :: 0 <= k < |choices| && choices[k].finish == Some("stop")
  }

  /** The choice did not fail, content to be held is text, and nothing follows what was released. */
  predicate IsSound(choice: Choice, hold: bool, released: bool) {
    !choice.failed && (released ==> IsBare(choice)) && (hold ==> !choice.content.NotText?)
  }

  predicate AreSound(choices: seq<Choice>, hold: bool, released: bool) {
    forall k :: 0 <= k < |choices| ==> IsSound(choices[k], hold, released)
  }

  /** Held text stays within the limit, together with the `size` characters before it. */
  predicate ChoicesFit(choices: seq<Choice>, hold: bool, released: bool, size: nat) {
    AreSound(choices, hold, released) && (hold ==> size + Length(ChoiceTexts(choices)) <= TEXT_LIMIT)
  }

  predicate PacketFits(packet: Packet, hold: bool, released: bool, size: nat) {
    packet.Packet? && ChoicesFit(packet.choices, hold, released, size)
  }

  /** A stop in this packet, with no call in it or before it. */
  predicate ReleasesAt(packets: seq<Packet>, j: nat) {
    j < |packets| && packets[j].Packet? && HasStop(packets[j].choices) && StreamCalls(packets[..j + 1]) == []
  }

  predicate ReleasedBefore(packets: seq<Packet>, k: nat) {
    exists j: nat :: j < k && ReleasesAt(packets, j)
  }

  /** No packet or choice failed; held content is text within the limit, and nothing follows what was released. */
  predicate EndsWell(packets: seq<Packet>, hold: bool) {
    && (forall k :: 0 <= k < |packets| ==>
          packets[k].Packet? && AreSound(packets[k].choices, hold, hold && ReleasedBefore(packets, k)))
    && (hold ==> Length(StreamTexts(packets)) <= TEXT_LIMIT)
  }

  lemma {:induction false} LengthAdds(a: seq<string>, b: seq<string>)
    ensures Length(a + b) == Length(a) + Length(b)
  {
    if b == [] {
      assert a + b == a;
    } else {
      assert (a + b)[..|a + b| - 1] == a + b[..|b| - 1];
      LengthAdds(a, b[..|b| - 1]);
    }
  }

  lemma {:induction false} NoLength()
    ensures Length([]) == 0
  {
  }

  lemma {:induction false} LengthOfOne(text: string)
    ensures Length([text]) == |text|
  {
    assert [text][..0] == [];
  }

  lemma {:induction false} OneChoice(choice: Choice)
    ensures ChoiceTexts([choice]) == if choice.content.Text? then [choice.content.value] else []
    ensures Length(ChoiceTexts([choice])) == if choice.content.Text? then |choice.content.value| else 0
  {
    assert [choice][..0] == [];
    if choice.content.Text? {
      LengthOfOne(choice.content.value);
    } else {
      NoLength();
    }
  }

  lemma {:induction false} OneIsSound(choice: Choice, hold: bool, released: bool)
    ensures AreSound([choice], hold, released) <==> IsSound(choice, hold, released)
  {
    assert [choice][0] == choice;
  }

  /** One more choice fits exactly when the longer list does. */
  lemma {:induction false} NextChoiceFits(choices: seq<Choice>, k: nat, hold: bool, released: bool, size: nat)
    requires k < |choices| && ChoicesFit(choices[..k], hold, released, size)
    ensures ChoicesFit([choices[k]], hold, released, size + Length(ChoiceTexts(choices[..k])))
            <==> ChoicesFit(choices[..k + 1], hold, released, size)
  {
    hide ChoiceTexts, Length, IsSound;
    ChoicesAppend(choices, k);
    OneChoice(choices[k]);
    LengthAdds(ChoiceTexts(choices[..k]), ChoiceTexts([choices[k]]));
    var longer := choices[..k + 1];
    assert forall i :: 0 <= i < k ==> longer[i] == choices[..k][i];
    assert longer[k] == [choices[k]][0];
  }

  lemma {:induction false} PrefixFits(choices: seq<Choice>, n: nat, hold: bool, released: bool, size: nat)
    requires n <= |choices| && ChoicesFit(choices, hold, released, size)
    ensures ChoicesFit(choices[..n], hold, released, size)
  {
    hide Length, ChoiceTexts, IsSound;
    TextsOfPrefix(choices, n);
  }

  lemma {:induction false} TextsOfPrefix(choices: seq<Choice>, n: nat)
    requires n <= |choices|
    ensures Length(ChoiceTexts(choices[..n])) <= Length(ChoiceTexts(choices))
    decreases |choices|
  {
    if n == |choices| {
      assert choices[..n] == choices;
    } else {
      var m := |choices| - 1;
      TextsOfPrefix(choices[..m], n);
      assert choices[..m][..n] == choices[..n] && choices[..m + 1] == choices;
      ChoicesAppend(choices, m);
      LengthAdds(ChoiceTexts(choices[..m]), if choices[m].content.Text? then [choices[m].content.value] else []);
    }
  }

  /** One more packet fits what was received before exactly when the longer stream ends well. */
  lemma {:induction false} NextPacketFits(packets: seq<Packet>, k: nat, hold: bool)
    requires k < |packets| && EndsWell(packets[..k], hold)
    ensures PacketFits(packets[k], hold, hold && ReleasedBefore(packets, k), Length(StreamTexts(packets[..k])))
            <==> EndsWell(packets[..k + 1], hold)
  {
    hide StreamTexts, StreamCalls, ChoiceTexts, Length, HasStop, IsSound, AreSound, ReleasedBefore;
    forall i | 0 <= i <= k
      ensures ReleasedBefore(packets, i) <==> ReleasedBefore(packets[..k + 1], i)
      ensures i < k ==> (ReleasedBefore(packets, i) <==> ReleasedBefore(packets[..k], i))
    {
      SameReleases(packets, k + 1, i);
      if i < k { SameReleases(packets, k, i); }
    }
    if packets[k].Packet? {
      PacketsAppend(packets, k);
      LengthAdds(StreamTexts(packets[..k]), ChoiceTexts(packets[k].choices));
    }
  }

  lemma {:induction false} NextRelease(packets: seq<Packet>, k: nat)
    requires k < |packets|
    ensures ReleasedBefore(packets, k + 1) <==> ReleasedBefore(packets, k) || ReleasesAt(packets, k)
  {
    hide ReleasesAt;
  }

  lemma {:induction false} SameReleases(packets: seq<Packet>, n: nat, i: nat)
    requires i <= n <= |packets|
    ensures ReleasedBefore(packets, i) <==> ReleasedBefore(packets[..n], i)
  {
    forall j: nat | j < i ensures ReleasesAt(packets, j) <==> ReleasesAt(packets[..n], j) {
      assert packets[..n][..j + 1] == packets[..j + 1];
    }
  }

  /** The adapter while it reads one response. */
  class ProviderStream {
    const hold: bool
    var outputs: seq<Output>
    var buffered: seq<string>
    var textSize: nat
    var hasTool: bool
    var released: bool
    var finish: Option<string>
    ghost var texts: seq<string>   // every text received so far
    ghost var calls: seq<string>   // every call received so far
    ghost var marks: seq<Output>   // everything else that was passed on

    constructor (hold: bool)
      ensures this.hold == hold && Consistent() && Counted() && texts == [] && calls == [] && marks == [] && outputs == [] && !released
    {
      this.hold := hold;
      outputs, buffered, textSize, hasTool, released, finish := [], [], 0, false, false, None;
      texts, calls, marks := [], [], [];
    }

    /** Held text is in the buffer or was released whole; calls are passed on at once. */
    ghost predicate Consistent()
      reads this
    {
      && CallsOf(outputs) == calls && (hasTool <==> calls != []) && MarksOf(outputs) == marks
      && (!hold ==> TextsOf(outputs) == texts && buffered == [] && !released)
      && (hold && !released ==> TextsOf(outputs) == [] && buffered == texts)
      && (hold && released ==> TextsOf(outputs) == texts && buffered == [] && !hasTool)
    }

    /** The size of the held text is known. */
    ghost predicate Counted()
      reads this
    {
      hold ==> textSize == Length(texts) <= TEXT_LIMIT
    }

    method Yield(output: Output)
      modifies this`outputs
      ensures outputs == old(outputs) + [output]
      ensures TextsOf(outputs) == TextsOf(old(outputs)) + if output.TextOutput? then [output.value] else []
      ensures CallsOf(outputs) == CallsOf(old(outputs)) + if output.ToolOutput? then [output.call] else []
      ensures MarksOf(outputs) == MarksOf(old(outputs)) + if output.TextOutput? || output.ToolOutput? then [] else [output]
    {
      outputs := outputs + [output];
      OutputsAppend(old(outputs), output);
    }

    method TakeContent(content: Content) returns (error: Option<ProviderError>)
      requires Consistent() && Counted() && !released
      modifies this
      ensures Consistent() && hasTool == old(hasTool) && released == old(released) && calls == old(calls)
      ensures error.None? ==> Counted() && texts == old(texts) + if content.Text? then [content.value] else []
      ensures error.None? <==>
                (hold ==> !content.NotText? && (content.Text? ==> old(textSize) + |content.value| <= TEXT_LIMIT))
      ensures error.Some? ==> error == Some(InvalidAnswer) && texts == old(texts)
      ensures error.None? ==> marks == old(marks) + if content.NotText? && !hold then [OtherOutput] else []
    {
      hide TextsOf, CallsOf, MarksOf, Length;
      if content.NoContent? { return None; }
      if hold {
        if content.NotText? { return Some(InvalidAnswer); }
        textSize := textSize + |content.value|;
        if textSize > TEXT_LIMIT { return Some(InvalidAnswer); }
        LengthOfOne(content.value);
        LengthAdds(texts, [content.value]);
        buffered := buffered + [content.value];
        texts := texts + [content.value];
      } else {
        Yield(if content.Text? then TextOutput(content.value) else OtherOutput);
        if content.Text? {
          texts := texts + [content.value];
        } else {
          marks := marks + [OtherOutput];
        }
      }
      return None;
    }

    method TakeChoice(choice: Choice) returns (error: Option<ProviderError>)
      requires Consistent() && Counted()
      modifies this
      ensures Consistent() && released == old(released) && (released ==> texts == old(texts))
      ensures error.None? <==> ChoicesFit([choice], hold, old(released), Length(old(texts)))
      ensures error.None? ==> Counted()
      ensures error.None? ==> texts == old(texts) + (if choice.content.Text? then [choice.content.value] else [])
      ensures error.None? ==> calls == old(calls) + choice.calls && marks == old(marks) + ChoiceMark(choice, hold)
    {
      hide TextsOf, CallsOf, MarksOf, Length, ChoiceTexts, AreSound;
      OneChoice(choice);
      OneIsSound(choice, hold, released);
      if choice.failed { return Some(ChoiceError); }
      if released && (!choice.content.NoContent? || choice.calls != []) { return Some(ContentAfterFinish); }
      if !released {
        error := TakeContent(choice.content);
        if error.Some? { return; }
        TakeCalls(choice.calls);
      }
      if choice.finish.Some? {
        finish := choice.finish;
        Yield(FinishOutput(choice.finish.value));
        marks := marks + [FinishOutput(choice.finish.value)];
      }
      return None;
    }

    method TakeCall(call: string)
      requires Consistent() && !released
      modifies this
      ensures Consistent() && !released && texts == old(texts) && textSize == old(textSize) && calls == old(calls) + [call]
      ensures marks == old(marks)
    {
      hide TextsOf, CallsOf, MarksOf;
      hasTool := true;
      Yield(ToolOutput(call));
      calls := calls + [call];
    }

    method TakeCalls(more: seq<string>)
      requires Consistent() && !released
      modifies this
      ensures Consistent() && !released && texts == old(texts) && textSize == old(textSize) && calls == old(calls) + more
      ensures marks == old(marks)
    {
      hide Consistent;
      for k := 0 to |more|
        invariant Consistent() && !released && texts == old(texts) && textSize == old(textSize) && calls == old(calls) + more[..k]
        invariant marks == old(marks)
      {
        TakeCall(more[k]);
        assert old(calls) + more[..k] + [more[k]] == old(calls) + more[..k + 1];
      }
      assert more[..|more|] == more;
    }

    method Release()
      requires Consistent() && hold && !hasTool && !released
      modifies this
      ensures Consistent() && released && texts == old(texts) && calls == old(calls) && hasTool == old(hasTool)
      ensures textSize == old(textSize) && marks == old(marks)
    {
      var rest := buffered;
      for k := 0 to |rest|
        invariant TextsOf(outputs) == rest[..k] && CallsOf(outputs) == [] && MarksOf(outputs) == marks == old(marks)
        invariant hold && !hasTool && !released && texts == rest && calls == [] && texts == old(texts) && textSize == old(textSize)
      {
        Yield(TextOutput(rest[k]));
        assert rest[..k + 1] == rest[..k] + [rest[k]];
      }
      assert rest[..|rest|] == rest;
      released, buffered := true, [];
    }

    /** A stop without a call releases what is held, when its whole packet was good. */
    method TakePacket(packet: Packet) returns (error: Option<ProviderError>)
      requires Consistent() && Counted()
      modifies this
      ensures Consistent() && (old(released) ==> texts == old(texts))
      ensures error.None? <==> PacketFits(packet, hold, old(released), Length(old(texts)))
      ensures error.None? ==> Counted() && (released <==> old(released) || (hold && calls == [] && HasStop(packet.choices)))
      ensures error.Some? ==> released == old(released)
      ensures error.None? ==> texts == old(texts) + ChoiceTexts(packet.choices) && calls == old(calls) + ChoiceCalls(packet.choices)
      ensures error.None? ==> marks == old(marks) + ((if packet.usage then [UsageOutput] else []) + ChoiceMarks(packet.choices, hold))
    {
      hide TextsOf, CallsOf, MarksOf, ChoiceTexts, ChoiceCalls, ChoiceMarks, Length, ChoicesFit;
      if packet.Broken? { return Some(PacketError); }
      if packet.usage {
        Yield(UsageOutput);
        marks := marks + [UsageOutput];
      }
      error := TakeChoices(packet.choices);
      if error.Some? { return; }
      if hold && !hasTool && !released
         && exists k :: 0 <= k < |packet.choices| && packet.choices[k].finish == Some("stop") {
        Release();
      }
      return None;
    }

    method TakeChoices(choices: seq<Choice>) returns (error: Option<ProviderError>)
      requires Consistent() && Counted()
      modifies this
      ensures Consistent() && released == old(released) && (released ==> texts == old(texts))
      ensures error.None? <==> ChoicesFit(choices, hold, old(released), Length(old(texts)))
      ensures error.None? ==> Counted()
      ensures error.None? ==> texts == old(texts) + ChoiceTexts(choices) && calls == old(calls) + ChoiceCalls(choices)
      ensures error.None? ==> marks == old(marks) + ChoiceMarks(choices, hold)
    {
      hide Consistent, ChoiceTexts, ChoiceCalls, ChoiceMarks, ChoiceMark, Length, IsSound;
      NoChoices();
      NoLength();
      for k := 0 to |choices|
        invariant Consistent() && Counted() && released == old(released) && (released ==> texts == old(texts))
        invariant ChoicesFit(choices[..k], hold, released, Length(old(texts)))
        invariant texts == old(texts) + ChoiceTexts(choices[..k]) && calls == old(calls) + ChoiceCalls(choices[..k])
        invariant marks == old(marks) + ChoiceMarks(choices[..k], hold)
      {
        LengthAdds(old(texts), ChoiceTexts(choices[..k]));
        NextChoiceFits(choices, k, hold, released, Length(old(texts)));
        error := TakeChoice(choices[k]);
        if error.Some? {
          if ChoicesFit(choices, hold, released, Length(old(texts))) {
            PrefixFits(choices, k + 1, hold, released, Length(old(texts)));
          }
          return;
        }
        ChoicesAppend(choices, k);
      }
      assert choices[..|choices|] == choices;
      error := None;
    }
  }

  lemma {:induction false} NoChoices()
    ensures ChoiceTexts([]) == [] && ChoiceCalls([]) == [] && StreamTexts([]) == [] && StreamCalls([]) == []
    ensures forall hold :: ChoiceMarks([], hold) == StreamMarks([], hold) == []
  {
  }

  /** The stream was good up to a stop without a call. */
  predicate GoodStop(packets: seq<Packet>, j: nat) {
    ReleasesAt(packets, j) && EndsWell(packets[..j + 1], true)
  }

  lemma {:induction false} PrefixEndsWell(packets: seq<Packet>, n: nat, hold: bool)
    requires n <= |packets| && EndsWell(packets, hold)
    ensures EndsWell(packets[..n], hold)
    decreases |packets|
  {
    hide StreamTexts, StreamCalls, ChoiceTexts, Length, HasStop, IsSound, AreSound, ReleasesAt;
    if n == |packets| {
      assert packets[..n] == packets;
    } else {
      var m := |packets| - 1;
      assert packets[..m + 1] == packets && packets[..m][..n] == packets[..n];
      PacketsAppend(packets, m);
      LengthAdds(StreamTexts(packets[..m]), ChoiceTexts(packets[m].choices));
      forall i | 0 <= i < m ensures ReleasedBefore(packets, i) <==> ReleasedBefore(packets[..m], i) {
        SameReleases(packets, m, i);
      }
      PrefixEndsWell(packets[..m], n, hold);
    }
  }

  /** Where a stream goes wrong, the good stops are the releases before. */
  lemma {:induction false} GoodStopsComeBefore(packets: seq<Packet>, k: nat, hold: bool)
    requires k < |packets| && EndsWell(packets[..k], hold) && !EndsWell(packets[..k + 1], hold)
    ensures !EndsWell(packets, hold)
    ensures hold ==> forall j: nat :: GoodStop(packets, j) <==> j < k && ReleasesAt(packets, j)
  {
    hide EndsWell, ReleasesAt;
    if EndsWell(packets, hold) {
      PrefixEndsWell(packets, k + 1, hold);
    }
    forall j: nat | hold ensures GoodStop(packets, j) <==> j < k && ReleasesAt(packets, j) {
      if j < k {
        ShorterEndsWell(packets, j + 1, k, hold);
      } else if GoodStop(packets, j) {
        ReleaseIsInside(packets, j);
        ShorterEndsWell(packets, k + 1, j + 1, hold);
      }
    }
  }

  lemma {:induction false} ShorterEndsWell(packets: seq<Packet>, m: nat, n: nat, hold: bool)
    requires m <= n <= |packets| && EndsWell(packets[..n], hold)
    ensures EndsWell(packets[..m], hold)
  {
    PrefixEndsWell(packets[..n], m, hold);
    assert packets[..n][..m] == packets[..m];
  }

  lemma {:induction false} ReleaseIsInside(packets: seq<Packet>, j: nat)
    requires ReleasesAt(packets, j)
    ensures j < |packets|
  {
  }

  lemma {:induction false} NothingEndsWell(hold: bool)
    ensures EndsWell([], hold) && StreamTexts([]) == []
  {
  }

  /**
   One response. It is read to its end exactly when no packet or choice failed, held content was
   text within the limit, and nothing followed a release. While text is held, no packet sequence,
   failing or not, yields both texts and tool calls; a stream that ends well yields every call, every
   usage record and every finish reason in order, and every text in order unless held text gave way to a call. After a good stop all held
   text is out, whatever comes later; a held stream that fails without one yields no text at all.
   */
  method Stream(packets: seq<Packet>, hold: bool) returns (outputs: seq<Output>, error: Option<ProviderError>)
    ensures error.None? <==> EndsWell(packets, hold)
    ensures hold ==> TextsOf(outputs) == [] || CallsOf(outputs) == []
    ensures error.None? ==> CallsOf(outputs) == StreamCalls(packets) && MarksOf(outputs) == StreamMarks(packets, hold)
    ensures error.None? ==>
              TextsOf(outputs) == if hold && StreamCalls(packets) != [] then [] else StreamTexts(packets)
    ensures hold ==> forall j: nat :: GoodStop(packets, j) ==> TextsOf(outputs) == StreamTexts(packets[..j + 1])
    ensures hold && error.Some? && (forall j: nat :: !GoodStop(packets, j)) ==> TextsOf(outputs) == []
  {
    hide TextsOf, CallsOf, MarksOf, StreamTexts, StreamCalls, StreamMarks, ChoiceMarks, ChoiceTexts, ChoiceCalls, Length, EndsWell, ChoicesFit, HasStop;
    NoChoices();
    NothingEndsWell(hold);
    var stream := new ProviderStream(hold);
    for k := 0 to |packets|
      invariant stream.Consistent() && stream.Counted() && stream.hold == hold && fresh(stream)
      invariant stream.texts == StreamTexts(packets[..k]) && stream.calls == StreamCalls(packets[..k])
      invariant stream.marks == StreamMarks(packets[..k], hold)
      invariant EndsWell(packets[..k], hold) && (stream.released <==> hold && ReleasedBefore(packets, k))
      invariant hold ==> forall j: nat :: j < k && ReleasesAt(packets, j) ==> stream.texts == StreamTexts(packets[..j + 1])
    {
      NextPacketFits(packets, k, hold);
      error := stream.TakePacket(packets[k]);
      if error.Some? {
        GoodStopsComeBefore(packets, k, hold);
        return stream.outputs, error;
      }
      PacketsAppend(packets, k);
      NextRelease(packets, k);
    }
    assert packets[..|packets|] == packets;
    if hold && !stream.hasTool && !stream.released {
      stream.Release();
    }
    return stream.outputs, None;
  }
}
