/** Calls whose arguments were written by the writer, seen by the readers of a training target. */
module WrittenCalls {
  import opened Outcomes
  import opened NativeGrammar
  import opened NativeParsers
  import opened SpanTheorems
  import opened ProseFields
  import opened DecisionMasking
  import NativeWriting
  import NativeRoundTrip

  predicate IsObject(v: Value) {
    v.Container? && v.obj
  }

  /** The arguments of a call are read as the object that was written. */
  lemma {:induction false} WrittenArgumentsAreRead(tool: Tool, v: Value, at: nat, style: NativeWriting.Style, cs: Charset)
    requires NativeWriting.IsUsual(cs) && NativeWriting.IsGap(style.gap, cs)
    requires IsObject(v) && NativeWriting.IsWritable(v, style.notation) && NativeWriting.Height(v) <= 40
    ensures CallArguments(ToolCall(tool, NativeWriting.Rendered(v, style), at), cs) == Ok(v)
  {
    hide Parse, NativeWriting.Rendered, NativeWriting.IsUsual, NativeWriting.IsWritable, NativeWriting.Height;
    NativeRoundTrip.WrittenValueReadsBack(v, style, cs);
  }

  /**
   In an accepted call that was written from an object, every prose field of that object has its
   omitted span.
   */
  lemma {:induction false} WrittenProseIsFound(
    tool: Tool, v: Value, at: nat, style: NativeWriting.Style, cs: Charset, interiors: seq<Span>, path: Path)
    requires NativeWriting.IsUsual(cs) && NativeWriting.IsGap(style.gap, cs)
    requires IsObject(v) && NativeWriting.IsWritable(v, style.notation) && NativeWriting.Height(v) <= 40
    requires var call := ToolCall(tool, NativeWriting.Rendered(v, style), at);
      IsCallProse(call, cs, interiors)
    requires IsProseField(tool, v, path)
    ensures var text := NativeWriting.Rendered(v, style);
      exists k :: 0 <= k < |interiors| && IsInterior(text, cs, v, path, interiors[k])
  {
    hide Parse, CallArguments, NativeWriting.Rendered, NativeWriting.IsUsual, NativeWriting.IsWritable, NativeWriting.Height,
      IsProseField, IsInterior;
    var call := ToolCall(tool, NativeWriting.Rendered(v, style), at);
    WrittenArgumentsAreRead(tool, v, at, style, cs);
    OmittedSpansAreTheProseFields(call, cs, interiors);
    var paths: seq<Path> :| ListsProse(tool, v, paths) && AreInteriors(call.text, cs, v, paths, interiors);
    var k :| 0 <= k < |paths| && paths[k] == path;
  }

  /** Calls written from well-shaped objects are accepted. */
  lemma {:induction false} WrittenCallsAreAccepted(calls: seq<ToolCall>, values: seq<Value>, style: NativeWriting.Style, cs: Charset)
    requires NativeWriting.IsUsual(cs) && NativeWriting.IsGap(style.gap, cs) && |calls| == |values|
    requires forall c :: 0 <= c < |values| ==>
               && IsObject(values[c]) && NativeWriting.IsWritable(values[c], style.notation) && NativeWriting.Height(values[c]) <= 40
               && calls[c].text == NativeWriting.Rendered(values[c], style) && IsWellShaped(calls[c].tool, values[c])
    ensures AreAccepted(calls, cs)
  {
    hide Parse, CallArguments, NativeWriting.Rendered, NativeWriting.IsUsual, NativeWriting.IsWritable, NativeWriting.Height, IsWellShaped;
    forall c | 0 <= c < |calls| ensures CallArguments(calls[c], cs) == Ok(values[c]) {
      WrittenArgumentsAreRead(calls[c].tool, values[c], calls[c].at, style, cs);
    }
  }
}
