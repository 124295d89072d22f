/**
 The streamed answer: a reader task puts provider deltas into a bounded queue while the main loop
 collects them and commits them, by size, by time, or at the end.
 */
module AnswerStream {
  import opened Outcomes

  const QUEUE_SIZE := 64
  const FLUSH_CHARS := 64

  datatype Item = Delta(text: string) | End(finish: Option<string>) | Error

  /** `Putting` holds a delta, and `Closing` the last item, until the queue has room for it. */
  datatype Reader = Reading | Putting(text: string) | Closing(last: Item) | Done

  /** Why the loop is over. `StoreFailed` covers a refused, a failed and an unanswered commit. */
  datatype Result = Answered | ProviderFailed | OutOfTokens | Incomplete | StoreFailed | Cancelled

  datatype Loop = Waiting | Flushing(next: Option<Item>) | Ending(last: Item) | Over(result: Result)

  /** `read` and `committed` are the texts received and the deltas stored, in order. */
  datatype State = State(
    reader: Reader,
    queue: seq<Item>,
    buffer: string,
    loop: Loop,
    read: seq<string>,
    committed: seq<string>)

  datatype Action =
    | Receive(text: string)
    | Finish(finish: Option<string>)
    | Fail
    | PutDelta
    | PutLast
    | TimedFlush
    | Take
    | Commit
    | CommitFails(stored: bool)
    | Conclude
    | Cancel

  const INITIAL := State(Reading, [], "", Waiting, [], [])

  predicate Allowed(s: State, a: Action) {
    match a
    case Receive(_) => s.reader.Reading?
    case PutDelta => s.reader.Putting? && |s.queue| < QUEUE_SIZE
    case Finish(_) => s.reader.Reading?
    case Fail => s.reader.Reading?
    case PutLast => s.reader.Closing? && |s.queue| < QUEUE_SIZE
    case TimedFlush => s.loop.Waiting? && s.buffer != ""
    case Take => s.loop.Waiting? && s.queue != []
    case Commit => s.loop.Flushing?
    case CommitFails(_) => s.loop.Flushing?
    case Conclude => s.loop.Ending?
    case Cancel => s.loop.Waiting?
  }

  /** A delta joins the buffer; the first one, and a full buffer, are committed at once. */
  function Taken(s: State): State
    requires s.queue != []
  {
    var rest := s.(queue := s.queue[1..]);
    match s.queue[0]
    case Delta(text) =>
      var grown := s.buffer + text;
      rest.(buffer := grown, loop := if s.committed == [] || |grown| >= FLUSH_CHARS then Flushing(None) else Waiting)
    case _ => rest.(loop := if s.buffer != "" then Flushing(Some(s.queue[0])) else Ending(s.queue[0]))
  }

  function ResultOf(last: Item, read: seq<string>): Result {
    match last
    case End(finish) =>
      if finish == Some("length") then OutOfTokens
      else if read == [] || !(finish == Some("stop") || finish == Some("end_turn")) then Incomplete
      else Answered
    case _ => ProviderFailed
  }

  function After(s: State, a: Action): State
    requires Allowed(s, a)
  {
    match a
    case Receive(text) => if text == "" then s else s.(reader := Putting(text), read := s.read + [text])
    case PutDelta => s.(reader := Reading, queue := s.queue + [Delta(s.reader.text)])
    case Finish(finish) => s.(reader := Closing(End(finish)))
    case Fail => s.(reader := Closing(Error))
    case PutLast => s.(reader := Done, queue := s.queue + [s.reader.last])
    case TimedFlush => s.(loop := Flushing(None))
    case Take => Taken(s)
    case Commit =>
      s.(committed := s.committed + [s.buffer], buffer := "",
         loop := if s.loop.next.Some? then Ending(s.loop.next.value) else Waiting)
    case CommitFails(stored) =>
      s.(committed := if stored then s.committed + [s.buffer] else s.committed, loop := Over(StoreFailed))
    case Conclude => s.(loop := Over(ResultOf(s.loop.last, s.read)))
    case Cancel => s.(loop := Over(Cancelled))
  }

  /** The variables that the reader task and the loop share. */
  class StreamedAnswer {
    var reader: Reader
    var queue: seq<Item>
    var buffer: string
    var loop: Loop
    var read: seq<string>
    var committed: seq<string>

    ghost function View(): State
      reads this
    {
      State(reader, queue, buffer, loop, read, committed)
    }

    constructor ()
      ensures View() == INITIAL
    {
      reader, queue, buffer, loop, read, committed := Reading, [], "", Waiting, [], [];
    }

    method ReceiveDelta(text: string)
      requires Allowed(View(), Receive(text))
      modifies this
      ensures View() == After(old(View()), Receive(text))
    {
      if text == "" { return; }
      read := read + [text];
      reader := Putting(text);
    }

    method PutReceived()
      requires Allowed(View(), PutDelta)
      modifies this
      ensures View() == After(old(View()), PutDelta)
    {
      queue, reader := queue + [Delta(reader.text)], Reading;
    }

    method Close(last: Item)
      requires reader.Reading? && !last.Delta?
      modifies this
      ensures View() == After(old(View()), if last.End? then Finish(last.finish) else Fail)
    {
      reader := Closing(last);
    }

    method PutLastItem()
      requires Allowed(View(), PutLast)
      modifies this
      ensures View() == After(old(View()), PutLast)
    {
      queue, reader := queue + [reader.last], Done;
    }

    method TakeItem()
      requires Allowed(View(), Take)
      modifies this
      ensures View() == After(old(View()), Take)
    {
      var item := queue[0];
      queue := queue[1..];
      if item.Delta? {
        buffer := buffer + item.text;
        if committed == [] || |buffer| >= FLUSH_CHARS {
          loop := Flushing(None);
        }
      } else if buffer != "" {
        loop := Flushing(Some(item));
      } else {
        loop := Ending(item);
      }
    }

    method FlushCommitted()
      requires Allowed(View(), Commit)
      modifies this
      ensures View() == After(old(View()), Commit)
    {
      committed := committed + [buffer];
      buffer := "";
      loop := if loop.next.Some? then Ending(loop.next.value) else Waiting;
    }

    method Settle()
      requires Allowed(View(), Conclude)
      modifies this
      ensures View() == After(old(View()), Conclude)
    {
      var result := ProviderFailed;
      if loop.last.End? {
        if loop.last.finish == Some("length") {
          result := OutOfTokens;
        } else if read == [] || !(loop.last.finish == Some("stop") || loop.last.finish == Some("end_turn")) {
          result := Incomplete;
        } else {
          result := Answered;
        }
      }
      loop := Over(result);
    }
  }

  ghost predicate IsRun(states: seq<State>, actions: seq<Action>) {
    && |states| == |actions| + 1
    && states[0] == INITIAL
    && forall k :: 0 <= k < |actions| ==> Allowed(states[k], actions[k]) && states[k + 1] == After(states[k], actions[k])
  }

  function Joined(texts: seq<string>): string {
    if texts == [] then "" else Joined(texts[..|texts| - 1]) + texts[|texts| - 1]
  }

  function Queued(queue: seq<Item>): string {
    if queue == [] then ""
    else
      var last := queue[|queue| - 1];
      Queued(queue[..|queue| - 1]) + if last.Delta? then last.text else ""
  }

  lemma {:induction false} QueuedFront(queue: seq<Item>)
    requires queue != []
    ensures Queued(queue) == (if queue[0].Delta? then queue[0].text else "") + Queued(queue[1..])
  {
    hide Queued;
    var n := |queue| - 1;
    var front, last := queue[..n], queue[n];
    var head, tail := if queue[0].Delta? then queue[0].text else "", if last.Delta? then last.text else "";
    assert queue == front + [last];
    QueuedAppends(front, last);
    if n > 0 {
      QueuedFront(front);
      assert queue[1..] == front[1..] + [last];
      QueuedAppends(front[1..], last);
      assert (head + Queued(front[1..])) + tail == head + (Queued(front[1..]) + tail);
    } else {
      assert front == [] && queue[1..] == [];
      NothingJoined();
      assert "" + tail == tail + "";
    }
  }

  lemma {:induction false} JoinedAppends(texts: seq<string>, text: string)
    ensures Joined(texts + [text]) == Joined(texts) + text
  {
    assert (texts + [text])[..|texts|] == texts;
  }

  lemma {:induction false} QueuedAppends(queue: seq<Item>, item: Item)
    ensures Queued(queue + [item]) == Queued(queue) + if item.Delta? then item.text else ""
  {
    assert (queue + [item])[..|queue|] == queue;
  }

  /** The last item is read after every delta, and the reader is done when it is there. */
  predicate LastIsLast(s: State) {
    && (forall k :: 0 <= k < |s.queue| ==> !s.queue[k].Delta? ==> k == |s.queue| - 1 && s.reader.Done?)
    && (s.reader.Closing? ==> !s.reader.last.Delta?)
    && (s.loop.Ending? ==> !s.loop.last.Delta? && s.queue == [] && s.buffer == "" && s.reader.Done?)
    && (s.loop.Flushing? && s.loop.next.Some? ==> !s.loop.next.value.Delta? && s.queue == [] && s.reader.Done?)
  }

  ghost predicate Inv(s: State) {
    && LastIsLast(s)
    && |s.queue| <= QUEUE_SIZE
    && (s.loop.Flushing? ==> s.buffer != "")
    && (s.loop.Waiting? && s.buffer != "" ==> |s.buffer| < FLUSH_CHARS && s.committed != [])
    && (forall k :: 0 <= k < |s.queue| && s.queue[k].Delta? ==> s.queue[k].text != "")
    && (forall k :: 0 <= k < |s.committed| ==> s.committed[k] != "")
    && (s.reader.Putting? ==> s.reader.text != "")
    && (!(s.loop.Over? && s.loop.result.StoreFailed?) ==> Conserved(s))
    && (CameToAnEnd(s) ==> Joined(s.committed) == Joined(s.read) && s.reader.Done?)
    && (s.loop.Over? && s.loop.result.StoreFailed? ==> Lost(s))
  }

  /** The loop took the last item. */
  predicate CameToAnEnd(s: State) {
    s.loop.Over? && !s.loop.result.StoreFailed? && !s.loop.result.Cancelled?
  }

  /** What the reader still holds. */
  function Pending(reader: Reader): string {
    if reader.Putting? then reader.text else ""
  }

  /** Committed, collected, queued and pending text is all the text read, in order. */
  predicate Conserved(s: State) {
    Joined(s.committed) + s.buffer + Queued(s.queue) + Pending(s.reader) == Joined(s.read)
  }

  /** The buffer was stored or it was not, and nothing else is missing. */
  predicate Lost(s: State) {
    || Conserved(s)
    || Joined(s.committed) + Queued(s.queue) + Pending(s.reader) == Joined(s.read)
  }

  lemma {:induction false} StepKeepsInv(s: State, a: Action)
    requires Inv(s) && Allowed(s, a)
    ensures Inv(After(s, a))
  {
    hide Joined, Queued;
    NothingJoined();
    match a
    case Receive(text) =>
      JoinedAppends(s.read, text);
      ReceiveKeepsText(s, text);
    case PutDelta => PutDeltaKeepsInv(s);
    case PutLast => QueuedAppends(s.queue, s.reader.last);
    case Take => TakeKeepsInv(s);
    case Commit =>
      JoinedAppends(s.committed, s.buffer);
      assert Joined(s.committed) + s.buffer + "" == Joined(s.committed) + s.buffer;
    case CommitFails(_) => JoinedAppends(s.committed, s.buffer);
    case Conclude => assert Joined(s.committed) + "" + "" + "" == Joined(s.committed);
    case _ =>
  }

  lemma {:induction false} NothingJoined()
    ensures Joined([]) == "" && Queued([]) == ""
  {
  }

  lemma {:induction false} ReceiveKeepsText(s: State, text: string)
    ensures Joined(s.committed) + s.buffer + Queued(s.queue) + "" + text == Joined(s.committed) + s.buffer + Queued(s.queue) + text
    ensures Joined(s.committed) + Queued(s.queue) + "" + text == Joined(s.committed) + Queued(s.queue) + text
  {
    hide Joined, Queued;
  }

  lemma {:induction false} PutDeltaKeepsInv(s: State)
    requires Inv(s) && Allowed(s, PutDelta)
    ensures Inv(After(s, PutDelta))
  {
    hide Joined, Queued;
    var text := s.reader.text;
    QueuedAppends(s.queue, Delta(text));
    assert Joined(s.committed) + s.buffer + (Queued(s.queue) + text) + "" == Joined(s.committed) + s.buffer + Queued(s.queue) + text;
    assert Joined(s.committed) + (Queued(s.queue) + text) + "" == Joined(s.committed) + Queued(s.queue) + text;
  }

  lemma {:induction false} TakeKeepsInv(s: State)
    requires Inv(s) && Allowed(s, Take)
    ensures Inv(After(s, Take))
  {
    hide Joined, Queued;
    NothingJoined();
    QueuedFront(s.queue);
    var n := After(s, Take);
    assert forall k :: 0 <= k < |n.queue| ==> n.queue[k] == s.queue[k + 1];
    if s.queue[0].Delta? {
      assert Joined(s.committed) + (s.buffer + s.queue[0].text) + Queued(s.queue[1..])
          == Joined(s.committed) + s.buffer + (s.queue[0].text + Queued(s.queue[1..]));
    } else {
      assert |s.queue| == 1;
    }
  }

  lemma {:induction false} InvAlongRun(states: seq<State>, actions: seq<Action>, k: nat)
    requires IsRun(states, actions) && k < |states|
    ensures Inv(states[k])
  {
    if k > 0 {
      InvAlongRun(states, actions, k - 1);
      StepKeepsInv(states[k - 1], actions[k - 1]);
    }
  }

  /**
   For every schedule of the reader, the queue, timed flushes, commits and a cancellation: what is
   committed, then what is collected, then what is queued, then what the reader waits to queue, is
   the provider's text so far, in order; no empty delta is committed; the queue is bounded.
   */
  lemma {:induction false} TextIsConserved(states: seq<State>, actions: seq<Action>, k: nat)
    requires IsRun(states, actions) && k < |states|
    requires !(states[k].loop.Over? && states[k].loop.result.StoreFailed?)
    ensures var s := states[k];
      && Joined(s.committed) + s.buffer + Queued(s.queue) + Pending(s.reader) == Joined(s.read)
      && (forall j :: 0 <= j < |s.committed| ==> s.committed[j] != "")
      && |s.queue| <= QUEUE_SIZE
  {
    InvAlongRun(states, actions, k);
  }

  /**
   When the loop has taken the last item, on a normal end as on a provider error, all that was
   received has been committed; it is an answer only if something was received and the
   provider said so.
   */
  lemma {:induction false} EverythingReceivedIsCommitted(states: seq<State>, actions: seq<Action>, k: nat)
    requires IsRun(states, actions) && k < |states| && CameToAnEnd(states[k])
    ensures Joined(states[k].committed) == Joined(states[k].read)
    ensures states[k].loop.result.Answered? ==> states[k].committed != []
  {
    InvAlongRun(states, actions, k);
    AnswerHasText(states, actions, k);
    if states[k].committed == [] {
      NothingJoined();
    }
  }

  /**
   After a commit without an answer only the text of that commit is in doubt: either it was stored
   or it is what is missing, and all the rest is still there, in order.
   */
  lemma {:induction false} FailedCommitLosesItsTextOnly(states: seq<State>, actions: seq<Action>, k: nat)
    requires IsRun(states, actions) && k < |states| && states[k].loop.Over? && states[k].loop.result.StoreFailed?
    ensures var s := states[k];
      || Joined(s.committed) + s.buffer + Queued(s.queue) + Pending(s.reader) == Joined(s.read)
      || Joined(s.committed) + Queued(s.queue) + Pending(s.reader) == Joined(s.read)
    ensures forall j :: 0 <= j < |states[k].committed| ==> states[k].committed[j] != ""
  {
    InvAlongRun(states, actions, k);
  }

  /** Received texts are not empty, so neither is their join. */
  lemma {:induction false} AnswerHasText(states: seq<State>, actions: seq<Action>, k: nat)
    requires IsRun(states, actions) && k < |states|
    ensures forall j :: 0 <= j < |states[k].read| ==> states[k].read[j] != ""
    ensures states[k].read != [] ==> Joined(states[k].read) != ""
    ensures states[k].loop.Over? && states[k].loop.result.Answered? ==> states[k].read != []
  {
    hide Joined, Queued, Taken;
    if k > 0 {
      AnswerHasText(states, actions, k - 1);
      InvAlongRun(states, actions, k - 1);
      TakenReadsNothing(states[k - 1]);
    }
    if states[k].read != [] {
      JoinIsNotEmpty(states[k].read);
    }
  }

  lemma {:induction false} TakenReadsNothing(s: State)
    ensures s.queue != [] ==> Taken(s).read == s.read && !Taken(s).loop.Over?
  {
  }

  lemma {:induction false} JoinIsNotEmpty(texts: seq<string>)
    requires texts != [] && texts[|texts| - 1] != ""
    ensures Joined(texts) != ""
  {
    assert |Joined(texts)| >= |texts[|texts| - 1]|;
  }

  // ----- How it ends -------------------------------------------------------------------------

  /** The reader's last item, wherever it is on its way. */
  function LastItem(s: State): Option<Item> {
    if s.reader.Closing? then Some(s.reader.last)
    else if s.queue != [] && !s.queue[|s.queue| - 1].Delta? then Some(s.queue[|s.queue| - 1])
    else if s.loop.Flushing? then s.loop.next
    else if s.loop.Ending? then Some(s.loop.last)
    else None
  }

  /** What the reader's ending makes of an answer with these texts. */
  function Verdict(ending: Action, read: seq<string>): Result
    requires ending.Finish? || ending.Fail?
  {
    if ending.Fail? then ProviderFailed
    else if ending.finish == Some("length") then OutOfTokens
    else if read != [] && (ending.finish == Some("stop") || ending.finish == Some("end_turn")) then Answered
    else Incomplete
  }

  predicate OnItsWay(s: State, ending: Action)
    requires ending.Finish? || ending.Fail?
  {
    if s.loop.Over? then s.loop.result == Verdict(ending, s.read) || s.loop.result.StoreFailed? || s.loop.result.Cancelled?
    else LastItem(s) == Some(if ending.Fail? then Error else End(ending.finish))
  }

  lemma {:induction false} EndingStaysOnItsWay(s: State, a: Action, ending: Action)
    requires LastIsLast(s) && (CameToAnEnd(s) ==> s.reader.Done?) && Allowed(s, a) && (ending.Finish? || ending.Fail?)
    requires a == ending || (OnItsWay(s, ending) && !s.reader.Reading? && !s.reader.Putting?)
    ensures OnItsWay(After(s, a), ending)
    ensures !After(s, a).reader.Reading? && !After(s, a).reader.Putting?
  {
  }

  /**
   However the schedule goes, a stream that is taken to its end is an answer exactly when the
   provider sent some text and finished properly; otherwise the provider's own ending says why not.
   */
  lemma {:induction false} EndingDecidesTheResult(states: seq<State>, actions: seq<Action>, j: nat, k: nat)
    requires IsRun(states, actions) && j < k < |states| && (actions[j].Finish? || actions[j].Fail?)
    ensures !states[k].reader.Reading? && !states[k].reader.Putting? && OnItsWay(states[k], actions[j])
    ensures CameToAnEnd(states[k]) ==> states[k].loop.result == Verdict(actions[j], states[k].read)
    decreases k
  {
    hide Joined, Queued, OnItsWay, After, Allowed;
    InvAlongRun(states, actions, k - 1);
    if k > j + 1 {
      EndingDecidesTheResult(states, actions, j, k - 1);
    }
    EndingStaysOnItsWay(states[k - 1], actions[k - 1], actions[j]);
    OnlyTheVerdict(states[k], actions[j]);
  }

  lemma {:induction false} OnlyTheVerdict(s: State, ending: Action)
    requires ending.Finish? || ending.Fail?
    ensures CameToAnEnd(s) && OnItsWay(s, ending) ==> s.loop.result == Verdict(ending, s.read)
  {
  }

  function ShortSteps(text: string): seq<Action> {
    [Receive(text), PutDelta, Take, Commit, Finish(Some("stop")), PutLast, Take, Conclude]
  }

  function ShortStates(text: string): seq<State> {
    var (last, sent) := (End(Some("stop")), INITIAL.(read := [text]));
    var done := sent.(committed := [text]);
    [INITIAL, sent.(reader := Putting(text)), sent.(queue := [Delta(text)]), sent.(buffer := text, loop := Flushing(None)), done,
     done.(reader := Closing(last)), done.(reader := Done, queue := [last]), done.(reader := Done, loop := Ending(last)),
     done.(reader := Done, loop := Over(Answered))]
  }

  /** One delta and a proper finish: the delta is committed as soon as it is taken, and the stream is an answer. */
  lemma {:induction false} ShortAnswerGetsThrough(text: string)
    requires text != ""
    ensures IsRun(ShortStates(text), ShortSteps(text))
    ensures ShortStates(text)[8].loop == Over(Answered) && ShortStates(text)[8].committed == [text]
  {
    hide Allowed, After;
    var (s, a) := (ShortStates(text), ShortSteps(text));
    ShortStart(text);
    ShortMiddle(text);
    ShortEnd(text);
    forall k | 0 <= k < 8 ensures Allowed(s[k], a[k]) && s[k + 1] == After(s[k], a[k]) {
      assert k == 0 || k == 1 || k == 2 || k == 3 || k == 4 || k == 5 || k == 6 || k == 7;
    }
  }

  predicate Leads(s: State, a: Action, n: State) {
    Allowed(s, a) && n == After(s, a)
  }

  lemma {:induction false} ShortStart(text: string)
    requires text != ""
    ensures var (s, a) := (ShortStates(text), ShortSteps(text)); Leads(s[0], a[0], s[1]) && Leads(s[1], a[1], s[2])
  {
  }

  lemma {:induction false} ShortMiddle(text: string)
    requires text != ""
    ensures var (s, a) := (ShortStates(text), ShortSteps(text)); Leads(s[2], a[2], s[3]) && Leads(s[3], a[3], s[4])
  {
    assert [Delta(text)][1..] == [] && "" + text == text;
  }

  lemma {:induction false} ShortEnd(text: string)
    ensures var (s, a) := (ShortStates(text), ShortSteps(text));
      Leads(s[4], a[4], s[5]) && Leads(s[5], a[5], s[6]) && Leads(s[6], a[6], s[7]) && Leads(s[7], a[7], s[8])
  {
    assert [End(Some("stop"))][1..] == [];
  }
}
