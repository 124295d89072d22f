/** The windowed tool history of a gift conversation: whole user turns, the last few of them. */
module ToolHistory {
  datatype Message =
    | User(text: string)
    | ToolCall(id: string, name: string, arguments: string)
    | ToolResult(callId: string, content: string)
    | Assistant(content: string)

  const LIMIT: nat := 4

  /** Add one message: a user message opens a group, any other joins the open one, if there is one. */
  function Grouped(groups: seq<seq<Message>>, message: Message): seq<seq<Message>> {
    var ready := if message.User? then groups + [[]] else groups;
    if ready == [] then [] else ready[|ready| - 1 := ready[|ready| - 1] + [message]]
  }

  function Groups(messages: seq<Message>): (groups: seq<seq<Message>>) {
    if messages == [] then [] else Grouped(Groups(messages[..|messages| - 1]), messages[|messages| - 1])
  }

  function Flat(groups: seq<seq<Message>>): seq<Message> {
    if groups == [] then [] else groups[0] + Flat(groups[1..])
  }

  /** A limit of zero cuts nothing. */
  function LastOf<T>(items: seq<T>, limit: nat): seq<T> {
    if limit == 0 || |items| <= limit then items else items[|items| - limit..]
  }

  function Window(messages: seq<Message>, limit: nat): seq<Message> {
    Flat(LastOf(Groups(messages), limit))
  }

  method BoundedHistory(messages: seq<Message>, limit: nat) returns (kept: seq<Message>)
    ensures kept == Window(messages, limit)
  {
    hide Flat, LastOf;
    var groups: seq<seq<Message>> := [];
    for i := 0 to |messages|
      invariant groups == Groups(messages[..i])
    {
      assert messages[..i + 1][..i] == messages[..i];
      if messages[i].User? {
        groups := groups + [[]];
      }
      if groups != [] {
        groups := groups[|groups| - 1 := groups[|groups| - 1] + [messages[i]]];
      }
    }
    assert messages[..|messages|] == messages;
    kept := JoinedFrom(groups, if limit == 0 || |groups| <= limit then 0 else |groups| - limit);
    LastFrom(groups, limit);
  }

  method JoinedFrom(groups: seq<seq<Message>>, from: nat) returns (kept: seq<Message>)
    requires from <= |groups|
    ensures kept == Flat(groups[from..])
  {
    hide Flat;
    kept := [];
    NothingFlat();
    assert groups[from..from] == [];
    for k := from to |groups|
      invariant kept == Flat(groups[from..k])
    {
      FlatAppends(groups[from..k], groups[k]);
      assert groups[from..k + 1] == groups[from..k] + [groups[k]];
      kept := kept + groups[k];
    }
    assert groups[from..|groups|] == groups[from..];
  }

  lemma {:induction false} NothingFlat()
    ensures Flat([]) == []
  {
  }

  lemma {:induction false} LastFrom<T>(items: seq<T>, limit: nat)
    ensures LastOf(items, limit) == items[if limit == 0 || |items| <= limit then 0 else |items| - limit..]
  {
  }

  lemma {:induction false} FlatAppends(groups: seq<seq<Message>>, group: seq<Message>)
    ensures Flat(groups + [group]) == Flat(groups) + group
  {
    if groups == [] {
      assert [] + [group] == [group];
      assert Flat([group]) == group + Flat([]);
    } else {
      assert (groups + [group])[1..] == groups[1..] + [group];
      FlatAppends(groups[1..], group);
    }
  }

  // ----- Windowing once is enough ------------------------------------------------------------

  /** Groups start with their only user message. */
  predicate WellGrouped(groups: seq<seq<Message>>) {
    forall k :: 0 <= k < |groups| ==>
      groups[k] != [] && groups[k][0].User? && forall j :: 0 < j < |groups[k]| ==> !groups[k][j].User?
  }

  lemma {:induction false} GroupsAreWell(messages: seq<Message>)
    ensures WellGrouped(Groups(messages))
  {
    if messages != [] {
      GroupsAreWell(messages[..|messages| - 1]);
    }
  }

  /** Continue grouping from what is already grouped. */
  function Continued(groups: seq<seq<Message>>, messages: seq<Message>): seq<seq<Message>> {
    if messages == [] then groups else Grouped(Continued(groups, messages[..|messages| - 1]), messages[|messages| - 1])
  }

  lemma {:induction false} GroupsContinue(a: seq<Message>, b: seq<Message>)
    ensures Groups(a + b) == Continued(Groups(a), b)
  {
    if b == [] {
      assert a + b == a;
    } else {
      assert (a + b)[..|a + b| - 1] == a + b[..|b| - 1];
      GroupsContinue(a, b[..|b| - 1]);
    }
  }

  lemma {:induction false} ContinuedSplits(groups: seq<seq<Message>>, a: seq<Message>, b: seq<Message>)
    ensures Continued(groups, a + b) == Continued(Continued(groups, a), b)
  {
    if b == [] {
      assert a + b == a;
    } else {
      assert (a + b)[..|a + b| - 1] == a + b[..|b| - 1];
      ContinuedSplits(groups, a, b[..|b| - 1]);
    }
  }

  lemma {:induction false} GroupedCases(groups: seq<seq<Message>>, message: Message)
    ensures message.User? ==> Grouped(groups, message) == groups + [[message]]
    ensures !message.User? && groups != [] ==>
              Grouped(groups, message) == groups[..|groups| - 1] + [groups[|groups| - 1] + [message]]
  {
    if message.User? {
      var empty: seq<Message> := [];
      assert empty + [message] == [message];
      assert (groups + [empty])[|groups| := [message]] == groups + [[message]];
    }
  }

  /** A whole group put after others stays a group of its own. */
  lemma {:induction false} GroupContinues(groups: seq<seq<Message>>, group: seq<Message>, n: nat)
    requires 0 < n <= |group| && group[0].User? && forall j :: 0 < j < |group| ==> !group[j].User?
    ensures Continued(groups, group[..n]) == groups + [group[..n]]
  {
    hide Grouped;
    var front := group[..n - 1];
    assert group[..n][..n - 1] == front && group[..n] == front + [group[n - 1]];
    if n == 1 {
      assert front == [];
      GroupedCases(groups, group[0]);
    } else {
      GroupContinues(groups, group, n - 1);
      var before := groups + [front];
      GroupedCases(before, group[n - 1]);
      assert before[..|before| - 1] == groups && before[|before| - 1] == front;
    }
  }

  /** Grouping the flattened groups gives the groups back. */
  lemma {:induction false} FlatGroupsBack(done: seq<seq<Message>>, groups: seq<seq<Message>>)
    requires WellGrouped(groups)
    ensures Continued(done, Flat(groups)) == done + groups
    decreases |groups|
  {
    if groups == [] {
      assert done + groups == done;
    } else {
      GroupContinues(done, groups[0], |groups[0]|);
      assert groups[0][..|groups[0]|] == groups[0];
      ContinuedSplits(done, groups[0], Flat(groups[1..]));
      FlatGroupsBack(done + [groups[0]], groups[1..]);
      assert done + [groups[0]] + groups[1..] == done + groups;
    }
  }

  lemma {:induction false} LastOfAppended<T>(items: seq<T>, last: T, limit: nat)
    requires 0 < limit <= |items|
    ensures LastOf(items + [last], limit) == items[|items| - limit + 1..] + [last]
    ensures LastOf(items[|items| - limit..] + [last], limit) == items[|items| - limit + 1..] + [last]
  {
  }

  lemma {:induction false} LastOfReplaced<T>(items: seq<T>, last: T, limit: nat)
    requires 0 < limit < |items|
    ensures var kept := items[|items| - limit..];
      && LastOf(items[..|items| - 1] + [last], limit) == kept[..limit - 1] + [last]
      && LastOf(kept[..limit - 1] + [last], limit) == kept[..limit - 1] + [last]
      && kept[limit - 1] == items[|items| - 1]
  {
    var cut := |items| - limit;
    assert (items[..|items| - 1] + [last])[cut..] == items[cut..][..limit - 1] + [last];
  }

  /** Grouping touches only the last group, so the last few groups depend on the last few only. */
  lemma {:induction false} LastGroupsSuffice(groups: seq<seq<Message>>, message: Message, limit: nat)
    requires limit > 0
    ensures LastOf(Grouped(groups, message), limit) == LastOf(Grouped(LastOf(groups, limit), message), limit)
  {
    hide Grouped;
    if |groups| > limit {
      var kept := groups[|groups| - limit..];
      GroupedCases(groups, message);
      GroupedCases(kept, message);
      if message.User? {
        LastOfAppended(groups, [message], limit);
      } else {
        LastOfReplaced(groups, groups[|groups| - 1] + [message], limit);
      }
    }
  }

  lemma {:induction false} LastGroupsContinue(groups: seq<seq<Message>>, messages: seq<Message>, limit: nat)
    requires limit > 0
    ensures LastOf(Continued(groups, messages), limit) == LastOf(Continued(LastOf(groups, limit), messages), limit)
  {
    if messages == [] {
      assert LastOf(LastOf(groups, limit), limit) == LastOf(groups, limit);
    } else {
      var front, last := messages[..|messages| - 1], messages[|messages| - 1];
      LastGroupsContinue(groups, front, limit);
      LastGroupsSuffice(Continued(groups, front), last, limit);
      LastGroupsSuffice(Continued(LastOf(groups, limit), front), last, limit);
    }
  }

  /** Cutting early loses nothing that a later cut would keep. */
  lemma {:induction false} WindowOfWindow(a: seq<Message>, b: seq<Message>, limit: nat)
    requires limit > 0
    ensures Window(Window(a, limit) + b, limit) == Window(a + b, limit)
  {
    GroupsAreWell(a);
    var kept := LastOf(Groups(a), limit);
    assert WellGrouped(kept);
    FlatGroupsBack([], kept);
    assert [] + kept == kept;
    GroupsContinue([], Flat(kept));
    assert [] + Flat(kept) == Flat(kept);
    GroupsContinue(Flat(kept), b);
    GroupsContinue(a, b);
    LastGroupsContinue(Groups(a), b, limit);
  }

  function Joined(turns: seq<seq<Message>>): seq<Message> {
    if turns == [] then [] else Joined(turns[..|turns| - 1]) + turns[|turns| - 1]
  }

  /** The history after committing turns one by one. */
  function Committed(history: seq<Message>, turns: seq<seq<Message>>): seq<Message> {
    if turns == [] then history else Window(Committed(history, turns[..|turns| - 1]) + turns[|turns| - 1], LIMIT)
  }

  /** After any number of committed turns the kept history is the whole uncut history, windowed once. */
  lemma {:induction false} CommittedIsOneWindow(history: seq<Message>, turns: seq<seq<Message>>)
    requires turns != []
    ensures Committed(history, turns) == Window(history + Joined(turns), LIMIT)
  {
    hide Window;
    var front, last := turns[..|turns| - 1], turns[|turns| - 1];
    if front == [] {
      assert Joined(turns) == Joined(front) + last == last;
    } else {
      CommittedIsOneWindow(history, front);
      WindowOfWindow(history + Joined(front), last, LIMIT);
      assert history + Joined(front) + last == history + Joined(turns);
    }
  }

  // ----- Tool results follow their calls -----------------------------------------------------

  /** Every tool result stands right behind the call bearing its id. */
  predicate Paired(messages: seq<Message>) {
    forall k :: 0 <= k < |messages| && messages[k].ToolResult? ==>
      k > 0 && messages[k - 1].ToolCall? && messages[k - 1].id == messages[k].callId
  }

  datatype Executed = Executed(id: string, name: string, arguments: string, result: string)

  function CallMessages(executed: seq<Executed>): seq<Message> {
    if executed == [] then []
    else
      var last := executed[|executed| - 1];
      CallMessages(executed[..|executed| - 1]) + [ToolCall(last.id, last.name, last.arguments), ToolResult(last.id, last.result)]
  }

  /** The messages of one committed turn. */
  function TurnMessages(message: string, executed: seq<Executed>, text: string): seq<Message> {
    [User(message)] + CallMessages(executed) + [Assistant(text)]
  }

  lemma {:induction false} CallsArePaired(executed: seq<Executed>)
    ensures Paired(CallMessages(executed)) && forall k :: 0 <= k < |CallMessages(executed)| ==> !CallMessages(executed)[k].User?
  {
    if executed != [] {
      CallsArePaired(executed[..|executed| - 1]);
    }
  }

  lemma {:induction false} PairedJoin(a: seq<Message>, b: seq<Message>)
    requires Paired(a) && Paired(b)
    ensures Paired(a + b)
  {
    forall k | 0 <= k < |a + b| && (a + b)[k].ToolResult?
      ensures k > 0 && (a + b)[k - 1].ToolCall? && (a + b)[k - 1].id == (a + b)[k].callId
    {
      if k >= |a| {
        assert b[k - |a|].ToolResult?;
      } else {
        assert a[k].ToolResult?;
      }
    }
  }

  lemma {:induction false} TurnIsPaired(message: string, executed: seq<Executed>, text: string)
    ensures Paired(TurnMessages(message, executed, text))
  {
    CallsArePaired(executed);
    PairedJoin([User(message)], CallMessages(executed));
    PairedJoin([User(message)] + CallMessages(executed), [Assistant(text)]);
  }

  predicate AllPaired(groups: seq<seq<Message>>) {
    forall k :: 0 <= k < |groups| ==> Paired(groups[k])
  }

  predicate EndsWith(groups: seq<seq<Message>>, message: Message) {
    && groups != [] && groups[|groups| - 1] != []
    && var last := groups[|groups| - 1]; last[|last| - 1] == message
  }

  /** A paired history that starts with a user message falls into paired groups. */
  lemma {:induction false} GroupsArePaired(messages: seq<Message>)
    requires Paired(messages) && (messages != [] ==> messages[0].User?)
    ensures AllPaired(Groups(messages))
    ensures messages != [] ==> EndsWith(Groups(messages), messages[|messages| - 1])
  {
    if messages != [] {
      var front, m := messages[..|messages| - 1], messages[|messages| - 1];
      assert Paired(front) by {
        assert forall k :: 0 <= k < |front| ==> front[k] == messages[k];
      }
      GroupsArePaired(front);
      if !m.User? {
        var latest := Groups(front)[|Groups(front)| - 1];
        assert m.ToolResult? ==> front[|front| - 1].ToolCall? && front[|front| - 1].id == m.callId;
        assert Paired(latest + [m]);
      }
    }
  }

  lemma {:induction false} FlatIsPaired(groups: seq<seq<Message>>)
    requires AllPaired(groups)
    ensures Paired(Flat(groups))
  {
    if groups != [] {
      assert AllPaired(groups[1..]);
      FlatIsPaired(groups[1..]);
      PairedJoin(groups[0], Flat(groups[1..]));
    }
  }

  /** Whatever the window cuts, each group it keeps holds every tool result right behind its own call. */
  lemma {:induction false} WindowKeepsCallsAndResultsTogether(messages: seq<Message>, limit: nat)
    requires Paired(messages) && (messages != [] ==> messages[0].User?)
    ensures Paired(Window(messages, limit)) && AllPaired(LastOf(Groups(messages), limit))
  {
    GroupsArePaired(messages);
    FlatIsPaired(LastOf(Groups(messages), limit));
  }

  lemma {:induction false} TurnsArePaired(turns: seq<seq<Message>>)
    requires forall k :: 0 <= k < |turns| ==> IsTurn(turns[k])
    ensures Paired(Joined(turns)) && (turns != [] ==> Joined(turns) != [] && Joined(turns)[0].User?)
  {
    if turns != [] {
      var front, last := turns[..|turns| - 1], turns[|turns| - 1];
      TurnsArePaired(front);
      assert IsTurn(last);
      var message, executed, text :| last == TurnMessages(message, executed, text);
      TurnIsPaired(message, executed, text);
      PairedJoin(Joined(front), last);
    }
  }

  ghost predicate IsTurn(messages: seq<Message>) {
    exists message, executed, text :: messages == TurnMessages(message, executed, text)
  }

  /** A conversation of committed turns never separates a kept result from its call. */
  lemma {:induction false} CommittedHistoryIsPaired(turns: seq<seq<Message>>)
    requires turns != [] && forall k :: 0 <= k < |turns| ==> IsTurn(turns[k])
    ensures Paired(Committed([], turns)) && AllPaired(LastOf(Groups(Joined(turns)), LIMIT))
    ensures Committed([], turns) == Flat(LastOf(Groups(Joined(turns)), LIMIT))
  {
    CommittedIsOneWindow([], turns);
    assert [] + Joined(turns) == Joined(turns);
    TurnsArePaired(turns);
    WindowKeepsCallsAndResultsTogether(Joined(turns), LIMIT);
  }

  // ----- What is kept ------------------------------------------------------------------------

  lemma {:induction false} FlatIsJoined(turns: seq<seq<Message>>)
    ensures Flat(turns) == Joined(turns)
  {
    if turns != [] {
      var front, last := turns[..|turns| - 1], turns[|turns| - 1];
      FlatIsJoined(front);
      FlatAppends(front, last);
      assert front + [last] == turns;
    }
  }

  lemma {:induction false} TurnsAreWellGrouped(turns: seq<seq<Message>>)
    requires forall k :: 0 <= k < |turns| ==> IsTurn(turns[k])
    ensures WellGrouped(turns)
  {
    forall k | 0 <= k < |turns|
      ensures turns[k] != [] && turns[k][0].User? && forall j :: 0 < j < |turns[k]| ==> !turns[k][j].User?
    {
      var message, executed, text :| turns[k] == TurnMessages(message, executed, text);
      CallsArePaired(executed);
    }
  }

  lemma {:induction false} NothingGrouped()
    ensures Groups([]) == []
  {
  }

  /** After any number of committed turns exactly the last four are kept, whole and in order. */
  lemma {:induction false} CommittedKeepsTheLastTurns(turns: seq<seq<Message>>)
    requires turns != [] && forall k :: 0 <= k < |turns| ==> IsTurn(turns[k])
    ensures Committed([], turns) == Joined(if |turns| <= 4 then turns else turns[|turns| - 4..])
  {
    hide Committed, Window, Groups, Continued, Flat, Joined, AllPaired, Paired, IsTurn, WellGrouped;
    CommittedHistoryIsPaired(turns);
    TurnsAreWellGrouped(turns);
    FlatIsJoined(turns);
    FlatGroupsBack([], turns);
    NothingGrouped();
    GroupsContinue([], Flat(turns));
    assert [] + Flat(turns) == Flat(turns) && [] + turns == turns;
    assert Groups(Joined(turns)) == turns;
    FlatIsJoined(LastOf(turns, LIMIT));
  }
}
