/** The Responses form of a history pairs calls and outputs exactly as the history does. */
module AgentResponses {
  import opened Wrappers
  import opened AgentModel
  import opened AgentHistory

  function AdvanceItem(waiting: seq<string>, item: InputItem): Option<seq<string>> {
    match item
    case Said(_, _) => if waiting == [] then Some([]) else None
    case FunctionCall(id, _, _) => Some(waiting + [id])
    case FunctionCallOutput(id, _) => if waiting != [] && waiting[0] == id then Some(waiting[1..]) else None
    case Raw(_) => None
  }

  /** The call IDs without an output after `items`, or None where an output has no call or a text cuts in. */
  function ScanItems(waiting: seq<string>, items: seq<InputItem>): Option<seq<string>> {
    if items == [] then Some(waiting)
    else
      match ScanItems(waiting, items[..|items| - 1])
      case None => None
      case Some(left) => AdvanceItem(left, items[|items| - 1])
  }

  function Ids(calls: seq<ToolCall>): (ids: seq<string>)
    ensures |ids| == |calls|
    ensures forall i :: 0 <= i < |ids| ==> ids[i] == calls[i].id
  {
    if calls == [] then [] else Ids(calls[..|calls| - 1]) + [calls[|calls| - 1].id]
  }

  lemma {:induction false} ScanItemsAppend(waiting: seq<string>, a: seq<InputItem>, b: seq<InputItem>)
    ensures ScanItems(waiting, a + b) ==
            match ScanItems(waiting, a)
            case None => None
            case Some(left) => ScanItems(left, b)
  {
    if b == [] {
      assert a + b == a;
    } else {
      assert (a + b)[..|a + b| - 1] == a + b[..|b| - 1];
      ScanItemsAppend(waiting, a, b[..|b| - 1]);
    }
  }

  lemma {:induction false} CallItemsOpen(calls: seq<ToolCall>)
    ensures ScanItems([], CallItems(calls)) == Some(Ids(calls))
  {
    if calls != [] {
      var front, last := calls[..|calls| - 1], calls[|calls| - 1];
      CallItemsOpen(front);
      ScanItemsAppend([], CallItems(front), [CallItem(last)]);
      ScanOneItem(Ids(front), CallItem(last));
    }
  }

  lemma ScanOneItem(waiting: seq<string>, item: InputItem)
    ensures ScanItems(waiting, [item]) == AdvanceItem(waiting, item)
  {
    assert [item][..0] == [];
  }

  lemma MessageItemsAdvance(unanswered: seq<ToolCall>, m: Message)
    requires m.responseItems == [] && Advance(unanswered, m).Some?
    ensures ScanItems(Ids(unanswered), MessageItems(m)) == Some(Ids(Advance(unanswered, m).value))
  {
    match m.role {
      case Tool =>
        ScanOneItem(Ids(unanswered), FunctionCallOutput(m.toolCallId, m.content));
        assert Ids(unanswered)[1..] == Ids(unanswered[1..]);
      case Assistant =>
        CallItemsOpen(m.toolCalls);
        if m.content != "" {
          ScanOneItem([], Said(Assistant, m.content));
          ScanItemsAppend([], [Said(Assistant, m.content)], CallItems(m.toolCalls));
        } else {
          assert MessageItems(m) == CallItems(m.toolCalls);
        }
      case System => ScanOneItem([], Said(System, m.content));
      case User => ScanOneItem([], Said(User, m.content));
      case Unknown(_) =>
    }
  }

  /** For messages without stored raw items: every output in the input follows its own call, and
      the calls without an output are those the history leaves unanswered, in order. */
  lemma {:induction false} InputPairs(messages: seq<Message>)
    requires Scan(messages).Some?
    requires forall i :: 0 <= i < |messages| ==> messages[i].responseItems == []
    ensures ScanItems([], HistoryItems(messages)) == Some(Ids(Scan(messages).value))
  {
    if messages != [] {
      var front, m := messages[..|messages| - 1], messages[|messages| - 1];
      InputPairs(front);
      MessageItemsAdvance(Scan(front).value, m);
      ScanItemsAppend([], HistoryItems(front), MessageItems(m));
    }
  }

  // ---- Nothing is lost -------------------------------------------------------------------

  function Only(items: seq<InputItem>, kind: InputItem -> bool): seq<InputItem> {
    if items == [] then []
    else Only(items[..|items| - 1], kind) + (if kind(items[|items| - 1]) then [items[|items| - 1]] else [])
  }

  lemma {:induction false} OnlyAppend(a: seq<InputItem>, b: seq<InputItem>, kind: InputItem -> bool)
    ensures Only(a + b, kind) == Only(a, kind) + Only(b, kind)
  {
    if b == [] {
      assert a + b == a;
    } else {
      assert (a + b)[..|a + b| - 1] == a + b[..|b| - 1];
      OnlyAppend(a, b[..|b| - 1], kind);
    }
  }

  predicate IsText(item: InputItem) {
    item.Said?
  }

  predicate IsCall(item: InputItem) {
    item.FunctionCall?
  }

  predicate IsOutput(item: InputItem) {
    item.FunctionCallOutput?
  }

  /** What was said, by whom. */
  function TextsIn(messages: seq<Message>): seq<InputItem> {
    if messages == [] then []
    else
      var m := messages[|messages| - 1];
      TextsIn(messages[..|messages| - 1])
      + (if m.role == User || m.role == System || (m.role == Assistant && m.content != "") then [Said(m.role, m.content)]
         else [])
  }

  /** What was called, with its arguments. */
  function CallsIn(messages: seq<Message>): seq<ToolCall> {
    if messages == [] then []
    else
      var m := messages[|messages| - 1];
      CallsIn(messages[..|messages| - 1]) + (if m.role == Assistant then m.toolCalls else [])
  }

  /** What the tools gave. */
  function OutputsIn(messages: seq<Message>): seq<InputItem> {
    if messages == [] then []
    else
      var m := messages[|messages| - 1];
      OutputsIn(messages[..|messages| - 1])
      + (if m.role == Tool then [FunctionCallOutput(m.toolCallId, m.content)] else [])
  }

  /** The items name just these calls. */
  predicate NamesCalls(items: seq<InputItem>, calls: seq<ToolCall>) {
    |items| == |calls|
    && forall i :: 0 <= i < |calls| ==> items[i] == FunctionCall(calls[i].id, calls[i].name, calls[i].arguments)
  }

  lemma {:induction false} CallItemsAreCalls(calls: seq<ToolCall>)
    ensures Only(CallItems(calls), IsText) == [] && Only(CallItems(calls), IsOutput) == []
    ensures NamesCalls(Only(CallItems(calls), IsCall), calls)
  {
    if calls != [] {
      CallItemsAreCalls(calls[..|calls| - 1]);
      assert CallItems(calls)[..|CallItems(calls)| - 1] == CallItems(calls[..|calls| - 1]);
    }
  }

  lemma OneItem(item: InputItem, kind: InputItem -> bool)
    ensures Only([item], kind) == if kind(item) then [item] else []
  {
    assert [item][..0] == [];
  }

  lemma AssistantKept(m: Message)
    requires m.responseItems == [] && m.role == Assistant
    ensures Only(MessageItems(m), IsText) == if m.content != "" then [Said(Assistant, m.content)] else []
    ensures NamesCalls(Only(MessageItems(m), IsCall), m.toolCalls)
    ensures Only(MessageItems(m), IsOutput) == []
  {
    CallItemsAreCalls(m.toolCalls);
    SaidThenCalls(m, IsText);
    SaidThenCalls(m, IsCall);
    SaidThenCalls(m, IsOutput);
  }

  lemma SaidThenCalls(m: Message, kind: InputItem -> bool)
    requires m.responseItems == [] && m.role == Assistant
    ensures var said := Said(Assistant, m.content);
      Only(MessageItems(m), kind) ==
        (if m.content != "" && kind(said) then [said] else []) + Only(CallItems(m.toolCalls), kind)
  {
    if m.content != "" {
      OneItem(Said(Assistant, m.content), kind);
      OnlyAppend([Said(Assistant, m.content)], CallItems(m.toolCalls), kind);
    } else {
      assert MessageItems(m) == CallItems(m.toolCalls);
    }
  }

  lemma MessageKept(m: Message)
    requires m.responseItems == []
    ensures Only(MessageItems(m), IsText) ==
      if m.role == User || m.role == System || (m.role == Assistant && m.content != "") then [Said(m.role, m.content)] else []
    ensures NamesCalls(Only(MessageItems(m), IsCall), if m.role == Assistant then m.toolCalls else [])
    ensures Only(MessageItems(m), IsOutput) ==
      if m.role == Tool then [FunctionCallOutput(m.toolCallId, m.content)] else []
  {
    if m.role == Assistant {
      AssistantKept(m);
    } else if MessageItems(m) != [] {
      OneItem(MessageItems(m)[0], IsText);
      OneItem(MessageItems(m)[0], IsCall);
      OneItem(MessageItems(m)[0], IsOutput);
    }
  }

  predicate NoRawItems(messages: seq<Message>) {
    forall i :: 0 <= i < |messages| ==> messages[i].responseItems == []
  }

  lemma {:induction false} TextsKept(messages: seq<Message>)
    requires NoRawItems(messages)
    ensures Only(HistoryItems(messages), IsText) == TextsIn(messages)
  {
    if messages != [] {
      var front, m := messages[..|messages| - 1], messages[|messages| - 1];
      TextsKept(front);
      MessageKept(m);
      OnlyAppend(HistoryItems(front), MessageItems(m), IsText);
    }
  }

  lemma NamesMore(a: seq<InputItem>, b: seq<InputItem>, c: seq<ToolCall>, d: seq<ToolCall>)
    requires NamesCalls(a, c) && NamesCalls(b, d)
    ensures NamesCalls(a + b, c + d)
  {
  }

  lemma {:induction false} CallsKept(messages: seq<Message>)
    requires NoRawItems(messages)
    ensures NamesCalls(Only(HistoryItems(messages), IsCall), CallsIn(messages))
  {
    if messages != [] {
      var front, m := messages[..|messages| - 1], messages[|messages| - 1];
      CallsKept(front);
      MessageKept(m);
      OnlyAppend(HistoryItems(front), MessageItems(m), IsCall);
      NamesMore(Only(HistoryItems(front), IsCall), Only(MessageItems(m), IsCall),
                CallsIn(front), if m.role == Assistant then m.toolCalls else []);
    }
  }

  lemma {:induction false} OutputsKept(messages: seq<Message>)
    requires NoRawItems(messages)
    ensures Only(HistoryItems(messages), IsOutput) == OutputsIn(messages)
  {
    if messages != [] {
      var front, m := messages[..|messages| - 1], messages[|messages| - 1];
      OutputsKept(front);
      MessageKept(m);
      OnlyAppend(HistoryItems(front), MessageItems(m), IsOutput);
    }
  }

  /** The input holds every text, every call with its name and arguments, and every output, in order and
      nothing else of these. */
  lemma InputKeepsEverything(messages: seq<Message>)
    requires NoRawItems(messages)
    ensures Only(HistoryItems(messages), IsText) == TextsIn(messages)
    ensures NamesCalls(Only(HistoryItems(messages), IsCall), CallsIn(messages))
    ensures Only(HistoryItems(messages), IsOutput) == OutputsIn(messages)
  {
    TextsKept(messages);
    CallsKept(messages);
    OutputsKept(messages);
  }
}
