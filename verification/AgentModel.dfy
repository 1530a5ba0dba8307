/**
 The messages of internal/manageragent/model.go, the check every model reply passes before
 the engine sees it, and the translation of a history into Responses input items.
 */
module AgentModel {
  import opened Wrappers
  import opened Text

  const MAX_MODEL_MESSAGE_BYTES := 64 * 1024
  const MAX_RESPONSES_STATE_BYTES := 256 * 1024
  const MAX_MODEL_TOOL_CALLS := 16
  const MAX_ARGUMENT_BYTES := 16 * 1024

  datatype Role = System | User | Assistant | Tool | Unknown(name: string)

  datatype ToolCall = ToolCall(id: string, kind: string, name: string, arguments: string)

  datatype Message = Message(
    role: Role, content: string, toolCallId: string,
    toolCalls: seq<ToolCall>, responseItems: seq<string>)

  function UserMessage(content: string): Message {
    Message(User, content, "", [], [])
  }

  function ToolMessage(id: string, content: string): Message {
    Message(Tool, content, id, [], [])
  }

  datatype ModelError = InvalidRole | TooLarge | InvalidToolCall | DuplicateToolCall

  predicate WellFormedCall(call: ToolCall) {
    && call.id != ""
    && call.kind == "function"
    && call.name != ""
    && Utf8Length(call.arguments) <= MAX_ARGUMENT_BYTES
  }

  predicate DistinctIds(calls: seq<ToolCall>) {
    forall i, j :: 0 <= i < j < |calls| ==> calls[i].id != calls[j].id
  }

  function StateBytes(items: seq<string>): nat {
    if items == [] then 0
    else StateBytes(items[..|items| - 1]) + Utf8Length(items[|items| - 1])
  }

  /** What a reply must satisfy to enter a session's history. */
  predicate Acceptable(m: Message) {
    && m.role == Assistant
    && Utf8Length(m.content) <= MAX_MODEL_MESSAGE_BYTES
    && |m.toolCalls| <= MAX_MODEL_TOOL_CALLS
    && StateBytes(m.responseItems) <= MAX_RESPONSES_STATE_BYTES
    && (forall i :: 0 <= i < |m.toolCalls| ==> WellFormedCall(m.toolCalls[i]))
    && DistinctIds(m.toolCalls)
  }

  /** The reply itself, unchanged, exactly when it is acceptable; else the first failing check's error. */
  method ValidateModelMessage(message: Message) returns (r: Result<Message, ModelError>)
    ensures r.Ok? <==> Acceptable(message)
    ensures r.Ok? ==> r.value == message
    ensures r == Err(InvalidRole) <==> message.role != Assistant
    ensures r == Err(TooLarge) <==>
      && message.role == Assistant
      && (|| Utf8Length(message.content) > MAX_MODEL_MESSAGE_BYTES
          || |message.toolCalls| > MAX_MODEL_TOOL_CALLS
          || StateBytes(message.responseItems) > MAX_RESPONSES_STATE_BYTES)
  {
    if message.role != Assistant {
      return Err(InvalidRole);
    }
    var items := message.responseItems;
    var stateBytes := 0;
    for i := 0 to |items|
      invariant stateBytes == StateBytes(items[..i])
    {
      assert items[..i + 1][..i] == items[..i];
      stateBytes := stateBytes + Utf8Length(items[i]);
    }
    assert items[..|items|] == items;
    if || Utf8Length(message.content) > MAX_MODEL_MESSAGE_BYTES
       || |message.toolCalls| > MAX_MODEL_TOOL_CALLS
       || stateBytes > MAX_RESPONSES_STATE_BYTES
    {
      return Err(TooLarge);
    }
    var failure := CheckCalls(message.toolCalls);
    r := if failure.Some? then Err(failure.value) else Ok(message);
  }

  /** The loop over a reply's calls: stops at the first call that is malformed or reuses an earlier ID. */
  method CheckCalls(calls: seq<ToolCall>) returns (failure: Option<ModelError>)
    ensures failure.None? <==> (forall i :: 0 <= i < |calls| ==> WellFormedCall(calls[i])) && DistinctIds(calls)
    ensures failure.Some? ==> failure.value in {InvalidToolCall, DuplicateToolCall}
  {
    var callIds: set<string> := {};
    for i := 0 to |calls|
      invariant forall k :: 0 <= k < i ==> WellFormedCall(calls[k])
      invariant forall k :: 0 <= k < i ==> calls[k].id in callIds
      invariant forall id :: id in callIds ==> exists k :: 0 <= k < i && calls[k].id == id
      invariant DistinctIds(calls[..i])
    {
      var call := calls[i];
      if !WellFormedCall(call) {
        return Some(InvalidToolCall);
      }
      if call.id in callIds {
        return Some(DuplicateToolCall);
      }
      callIds := callIds + {call.id};
    }
    return None;
  }

  // ---- Responses input -------------------------------------------------------------------

  datatype InputItem =
    | Said(role: Role, content: string)
    | FunctionCall(callId: string, name: string, arguments: string)
    | FunctionCallOutput(callId: string, output: string)
    | Raw(item: string)

  function RawItems(items: seq<string>): seq<InputItem> {
    if items == [] then [] else RawItems(items[..|items| - 1]) + [Raw(items[|items| - 1])]
  }

  function CallItem(call: ToolCall): InputItem {
    FunctionCall(call.id, call.name, call.arguments)
  }

  function CallItems(calls: seq<ToolCall>): seq<InputItem> {
    if calls == [] then [] else CallItems(calls[..|calls| - 1]) + [CallItem(calls[|calls| - 1])]
  }

  function MessageItems(m: Message): seq<InputItem> {
    match m.role
    case System => [Said(System, m.content)]
    case User => [Said(User, m.content)]
    case Assistant =>
      if |m.responseItems| > 0 then RawItems(m.responseItems)
      else (if m.content != "" then [Said(Assistant, m.content)] else []) + CallItems(m.toolCalls)
    case Tool => [FunctionCallOutput(m.toolCallId, m.content)]
    case Unknown(_) => []
  }

  function HistoryItems(messages: seq<Message>): seq<InputItem> {
    if messages == [] then []
    else HistoryItems(messages[..|messages| - 1]) + MessageItems(messages[|messages| - 1])
  }

  method ResponsesInput(messages: seq<Message>) returns (input: seq<InputItem>)
    ensures input == HistoryItems(messages)
  {
    input := [];
    for i := 0 to |messages|
      invariant input == HistoryItems(messages[..i])
    {
      assert messages[..i + 1][..i] == messages[..i];
      var items := ItemsOf(messages[i]);
      input := input + items;
    }
    assert messages[..|messages|] == messages;
  }

  method ItemsOf(message: Message) returns (items: seq<InputItem>)
    ensures items == MessageItems(message)
  {
    match message.role {
      case System => items := [Said(System, message.content)];
      case User => items := [Said(User, message.content)];
      case Assistant =>
        if |message.responseItems| > 0 {
          items := CopyRaw(message.responseItems);
        } else {
          var calls := CopyCalls(message.toolCalls);
          items := (if message.content != "" then [Said(Assistant, message.content)] else []) + calls;
        }
      case Tool => items := [FunctionCallOutput(message.toolCallId, message.content)];
      case Unknown(_) => items := [];
    }
  }

  method CopyRaw(raw: seq<string>) returns (items: seq<InputItem>)
    ensures items == RawItems(raw)
  {
    items := [];
    for k := 0 to |raw|
      invariant items == RawItems(raw[..k])
    {
      assert raw[..k + 1][..k] == raw[..k];
      items := items + [Raw(raw[k])];
    }
    assert raw[..|raw|] == raw;
  }

  method CopyCalls(calls: seq<ToolCall>) returns (items: seq<InputItem>)
    ensures items == CallItems(calls)
  {
    items := [];
    for k := 0 to |calls|
      invariant items == CallItems(calls[..k])
    {
      assert calls[..k + 1][..k] == calls[..k];
      items := items + [CallItem(calls[k])];
    }
    assert calls[..|calls|] == calls;
  }
}
