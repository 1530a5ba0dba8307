/**
 What one operation on a Manager Agent session computes (internal/manageragent/engine.go).

 A session is a value here; the class in AgentSession.dfy updates the same fields in place and
 is proved to follow these functions. Everything the engine cannot choose is in Environment:
 the model's replies, the tools' outcomes, the random IDs and the clock are arbitrary
 functions of the number of events logged so far, so every run of answers is one environment.
 */
module AgentEngine {
  import opened Wrappers
  import opened Text
  import opened AgentModel
  import opened Runs

  const MAX_AGENT_ROUNDS := 12
  const MAX_USER_MESSAGE_BYTES := 8 * 1024
  const MAX_SESSION_MESSAGES := 80

  datatype ToolSpec = ToolSpec(requiresApproval: bool, approvalSummary: string)

  /** One attempt to read the credentials and complete a conversation. */
  datatype Completion = Cancelled | CredentialsFailed | CompletionFailed | Replied(message: Message)

  /** A tool's sanitized, truncated result and its sanitized error. */
  datatype ToolOutcome = ToolOutcome(result: string, error: Option<string>)

  datatype Environment = Environment(
    specs: map<string, ToolSpec>,
    isJsonObject: string -> bool,
    complete: nat -> Completion,
    execute: nat -> ToolOutcome,
    randomId: nat -> Option<string>,
    now: nat -> int)

  datatype Approval = Approval(id: string, tool: string, summary: string, args: string)

  datatype Pending = Pending(approval: Approval, call: ToolCall, remaining: seq<ToolCall>)

  /** What the session asked of the outside world, in order. */
  datatype Event =
    | Consulted
    | Executed(call: ToolCall, grant: Option<string>)
    | Suspended(approvalId: string, call: ToolCall)
    | Resolved(approvalId: string, approved: bool)
    | IdRefused

  datatype Session = Session(messages: seq<Message>, pending: Option<Pending>, updated: int, log: seq<Event>)

  const NEW_SESSION := Session([], None, 0, [])

  datatype Step = Step(tool: string, summary: string, success: bool)

  datatype Reply =
    | NoReply
    | ModelText(text: string)
    | BudgetSummary(checks: nat, failed: nat)
    | DeniedFallback
    | ExecutedFallback
    | FailedFallback

  datatype TurnResponse = TurnResponse(
    sessionId: string, reply: Reply, steps: seq<Step>, approval: Option<Approval>, done: bool)

  datatype TurnError =
    InvalidMessage | ApprovalPending | NoSuchApproval | ModelUnavailable | EmptyReply | IdUnavailable

  type TurnResult = Result<TurnResponse, TurnError>

  // ---- Tool calls ------------------------------------------------------------------------

  datatype Gate = UnknownTool | BadArguments | NeedsApproval(summary: string) | Free(summary: string)

  /** How a call is treated, before anything runs. */
  function GateOf(env: Environment, call: ToolCall): Gate {
    if call.name !in env.specs then UnknownTool
    else if !env.isJsonObject(call.arguments) then BadArguments
    else if env.specs[call.name].requiresApproval then NeedsApproval(env.specs[call.name].approvalSummary)
    else Free(env.specs[call.name].approvalSummary)
  }

  function ToolResultContent(outcome: ToolOutcome): string {
    match outcome.error
    case None => outcome.result
    case Some(error) =>
      var message := "工具执行失败：" + error;
      if TrimSpace(outcome.result) == "" then message else outcome.result + "\n" + message
  }

  function Answered(s: Session, call: ToolCall, content: string): Session {
    s.(messages := s.messages + [ToolMessage(call.id, content)])
  }

  function AfterExecution(env: Environment, s: Session, call: ToolCall, grant: Option<string>): Session {
    Answered(s.(log := s.log + [Executed(call, grant)]), call, ToolResultContent(env.execute(|s.log|)))
  }

  function ExecutionStep(env: Environment, s: Session, call: ToolCall, summary: string): Step {
    Step(call.name, summary, env.execute(|s.log|).error.None?)
  }

  const UNKNOWN_TOOL_CONTENT := "未知或未授权的工具。"
  const BAD_ARGUMENTS_CONTENT := "工具参数不是有效 JSON。"
  const DENIED_CONTENT := "用户拒绝了此操作。不要再次请求同一操作，除非用户明确改变决定。"

  /** What becomes of one call: an answer, a suspension with the calls behind it kept, or no random ID. */
  datatype CallOutcome =
    | Answers(session: Session, step: Step)
    | Suspends(session: Session, approval: Approval)
    | Refused(session: Session)

  function HandleCall(env: Environment, s: Session, call: ToolCall, behind: seq<ToolCall>): (r: CallOutcome)
    ensures s.log <= r.session.log
  {
    match GateOf(env, call)
    case UnknownTool => Answers(Answered(s, call, UNKNOWN_TOOL_CONTENT), Step(call.name, "拒绝未知工具", false))
    case BadArguments => Answers(Answered(s, call, BAD_ARGUMENTS_CONTENT), Step(call.name, "参数无效", false))
    case Free(summary) => Answers(AfterExecution(env, s, call, None), ExecutionStep(env, s, call, summary))
    case NeedsApproval(summary) =>
      match env.randomId(|s.log|)
      case None => Refused(s.(log := s.log + [IdRefused]))
      case Some(id) =>
        var approval := Approval(id, call.name, summary, call.arguments);
        Suspends(s.(pending := Some(Pending(approval, call, behind)), log := s.log + [Suspended(id, call)]), approval)
  }

  /** Where processing a batch of calls stops: at its end, at a call awaiting approval, or for want of an ID. */
  datatype Batch =
    | Finished(session: Session, steps: seq<Step>)
    | Paused(session: Session, steps: seq<Step>, approval: Approval)
    | Failed(session: Session)

  function ProcessCalls(env: Environment, s: Session, calls: seq<ToolCall>, steps: seq<Step>): (b: Batch)
    ensures s.log <= b.session.log
    decreases |calls|, |s.log|
  {
    if calls == [] then Finished(s, steps)
    else
      match HandleCall(env, s, calls[0], calls[1..])
      case Answers(session, step) => ProcessCalls(env, session, calls[1..], steps + [step])
      case Suspends(session, approval) => Paused(session, steps, approval)
      case Refused(session) => Failed(session)
  }

  // ---- Compaction ------------------------------------------------------------------------

  /** The first user message at or after `start`, or the length of the history. */
  function FirstUser(messages: seq<Message>, start: nat): (k: nat)
    requires start <= |messages|
    ensures start <= k <= |messages|
    ensures forall i :: start <= i < k ==> messages[i].role != User
    ensures k < |messages| ==> messages[k].role == User
    decreases |messages| - start
  {
    if start == |messages| || messages[start].role == User then start else FirstUser(messages, start + 1)
  }

  function Compacted(messages: seq<Message>): seq<Message> {
    if |messages| <= MAX_SESSION_MESSAGES then messages
    else
      var start := FirstUser(messages, |messages| - MAX_SESSION_MESSAGES);
      if start == |messages| then messages else messages[start..]
  }

  function Compact(s: Session): Session {
    s.(messages := Compacted(s.messages))
  }

  // ---- Model rounds ----------------------------------------------------------------------

  /** The reply the engine may use: one that came back and passed the client's validation. */
  function Usable(completion: Completion): Option<Message> {
    match completion
    case Replied(message) => if Acceptable(message) then Some(message) else None
    case _ => None
  }

  function Consult(s: Session): Session {
    s.(log := s.log + [Consulted])
  }

  function Received(env: Environment, s: Session, message: Message): Session {
    s.(messages := s.messages + [message], updated := env.now(|s.log|))
  }

  function FailedSteps(steps: seq<Step>): nat {
    if steps == [] then 0
    else FailedSteps(steps[..|steps| - 1]) + (if steps[|steps| - 1].success then 0 else 1)
  }

  function Done(id: string, reply: Reply, steps: seq<Step>): TurnResponse {
    TurnResponse(id, reply, steps, None, true)
  }

  function Continue(env: Environment, id: string, s: Session, steps: seq<Step>, round: nat): (r: (Session, TurnResult))
    requires round <= MAX_AGENT_ROUNDS
    ensures s.log <= r.0.log
    decreases MAX_AGENT_ROUNDS - round, 1, |s.log|
  {
    if round == MAX_AGENT_ROUNDS then FinalizeAtRoundLimit(env, id, s, steps)
    else
      var consulted := Consult(s);
      match Usable(env.complete(|s.log|))
      case None => (consulted, Err(ModelUnavailable))
      case Some(assistant) => AfterReply(env, id, Received(env, consulted, assistant), assistant, steps, round)
  }

  function AfterReply(env: Environment, id: string, s: Session, assistant: Message, steps: seq<Step>, round: nat)
    : (r: (Session, TurnResult))
    requires round < MAX_AGENT_ROUNDS
    ensures s.log <= r.0.log
    decreases MAX_AGENT_ROUNDS - round, 0, |s.log|
  {
    if assistant.toolCalls == [] then
      var text := TrimSpace(assistant.content);
      if text == "" then (s, Err(EmptyReply)) else (Compact(s), Ok(Done(id, ModelText(text), steps)))
    else
      match ProcessCalls(env, s, assistant.toolCalls, steps)
      case Failed(session) => (session, Err(IdUnavailable))
      case Paused(session, steps', approval) =>
        (session, Ok(TurnResponse(id, NoReply, steps', Some(approval), false)))
      case Finished(session, steps') => Continue(env, id, session, steps', round + 1)
  }

  /** The thirteenth call runs without tools; any unusable answer is replaced by a fixed summary. */
  function FinalizeAtRoundLimit(env: Environment, id: string, s: Session, steps: seq<Step>): (r: (Session, TurnResult))
    ensures s.log <= r.0.log
  {
    var completion := env.complete(|s.log|);
    var consulted := Consult(s);
    if completion == Cancelled then (consulted, Err(ModelUnavailable))
    else
      var fallback := (Compact(consulted), Ok(Done(id, BudgetSummary(|steps|, FailedSteps(steps)), steps)));
      match Usable(completion)
      case None => fallback
      case Some(assistant) =>
        var text := TrimSpace(assistant.content);
        if assistant.toolCalls != [] || text == "" then fallback
        else (Compact(Received(env, consulted, assistant)), Ok(Done(id, ModelText(text), steps)))
  }

  // ---- Operations ------------------------------------------------------------------------

  predicate ValidUserMessage(text: string) {
    text != "" && Utf8Length(text) <= MAX_USER_MESSAGE_BYTES && '\0' !in text
  }

  function Asked(env: Environment, s: Session, text: string): Session {
    s.(messages := s.messages + [UserMessage(text)], updated := env.now(|s.log|))
  }

  function Turn(env: Environment, id: string, s: Session, userMessage: string): (r: (Session, TurnResult))
    ensures s.log <= r.0.log
  {
    var text := TrimSpace(userMessage);
    if !ValidUserMessage(text) then (s, Err(InvalidMessage))
    else if s.pending.Some? then (s, Err(ApprovalPending))
    else
      Continue(env, id, Asked(env, s, text), [], 0)
  }

  /** The summary given when the model cannot write one: it says what became of the suspended call. */
  function FallbackReply(steps: seq<Step>, approved: bool): Reply {
    if approved && |steps| > 0 && steps[0].success then ExecutedFallback
    else if approved then FailedFallback
    else DeniedFallback
  }

  function ApprovalFallback(id: string, s: Session, steps: seq<Step>, approved: bool): (Session, TurnResult) {
    (Compact(s), Ok(Done(id, FallbackReply(steps, approved), steps)))
  }

  /** The session once the suspended call has its answer, and the first step of the response. */
  function Settled(env: Environment, s: Session, pending: Pending, approved: bool): (Session, Step) {
    var taken := s.(pending := None, log := s.log + [Resolved(pending.approval.id, approved)]);
    if approved then
      (AfterExecution(env, taken, pending.call, Some(pending.approval.id)),
       ExecutionStep(env, taken, pending.call, pending.approval.summary))
    else
      (Answered(taken, pending.call, DENIED_CONTENT), Step(pending.call.name, "用户拒绝执行", false))
  }

  function ResolveApproval(env: Environment, id: string, s: Session, approvalId: string, approved: bool)
    : (r: (Session, TurnResult))
    ensures s.log <= r.0.log
  {
    if s.pending.None? || s.pending.value.approval.id != approvalId then (s, Err(NoSuchApproval))
    else
      var (settled, step) := Settled(env, s, s.pending.value, approved);
      Resume(env, id, settled, step, s.pending.value.remaining, approved)
  }

  /** The calls behind the suspended one, then the model again. */
  function Resume(env: Environment, id: string, s: Session, step: Step, remaining: seq<ToolCall>, approved: bool)
    : (r: (Session, TurnResult))
    ensures s.log <= r.0.log
  {
    match ProcessCalls(env, s, remaining, [step])
    case Failed(session) => ApprovalFallback(id, session, [step], approved)
    case Paused(session, steps, approval) => (session, Ok(TurnResponse(id, NoReply, steps, Some(approval), false)))
    case Finished(session, steps) =>
      var (final, result) := Continue(env, id, session, steps, 0);
      if result.Err? then ApprovalFallback(id, final, steps, approved) else (final, result)
  }

  // ---- Runs ------------------------------------------------------------------------------

  datatype Operation = TurnOp(message: string) | ResolveOp(approvalId: string, approved: bool)

  function Apply(env: Environment, id: string, s: Session, op: Operation): (r: (Session, TurnResult))
    ensures s.log <= r.0.log
  {
    match op
    case TurnOp(message) => Turn(env, id, s, message)
    case ResolveOp(approvalId, approved) => ResolveApproval(env, id, s, approvalId, approved)
  }

  function Next(env: Environment, id: string): (Session, Operation) -> Session {
    (s: Session, op: Operation) => Apply(env, id, s, op).0
  }

  /** `states` is the life of a session, from its creation, under the operations `ops`. */
  predicate IsLife(env: Environment, id: string, ops: seq<Operation>, states: seq<Session>) {
    IsRun(NEW_SESSION, Next(env, id), ops, states)
  }
}
