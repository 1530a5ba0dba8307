/**
 Bounds and reports of one operation: how often the model and the tools run, what the
 response's steps account for, how long the history stays, and that the fixed summaries given
 when the model fails say what really happened to the suspended call.
 */
module AgentBudget {
  import opened Wrappers
  import opened Text
  import opened AgentModel
  import opened AgentEngine
  import opened Runs

  predicate IsConsult(e: Event) {
    e.Consulted?
  }

  predicate IsExecution(e: Event) {
    e.Executed?
  }

  function Count(log: seq<Event>, kind: Event -> bool): nat {
    if log == [] then 0 else Count(log[..|log| - 1], kind) + (if kind(log[|log| - 1]) then 1 else 0)
  }

  lemma CountOne(log: seq<Event>, e: Event, kind: Event -> bool)
    ensures Count(log + [e], kind) == Count(log, kind) + (if kind(e) then 1 else 0)
  {
    assert (log + [e])[..|log|] == log;
  }

  function Consults(s: Session): nat {
    Count(s.log, IsConsult)
  }

  function Executions(s: Session): nat {
    Count(s.log, IsExecution)
  }

  lemma LogCounts(s: Session, next: Session, e: Event)
    requires next.log == s.log + [e]
    ensures Consults(next) == Consults(s) + (if e.Consulted? then 1 else 0)
    ensures Executions(next) == Executions(s) + (if e.Executed? then 1 else 0)
  {
    CountOne(s.log, e, IsConsult);
    CountOne(s.log, e, IsExecution);
  }

  // ---- Model calls and tool executions ---------------------------------------------------

  /** A batch never calls the model, runs each call at most once, answers each call it passes
      with one message and one step, and suspends with strictly fewer calls behind. */
  lemma {:induction false} BatchCost(env: Environment, s: Session, calls: seq<ToolCall>, steps: seq<Step>)
    ensures var batch := ProcessCalls(env, s, calls, steps);
      && Consults(batch.session) == Consults(s)
      && Executions(s) <= Executions(batch.session) <= Executions(s) + |calls|
      && (batch.Paused? ==> batch.session.pending.Some? && |batch.session.pending.value.remaining| < |calls|)
      && (!batch.Paused? ==> batch.session.pending == s.pending)
      && (!batch.Failed? ==>
            steps <= batch.steps && |batch.session.messages| - |s.messages| == |batch.steps| - |steps|)
    decreases |calls|
  {
    if calls != [] {
      match HandleCall(env, s, calls[0], calls[1..]) {
        case Answers(next, step) =>
          AnswerCost(env, s, calls[0], calls[1..]);
          BatchCost(env, next, calls[1..], steps + [step]);
        case Suspends(next, approval) => LogCounts(s, next, Suspended(approval.id, calls[0]));
        case Refused(next) => LogCounts(s, next, IdRefused);
      }
    }
  }

  lemma AnswerCost(env: Environment, s: Session, call: ToolCall, behind: seq<ToolCall>)
    requires HandleCall(env, s, call, behind).Answers?
    ensures var next := HandleCall(env, s, call, behind).session;
      && next.pending == s.pending
      && |next.messages| == |s.messages| + 1
      && Consults(next) == Consults(s)
      && Executions(s) <= Executions(next) <= Executions(s) + 1
  {
    if GateOf(env, call).Free? {
      LogCounts(s, AfterExecution(env, s, call, None), Executed(call, None));
    }
  }

  /** The pending approval leaves room for the suspended call within one message's calls. */
  predicate SmallPending(s: Session) {
    s.pending.Some? ==> |s.pending.value.remaining| < MAX_MODEL_TOOL_CALLS
  }

  predicate WithinBudget(s: Session, after: Session, consults: int, executions: int) {
    && Consults(s) <= Consults(after) <= Consults(s) + consults
    && Executions(s) <= Executions(after) <= Executions(s) + executions
    && SmallPending(after)
  }

  lemma {:induction false} ContinueCost(env: Environment, id: string, s: Session, steps: seq<Step>, round: nat)
    requires round <= MAX_AGENT_ROUNDS && SmallPending(s)
    ensures WithinBudget(s, Continue(env, id, s, steps, round).0,
                         MAX_AGENT_ROUNDS + 1 - round, (MAX_AGENT_ROUNDS - round) * MAX_MODEL_TOOL_CALLS)
    decreases MAX_AGENT_ROUNDS - round
  {
    LogCounts(s, Consult(s), Consulted);
    if round == MAX_AGENT_ROUNDS {
      FinalizeCost(env, id, s, steps);
    } else if Usable(env.complete(|s.log|)).Some? {
      var assistant := Usable(env.complete(|s.log|)).value;
      ReplyCost(env, id, Received(env, Consult(s), assistant), assistant, steps, round);
    }
  }

  lemma FinalizeCost(env: Environment, id: string, s: Session, steps: seq<Step>)
    requires SmallPending(s)
    ensures WithinBudget(s, FinalizeAtRoundLimit(env, id, s, steps).0, 1, 0)
  {
    LogCounts(s, Consult(s), Consulted);
    assert FinalizeAtRoundLimit(env, id, s, steps).0.log == Consult(s).log;
  }

  lemma {:induction false} ReplyCost(env: Environment, id: string, s: Session, assistant: Message, steps: seq<Step>, round: nat)
    requires round < MAX_AGENT_ROUNDS && SmallPending(s) && |assistant.toolCalls| <= MAX_MODEL_TOOL_CALLS
    ensures WithinBudget(s, AfterReply(env, id, s, assistant, steps, round).0,
                         MAX_AGENT_ROUNDS - round, (MAX_AGENT_ROUNDS - round) * MAX_MODEL_TOOL_CALLS)
    decreases MAX_AGENT_ROUNDS - round, 0
  {
    if assistant.toolCalls != [] {
      BatchCost(env, s, assistant.toolCalls, steps);
      var batch := ProcessCalls(env, s, assistant.toolCalls, steps);
      if batch.Finished? {
        ContinueCost(env, id, batch.session, batch.steps, round + 1);
      }
    }
  }

  /** A turn makes at most 13 model calls and 192 tool executions. */
  lemma TurnBudget(env: Environment, id: string, s: Session, message: string)
    requires SmallPending(s)
    ensures WithinBudget(s, Turn(env, id, s, message).0, 13, 192)
  {
    var text := TrimSpace(message);
    if ValidUserMessage(text) && s.pending.None? {
      ContinueCost(env, id, Asked(env, s, text), [], 0);
    }
  }

  lemma ResumeCost(env: Environment, id: string, s: Session, step: Step, remaining: seq<ToolCall>, approved: bool)
    requires s.pending.None? && |remaining| < MAX_MODEL_TOOL_CALLS
    ensures WithinBudget(s, Resume(env, id, s, step, remaining, approved).0, 13, 192 + |remaining|)
  {
    BatchCost(env, s, remaining, [step]);
    var batch := ProcessCalls(env, s, remaining, [step]);
    if batch.Finished? {
      ContinueCost(env, id, batch.session, batch.steps, 0);
    }
  }

  /** Resolving an approval makes at most 13 model calls and 208 tool executions. */
  lemma ResolveBudget(env: Environment, id: string, s: Session, approvalId: string, approved: bool)
    requires SmallPending(s)
    ensures WithinBudget(s, ResolveApproval(env, id, s, approvalId, approved).0, 13, 208)
  {
    if s.pending.Some? && s.pending.value.approval.id == approvalId {
      var pending := s.pending.value;
      var (settled, step) := Settled(env, s, pending, approved);
      var taken := s.(pending := None, log := s.log + [Resolved(approvalId, approved)]);
      LogCounts(s, taken, Resolved(approvalId, approved));
      if approved {
        LogCounts(taken, settled, Executed(pending.call, Some(approvalId)));
      }
      ResumeCost(env, id, settled, step, pending.remaining, approved);
    }
  }

  lemma OperationSmallPending(env: Environment, id: string, s: Session, op: Operation)
    requires SmallPending(s)
    ensures SmallPending(Apply(env, id, s, op).0)
  {
    match op {
      case TurnOp(message) => TurnBudget(env, id, s, message);
      case ResolveOp(approvalId, approved) => ResolveBudget(env, id, s, approvalId, approved);
    }
  }

  /** Every session state of every run is one the two bounds apply to. */
  lemma LifeSmallPending(env: Environment, id: string, ops: seq<Operation>, states: seq<Session>, n: nat)
    requires IsLife(env, id, ops, states) && n < |states|
    ensures SmallPending(states[n])
  {
    forall s, op | SmallPending(s)
      ensures SmallPending(Next(env, id)(s, op))
    {
      OperationSmallPending(env, id, s, op);
    }
    Invariant(NEW_SESSION, Next(env, id), ops, states, SmallPending, n);
  }

  // ---- The length of the history ---------------------------------------------------------

  /** The newest 80 messages hold a user message, or there are no more than 80. */
  predicate Compactable(messages: seq<Message>) {
    || |messages| <= 80
    || exists i :: |messages| - 80 <= i < |messages| && messages[i].role == User
  }

  /** A long history shrinks to at most 80 messages, starting at a user message, exactly when one
      is among its last 80; otherwise nothing is cut. Either way it keeps the newest messages. */
  lemma CompactionBound(messages: seq<Message>)
    ensures |Compacted(messages)| <= 80 <==> Compactable(messages)
    ensures Compacted(messages) == messages[|messages| - |Compacted(messages)|..]
    ensures !Compactable(messages) ==> Compacted(messages) == messages
    ensures |messages| > 80 && Compactable(messages) ==>
              && Compacted(messages)[0].role == User
              && (forall i :: |messages| - 80 <= i < |messages| - |Compacted(messages)| ==>
                    messages[i].role != User)
  {
    if |messages| > MAX_SESSION_MESSAGES {
      var k := FirstUser(messages, |messages| - MAX_SESSION_MESSAGES);
      assert k < |messages| ==> messages[k].role == User;
    }
  }

  // The design promises at most 80 messages a session. One busy turn already breaks it:

  /** A model that answers every round with the same reply, asking for seven unknown tools. */
  ghost predicate Busy(env: Environment, reply: Message) {
    && env.specs == map[]
    && Acceptable(reply) && |reply.toolCalls| == 7
    && forall n :: env.complete(n) == Replied(reply)
  }

  function BusyCalls(): (calls: seq<ToolCall>)
    ensures |calls| == 7 && DistinctIds(calls)
  {
    seq(7, i requires 0 <= i < 7 => ToolCall([(i + 65) as char], "function", "missing_tool", ""))
  }

  const BUSY_REPLY := Message(Assistant, "", "", BusyCalls(), [])

  function BusyEnvironment(): Environment {
    Environment(map[], _ => true, _ => Replied(BUSY_REPLY), _ => ToolOutcome("", None), _ => None, _ => 0)
  }

  lemma BusyModelExists()
    ensures Busy(BusyEnvironment(), BUSY_REPLY)
  {
    var calls := BusyCalls();
    forall i | 0 <= i < 7
      ensures WellFormedCall(calls[i])
    {
      assert calls[i] == ToolCall([(i + 65) as char], "function", "missing_tool", "");
      assert Utf8Length("") == 0;
    }
    assert Utf8Length("") == 0 && StateBytes([]) == 0;
  }

  predicate UserOnlyFirst(messages: seq<Message>) {
    forall i :: 0 < i < |messages| ==> messages[i].role != User
  }

  lemma {:induction false} UnknownBatch(env: Environment, s: Session, calls: seq<ToolCall>, steps: seq<Step>)
    requires env.specs == map[]
    ensures var batch := ProcessCalls(env, s, calls, steps);
      && batch.Finished?
      && |batch.session.messages| == |s.messages| + |calls|
      && (|s.messages| > 0 && UserOnlyFirst(s.messages) ==> UserOnlyFirst(batch.session.messages))
    decreases |calls|
  {
    if calls != [] {
      var answer := HandleCall(env, s, calls[0], calls[1..]);
      UnknownBatch(env, answer.session, calls[1..], steps + [answer.step]);
    }
  }

  lemma {:induction false} BusyRounds(env: Environment, reply: Message, id: string, s: Session, steps: seq<Step>, round: nat)
    requires round <= MAX_AGENT_ROUNDS && Busy(env, reply)
    requires UserOnlyFirst(s.messages) && |s.messages| == 1 + 8 * round
    ensures var (after, result) := Continue(env, id, s, steps, round);
      result.Ok? && result.value.done && |after.messages| == 97
    decreases MAX_AGENT_ROUNDS - round
  {
    if round == MAX_AGENT_ROUNDS {
      assert Usable(env.complete(|s.log|)) == Some(reply);
      BusyEnd(env, reply, id, s, steps);
    } else {
      BusyRound(env, reply, id, s, steps, round);
      var batch := ProcessCalls(env, Received(env, Consult(s), reply), reply.toolCalls, steps);
      BusyRounds(env, reply, id, batch.session, batch.steps, round + 1);
    }
  }

  lemma BusyEnd(env: Environment, reply: Message, id: string, s: Session, steps: seq<Step>)
    requires UserOnlyFirst(s.messages) && |s.messages| == 97
    requires Usable(env.complete(|s.log|)) == Some(reply) && reply.toolCalls != []
    ensures var (after, result) := FinalizeAtRoundLimit(env, id, s, steps);
      result.Ok? && result.value.done && |after.messages| == 97
  {
    assert !Compactable(s.messages);
    CompactionBound(s.messages);
  }

  lemma BusyRound(env: Environment, reply: Message, id: string, s: Session, steps: seq<Step>, round: nat)
    requires round < MAX_AGENT_ROUNDS && Busy(env, reply)
    requires UserOnlyFirst(s.messages) && |s.messages| > 0
    ensures var batch := ProcessCalls(env, Received(env, Consult(s), reply), reply.toolCalls, steps);
      && batch.Finished?
      && |batch.session.messages| == |s.messages| + 8
      && UserOnlyFirst(batch.session.messages)
      && Continue(env, id, s, steps, round) == Continue(env, id, batch.session, batch.steps, round + 1)
  {
    assert Usable(env.complete(|s.log|)) == Some(reply);
    UnknownBatch(env, Received(env, Consult(s), reply), reply.toolCalls, steps);
  }

  /** The first turn of a session can end, marked done, with 97 messages in its history. */
  lemma HistoryCanExceedEighty(env: Environment, reply: Message, id: string, s: Session, question: string)
    requires Busy(env, reply) && s.messages == [] && s.pending.None?
    requires TrimSpace(question) == question && ValidUserMessage(question)
    ensures var (after, result) := Turn(env, id, s, question);
      result.Ok? && result.value.done && |after.messages| == 97
  {
    TurnContinues(env, id, s, question);
    BusyRounds(env, reply, id, Asked(env, s, question), [], 0);
  }

  lemma TurnContinues(env: Environment, id: string, s: Session, question: string)
    requires s.pending.None? && TrimSpace(question) == question && ValidUserMessage(question)
    ensures Turn(env, id, s, question) == Continue(env, id, Asked(env, s, question), [], 0)
  {
  }

  predicate Settledness(after: Session, result: TurnResult) {
    result.Ok? && result.value.done ==>
      && after.pending.None?
      && (|after.messages| <= MAX_SESSION_MESSAGES || !Compactable(after.messages))
  }

  lemma CompactSettles(s: Session)
    ensures var messages := Compact(s).messages;
      |messages| <= MAX_SESSION_MESSAGES || !Compactable(messages)
  {
    CompactionBound(s.messages);
  }

  lemma {:induction false} ContinueSettles(env: Environment, id: string, s: Session, steps: seq<Step>, round: nat)
    requires round <= MAX_AGENT_ROUNDS && s.pending.None?
    ensures var (after, result) := Continue(env, id, s, steps, round); Settledness(after, result)
    decreases MAX_AGENT_ROUNDS - round
  {
    var consulted := Consult(s);
    if round == MAX_AGENT_ROUNDS {
      CompactSettles(consulted);
      if Usable(env.complete(|s.log|)).Some? {
        CompactSettles(Received(env, consulted, Usable(env.complete(|s.log|)).value));
      }
    } else if Usable(env.complete(|s.log|)).Some? {
      var assistant := Usable(env.complete(|s.log|)).value;
      ReplySettles(env, id, Received(env, consulted, assistant), assistant, steps, round);
    }
  }

  lemma {:induction false} ReplySettles(env: Environment, id: string, s: Session, assistant: Message, steps: seq<Step>, round: nat)
    requires round < MAX_AGENT_ROUNDS && s.pending.None?
    ensures var (after, result) := AfterReply(env, id, s, assistant, steps, round); Settledness(after, result)
    decreases MAX_AGENT_ROUNDS - round, 0
  {
    CompactSettles(s);
    if assistant.toolCalls != [] {
      BatchCost(env, s, assistant.toolCalls, steps);
      var batch := ProcessCalls(env, s, assistant.toolCalls, steps);
      if batch.Finished? {
        ContinueSettles(env, id, batch.session, batch.steps, round + 1);
      }
    }
  }

  lemma ResumeSettles(env: Environment, id: string, s: Session, step: Step, remaining: seq<ToolCall>, approved: bool)
    requires s.pending.None?
    ensures var (after, result) := Resume(env, id, s, step, remaining, approved); Settledness(after, result)
  {
    BatchCost(env, s, remaining, [step]);
    var batch := ProcessCalls(env, s, remaining, [step]);
    CompactSettles(batch.session);
    if batch.Finished? {
      ContinueSettles(env, id, batch.session, batch.steps, 0);
      CompactSettles(Continue(env, id, batch.session, batch.steps, 0).0);
      ContinueLeavesPending(env, id, batch.session, batch.steps, 0);
    }
  }

  /** An error never leaves a call pending. */
  lemma {:induction false} ContinueLeavesPending(env: Environment, id: string, s: Session, steps: seq<Step>, round: nat)
    requires round <= MAX_AGENT_ROUNDS && s.pending.None?
    ensures var (after, result) := Continue(env, id, s, steps, round); result.Err? ==> after.pending.None?
    decreases MAX_AGENT_ROUNDS - round
  {
    if round < MAX_AGENT_ROUNDS && Usable(env.complete(|s.log|)).Some? {
      var assistant := Usable(env.complete(|s.log|)).value;
      var received := Received(env, Consult(s), assistant);
      BatchCost(env, received, assistant.toolCalls, steps);
      var batch := ProcessCalls(env, received, assistant.toolCalls, steps);
      if assistant.toolCalls != [] && batch.Finished? {
        ContinueLeavesPending(env, id, batch.session, batch.steps, round + 1);
      }
    }
  }

  /** After every response marked done, nothing is pending, and the history has at most 80
      messages or no user message among its last 80. */
  lemma DoneIsSettled(env: Environment, id: string, s: Session, op: Operation)
    ensures var (after, result) := Apply(env, id, s, op); Settledness(after, result)
  {
    match op {
      case TurnOp(message) =>
        var text := TrimSpace(message);
        if ValidUserMessage(text) && s.pending.None? {
          ContinueSettles(env, id, Asked(env, s, text), [], 0);
        }
      case ResolveOp(approvalId, approved) =>
        if s.pending.Some? && s.pending.value.approval.id == approvalId {
          var (settled, step) := Settled(env, s, s.pending.value, approved);
          ResumeSettles(env, id, settled, step, s.pending.value.remaining, approved);
        }
    }
  }

  // ---- Truthful summaries ----------------------------------------------------------------

  /** Earlier steps stay, and none of the summaries of an approval is given. */
  predicate KeepsSteps(steps: seq<Step>, result: TurnResult) {
    result.Ok? ==>
      && steps <= result.value.steps
      && !result.value.reply.DeniedFallback? && !result.value.reply.ExecutedFallback?
      && !result.value.reply.FailedFallback?
  }

  lemma {:induction false} ContinueKeepsSteps(env: Environment, id: string, s: Session, steps: seq<Step>, round: nat)
    requires round <= MAX_AGENT_ROUNDS
    ensures KeepsSteps(steps, Continue(env, id, s, steps, round).1)
    decreases MAX_AGENT_ROUNDS - round
  {
    if round < MAX_AGENT_ROUNDS && Usable(env.complete(|s.log|)).Some? {
      var assistant := Usable(env.complete(|s.log|)).value;
      ReplyKeepsSteps(env, id, Received(env, Consult(s), assistant), assistant, steps, round);
    }
  }

  lemma {:induction false} ReplyKeepsSteps(
      env: Environment, id: string, s: Session, assistant: Message, steps: seq<Step>, round: nat)
    requires round < MAX_AGENT_ROUNDS
    ensures KeepsSteps(steps, AfterReply(env, id, s, assistant, steps, round).1)
    decreases MAX_AGENT_ROUNDS - round, 0
  {
    if assistant.toolCalls != [] {
      BatchCost(env, s, assistant.toolCalls, steps);
      var batch := ProcessCalls(env, s, assistant.toolCalls, steps);
      if batch.Finished? {
        ContinueKeepsSteps(env, id, batch.session, batch.steps, round + 1);
      }
    }
  }

  /** Resolving the pending approval always answers; the first step tells whether the tool ran and
      succeeded, and a fixed summary agrees with it, whatever the later calls and the model did. */
  lemma SummariesTellTheTruth(env: Environment, id: string, s: Session, approvalId: string, approved: bool)
    requires s.pending.Some? && s.pending.value.approval.id == approvalId
    ensures var result := ResolveApproval(env, id, s, approvalId, approved).1;
      var ranWell := approved && env.execute(|s.log| + 1).error.None?;
      && result.Ok?
      && result.value.steps != []
      && result.value.steps[0].tool == s.pending.value.call.name
      && result.value.steps[0].success == ranWell
      && (result.value.reply.ExecutedFallback? ==> ranWell)
      && (result.value.reply.FailedFallback? ==> approved && !ranWell)
      && (result.value.reply.DeniedFallback? ==> !approved)
    ensures approved ==> s.log + [Resolved(approvalId, true), Executed(s.pending.value.call, Some(approvalId))]
                           <= ResolveApproval(env, id, s, approvalId, approved).0.log
  {
    SettledTellsTheTruth(env, s, approved);
    var (settled, step) := Settled(env, s, s.pending.value, approved);
    ResumeTellsTheTruth(env, id, settled, step, s.pending.value.remaining, approved);
  }

  lemma SettledTellsTheTruth(env: Environment, s: Session, approved: bool)
    requires s.pending.Some?
    ensures var (settled, step) := Settled(env, s, s.pending.value, approved);
      && step.tool == s.pending.value.call.name
      && step.success == (approved && env.execute(|s.log| + 1).error.None?)
    ensures var id := s.pending.value.approval.id;
      approved ==> s.log + [Resolved(id, true), Executed(s.pending.value.call, Some(id))]
                     <= Settled(env, s, s.pending.value, approved).0.log
  {
  }

  lemma ResumeTellsTheTruth(env: Environment, id: string, s: Session, step: Step, remaining: seq<ToolCall>, approved: bool)
    ensures var result := Resume(env, id, s, step, remaining, approved).1;
      && result.Ok?
      && result.value.steps != []
      && result.value.steps[0] == step
      && (result.value.reply.ExecutedFallback? ==> approved && step.success)
      && (result.value.reply.FailedFallback? ==> approved && !step.success)
      && (result.value.reply.DeniedFallback? ==> !approved)
  {
    BatchCost(env, s, remaining, [step]);
    var batch := ProcessCalls(env, s, remaining, [step]);
    if batch.Finished? {
      ContinueKeepsSteps(env, id, batch.session, batch.steps, 0);
    }
  }
}
