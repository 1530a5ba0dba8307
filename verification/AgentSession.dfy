/**
 The session object of internal/manageragent/engine.go: messages, the pending call and the
 timestamp change in place, round by round and call by call. Each method is proved to leave
 the object as the functions of AgentEngine say.
 */
module AgentSession {
  import opened Wrappers
  import opened Text
  import opened AgentModel
  import opened AgentEngine

  class AgentSession {
    const env: Environment
    const id: string
    var messages: seq<Message>
    var pending: Option<Pending>
    var updated: int
    var log: seq<Event>

    constructor (env: Environment, id: string)
      ensures this.env == env && this.id == id && View() == NEW_SESSION
    {
      this.env := env;
      this.id := id;
      messages, pending, updated, log := [], None, 0, [];
    }

    function View(): Session
      reads this
    {
      Session(messages, pending, updated, log)
    }

    method Compact()
      modifies this
      ensures View() == AgentEngine.Compact(old(View()))
    {
      if |messages| <= MAX_SESSION_MESSAGES {
        return;
      }
      var start := |messages| - MAX_SESSION_MESSAGES;
      while start < |messages| && messages[start].role != User
        invariant |messages| - MAX_SESSION_MESSAGES <= start <= |messages|
        invariant FirstUser(messages, start) == FirstUser(messages, |messages| - MAX_SESSION_MESSAGES)
        decreases |messages| - start
      {
        start := start + 1;
      }
      if start == |messages| {
        return;
      }
      messages := messages[start..];
    }

    method Answer(call: ToolCall, content: string)
      modifies this
      ensures View() == Answered(old(View()), call, content)
    {
      messages := messages + [ToolMessage(call.id, content)];
    }

    method ExecuteCall(call: ToolCall, grant: Option<string>, summary: string) returns (step: Step)
      modifies this
      ensures View() == AfterExecution(env, old(View()), call, grant)
      ensures step == ExecutionStep(env, old(View()), call, summary)
    {
      var outcome := env.execute(|log|);
      step := Step(call.name, summary, outcome.error.None?);
      log := log + [Executed(call, grant)];
      Answer(call, ToolResultContent(outcome));
    }

    /** Answers one call, or suspends it with the calls behind it; both results absent mean no random ID. */
    method HandleCall(call: ToolCall, behind: seq<ToolCall>) returns (step: Option<Step>, approval: Option<Approval>)
      modifies this
      ensures var outcome := AgentEngine.HandleCall(env, old(View()), call, behind);
        && View() == outcome.session
        && step == (if outcome.Answers? then Some(outcome.step) else None)
        && approval == (if outcome.Suspends? then Some(outcome.approval) else None)
    {
      match GateOf(env, call) {
        case UnknownTool =>
          Answer(call, UNKNOWN_TOOL_CONTENT);
          return Some(Step(call.name, "拒绝未知工具", false)), None;
        case BadArguments =>
          Answer(call, BAD_ARGUMENTS_CONTENT);
          return Some(Step(call.name, "参数无效", false)), None;
        case Free(summary) =>
          var ran := ExecuteCall(call, None, summary);
          return Some(ran), None;
        case NeedsApproval(summary) =>
          var approvalId := env.randomId(|log|);
          if approvalId.None? {
            log := log + [IdRefused];
            return None, None;
          }
          var needed := Approval(approvalId.value, call.name, summary, call.arguments);
          log := log + [Suspended(approvalId.value, call)];
          pending := Some(Pending(needed, call, behind));
          return None, Some(needed);
      }
    }

    /** Stops at the first call that needs approval; `failed` reports a refused random ID. */
    method ProcessCalls(calls: seq<ToolCall>, before: seq<Step>)
      returns (steps: seq<Step>, approval: Option<Approval>, failed: bool)
      modifies this
      ensures var batch := AgentEngine.ProcessCalls(env, old(View()), calls, before);
        && View() == batch.session
        && failed == batch.Failed?
        && approval == (if batch.Paused? then Some(batch.approval) else None)
        && (!failed ==> steps == batch.steps)
    {
      steps := before;
      var index := 0;
      while index < |calls|
        invariant 0 <= index <= |calls|
        invariant AgentEngine.ProcessCalls(env, old(View()), calls, before) ==
                  AgentEngine.ProcessCalls(env, View(), calls[index..], steps)
      {
        assert calls[index..][1..] == calls[index + 1..];
        var step, needed := HandleCall(calls[index], calls[index + 1..]);
        if step.None? {
          return steps, needed, needed.None?;
        }
        steps := steps + [step.value];
        index := index + 1;
      }
      return steps, None, false;
    }

    /** One attempt to complete the conversation; only an acceptable reply comes back. */
    method Complete() returns (completion: Completion, assistant: Option<Message>)
      modifies this
      ensures View() == Consult(old(View()))
      ensures completion == env.complete(|old(log)|)
      ensures assistant == Usable(completion)
    {
      completion := env.complete(|log|);
      log := log + [Consulted];
      assistant := None;
      if completion.Replied? {
        var checked := ValidateModelMessage(completion.message);
        assistant := if checked.Ok? then Some(checked.value) else None;
      }
    }

    method Receive(assistant: Message)
      modifies this
      ensures View() == Received(env, old(View()), assistant)
    {
      messages := messages + [assistant];
      updated := env.now(|log|);
    }

    method Continue(before: seq<Step>) returns (result: TurnResult)
      modifies this
      ensures (View(), result) == AgentEngine.Continue(env, id, old(View()), before, 0)
    {
      var steps := before;
      var round := 0;
      while round < MAX_AGENT_ROUNDS
        invariant 0 <= round <= MAX_AGENT_ROUNDS
        invariant AgentEngine.Continue(env, id, old(View()), before, 0) ==
                  AgentEngine.Continue(env, id, View(), steps, round)
      {
        ghost var start := View();
        var completion, reply := Complete();
        if reply.None? {
          return Err(ModelUnavailable);
        }
        var assistant := reply.value;
        Receive(assistant);
        ghost var received := View();
        assert AgentEngine.Continue(env, id, start, steps, round) ==
               AfterReply(env, id, received, assistant, steps, round);
        if |assistant.toolCalls| == 0 {
          var text := TrimSpace(assistant.content);
          if text == "" {
            return Err(EmptyReply);
          }
          Compact();
          return Ok(Done(id, ModelText(text), steps));
        }
        var after, approval, failed := ProcessCalls(assistant.toolCalls, steps);
        if failed {
          return Err(IdUnavailable);
        }
        if approval.Some? {
          return Ok(TurnResponse(id, NoReply, after, approval, false));
        }
        assert AfterReply(env, id, received, assistant, steps, round) ==
               AgentEngine.Continue(env, id, View(), after, round + 1);
        steps := after;
        round := round + 1;
      }
      result := FinalizeAtRoundLimit(steps);
    }

    method FinalizeAtRoundLimit(steps: seq<Step>) returns (result: TurnResult)
      modifies this
      ensures (View(), result) == AgentEngine.FinalizeAtRoundLimit(env, id, old(View()), steps)
    {
      var completion, reply := Complete();
      if completion.Cancelled? {
        return Err(ModelUnavailable);
      }
      if reply.Some? {
        var text := TrimSpace(reply.value.content);
        if |reply.value.toolCalls| == 0 && text != "" {
          Receive(reply.value);
          Compact();
          return Ok(Done(id, ModelText(text), steps));
        }
      }
      var failed := CountFailed(steps);
      Compact();
      result := Ok(Done(id, BudgetSummary(|steps|, failed), steps));
    }

    method CountFailed(steps: seq<Step>) returns (failed: nat)
      ensures failed == FailedSteps(steps)
    {
      failed := 0;
      for i := 0 to |steps|
        invariant failed == FailedSteps(steps[..i])
      {
        assert steps[..i + 1][..i] == steps[..i];
        if !steps[i].success {
          failed := failed + 1;
        }
      }
      assert steps[..|steps|] == steps;
    }

    method Turn(userMessage: string) returns (result: TurnResult)
      modifies this
      ensures (View(), result) == AgentEngine.Turn(env, id, old(View()), userMessage)
    {
      var text := TrimSpace(userMessage);
      if !ValidUserMessage(text) {
        return Err(InvalidMessage);
      }
      if pending.Some? {
        return Err(ApprovalPending);
      }
      messages := messages + [UserMessage(text)];
      updated := env.now(|log|);
      ghost var asked := View();
      assert asked == Asked(env, old(View()), text);
      var none: seq<Step> := [];
      result := Continue(none);
      assert (View(), result) == AgentEngine.Continue(env, id, asked, none, 0);
    }

    method ApprovalFallback(steps: seq<Step>, approved: bool) returns (result: TurnResult)
      modifies this
      ensures (View(), result) == AgentEngine.ApprovalFallback(id, old(View()), steps, approved)
    {
      Compact();
      result := Ok(Done(id, FallbackReply(steps, approved), steps));
    }

    method Settle(taken: Pending, approved: bool) returns (step: Step)
      requires pending == Some(taken)
      modifies this
      ensures (View(), step) == Settled(env, old(View()), taken, approved)
    {
      pending := None;
      log := log + [Resolved(taken.approval.id, approved)];
      if approved {
        step := ExecuteCall(taken.call, Some(taken.approval.id), taken.approval.summary);
      } else {
        step := Step(taken.call.name, "用户拒绝执行", false);
        Answer(taken.call, DENIED_CONTENT);
      }
    }

    method Resume(step: Step, remaining: seq<ToolCall>, approved: bool) returns (result: TurnResult)
      modifies this
      ensures (View(), result) == AgentEngine.Resume(env, id, old(View()), step, remaining, approved)
    {
      var steps, approval, failed := ProcessCalls(remaining, [step]);
      if failed {
        result := ApprovalFallback([step], approved);
        return;
      }
      if approval.Some? {
        return Ok(TurnResponse(id, NoReply, steps, approval, false));
      }
      result := Continue(steps);
      if result.Err? {
        result := ApprovalFallback(steps, approved);
      }
    }

    method ResolveApproval(approvalId: string, approved: bool) returns (result: TurnResult)
      modifies this
      ensures (View(), result) == AgentEngine.ResolveApproval(env, id, old(View()), approvalId, approved)
    {
      if pending.None? || pending.value.approval.id != approvalId {
        return Err(NoSuchApproval);
      }
      var taken := pending.value;
      var step := Settle(taken, approved);
      result := Resume(step, taken.remaining, approved);
    }
  }
}
