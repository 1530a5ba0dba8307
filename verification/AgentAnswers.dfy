/**
 What an operation on a session answers, and why it ends: every reply, error and pause is told by the last
 thing the session asked of the model, the tools or the random IDs. Stated over the environment's answers,
 not over the functions that compute them.
 */
module AgentAnswers {
  import opened Wrappers
  import opened Text
  import opened AgentModel
  import opened AgentEngine
  import opened AgentBudget

  // ---- One batch -------------------------------------------------------------------------

  /** A call that the engine runs at once. */
  predicate RunsFreely(env: Environment, call: ToolCall) {
    call.name in env.specs && env.isJsonObject(call.arguments) && !env.specs[call.name].requiresApproval
  }

  /** A call that the user must approve first. */
  predicate NeedsAsking(env: Environment, call: ToolCall) {
    call.name in env.specs && env.isJsonObject(call.arguments) && env.specs[call.name].requiresApproval
  }

  /** The calls of a batch that run, in order. */
  function FreeRuns(env: Environment, calls: seq<ToolCall>): seq<Event> {
    if calls == [] then []
    else (if RunsFreely(env, calls[0]) then [Executed(calls[0], None)] else []) + FreeRuns(env, calls[1..])
  }

  /** The text tells what the tool gave: its result, its error, or the result and then the error. */
  predicate TellsOutcome(content: string, o: ToolOutcome) {
    match o.error
    case None => content == o.result
    case Some(error) =>
      if TrimSpace(o.result) == "" then content == "工具执行失败：" + error
      else content == o.result + "\n工具执行失败：" + error
  }

  /** `content` is what the model is told about a call that did not need approval; `at` is when it ran. */
  predicate TellsCall(env: Environment, call: ToolCall, at: nat, content: string) {
    if call.name !in env.specs then content == UNKNOWN_TOOL_CONTENT
    else if !env.isJsonObject(call.arguments) then content == BAD_ARGUMENTS_CONTENT
    else TellsOutcome(content, env.execute(at))
  }

  /** And what the user is told. */
  predicate ShowsCall(env: Environment, call: ToolCall, at: nat, step: Step) {
    && step.tool == call.name
    && step.success == (RunsFreely(env, call) && env.execute(at).error.None?)
    && (RunsFreely(env, call) ==> step.summary == env.specs[call.name].approvalSummary)
  }

  /** When the call at `i` runs, in a batch that begins at `from`. */
  function RunsAt(env: Environment, from: nat, calls: seq<ToolCall>, i: nat): nat
    requires i <= |calls|
  {
    from + |FreeRuns(env, calls[..i])|
  }

  /** The first `n` calls of a batch have been answered, each by its own message. */
  predicate AnsweredCalls(env: Environment, s: Session, messages: seq<Message>, calls: seq<ToolCall>, n: nat) {
    && n <= |calls| && |messages| == |s.messages| + n && s.messages <= messages
    && forall i :: 0 <= i < n ==> AnswerTold(env, s, messages, calls, i)
  }

  predicate AnswerTold(env: Environment, s: Session, messages: seq<Message>, calls: seq<ToolCall>, i: nat) {
    && i < |calls| && |s.messages| + i < |messages| && !NeedsAsking(env, calls[i])
    && messages[|s.messages| + i] == ToolMessage(calls[i].id, messages[|s.messages| + i].content)
    && TellsCall(env, calls[i], RunsAt(env, |s.log|, calls, i), messages[|s.messages| + i].content)
  }

  predicate ShownCalls(env: Environment, s: Session, before: seq<Step>, steps: seq<Step>, calls: seq<ToolCall>, n: nat) {
    && n <= |calls| && |steps| == |before| + n && before <= steps
    && forall i :: 0 <= i < n ==> StepShown(env, s, before, steps, calls, i)
  }

  predicate StepShown(env: Environment, s: Session, before: seq<Step>, steps: seq<Step>, calls: seq<ToolCall>, i: nat) {
    && i < |calls| && |before| + i < |steps|
    && ShowsCall(env, calls[i], RunsAt(env, |s.log|, calls, i), steps[|before| + i])
  }

  /** Where a batch stops and what it has done by then, call by call. */
  predicate BatchTold(env: Environment, s: Session, calls: seq<ToolCall>, before: seq<Step>, b: Batch, n: nat) {
    && AnsweredCalls(env, s, b.session.messages, calls, n) && b.session.updated == s.updated
    && match b
       case Finished(after, steps) =>
         && n == |calls| && ShownCalls(env, s, before, steps, calls, n)
         && after.log == s.log + FreeRuns(env, calls) && after.pending == s.pending
       case Paused(after, steps, approval) =>
         && n < |calls| && NeedsAsking(env, calls[n]) && ShownCalls(env, s, before, steps, calls, n)
         && env.randomId(RunsAt(env, |s.log|, calls, n)) == Some(approval.id)
         && approval == Approval(approval.id, calls[n].name, env.specs[calls[n].name].approvalSummary, calls[n].arguments)
         && after.log == s.log + FreeRuns(env, calls[..n]) + [Suspended(approval.id, calls[n])]
         && after.pending == Some(Pending(approval, calls[n], calls[n + 1..]))
       case Failed(after) =>
         && n < |calls| && NeedsAsking(env, calls[n]) && env.randomId(RunsAt(env, |s.log|, calls, n)).None?
         && after.log == s.log + FreeRuns(env, calls[..n]) + [IdRefused] && after.pending == s.pending
  }

  /** A batch answers its calls one by one, each by what became of it, and stops at the first that needs
      approval: suspended under a new ID with the calls behind it, or failed for want of one. */
  lemma {:induction false} BatchTells(env: Environment, s: Session, calls: seq<ToolCall>, before: seq<Step>) returns (n: nat)
    ensures BatchTold(env, s, calls, before, ProcessCalls(env, s, calls, before), n)
    decreases |calls|
  {
    if calls == [] {
      n := 0;
      return;
    }
    var call, behind := calls[0], calls[1..];
    match HandleCall(env, s, call, behind) {
      case Answers(next, step) =>
        var k := BatchTells(env, next, behind, before + [step]);
        n := k + 1;
        FirstTells(env, s, calls, next, step);
        OneCallMore(env, s, calls, before, next, step, ProcessCalls(env, next, behind, before + [step]), k);
      case Suspends(_, _) => n := 0;
      case Refused(_) => n := 0;
    }
  }

  lemma RunsBehind(env: Environment, calls: seq<ToolCall>, i: nat)
    requires 0 < i <= |calls|
    ensures FreeRuns(env, calls[..i]) ==
            (if RunsFreely(env, calls[0]) then [Executed(calls[0], None)] else []) + FreeRuns(env, calls[1..][..i - 1])
  {
    assert calls[..i][1..] == calls[1..][..i - 1];
  }

  /** The first call has been answered. */
  predicate FirstAnswered(env: Environment, s: Session, calls: seq<ToolCall>, next: Session, step: Step) {
    && calls != [] && |next.messages| == |s.messages| + 1 && s.messages <= next.messages
    && AnswerTold(env, s, next.messages, calls, 0) && ShowsCall(env, calls[0], |s.log|, step)
    && next.log == s.log + FreeRuns(env, calls[..1]) && next.pending == s.pending && next.updated == s.updated
  }

  lemma FirstTells(env: Environment, s: Session, calls: seq<ToolCall>, next: Session, step: Step)
    requires calls != [] && HandleCall(env, s, calls[0], calls[1..]) == Answers(next, step)
    ensures FirstAnswered(env, s, calls, next, step)
  {
    RunsBehind(env, calls, 1);
    assert calls[..0] == [] && calls[1..][..0] == [];
  }

  lemma RunsShift(env: Environment, s: Session, calls: seq<ToolCall>, next: Session, step: Step, i: nat)
    requires FirstAnswered(env, s, calls, next, step) && 0 < i <= |calls|
    ensures RunsAt(env, |s.log|, calls, i) == RunsAt(env, |next.log|, calls[1..], i - 1)
    ensures s.log + FreeRuns(env, calls[..i]) == next.log + FreeRuns(env, calls[1..][..i - 1])
  {
    RunsBehind(env, calls, i);
    RunsBehind(env, calls, 1);
    assert calls[1..][..0] == [];
  }

  lemma AnswersMore(
      env: Environment, s: Session, calls: seq<ToolCall>, next: Session, step: Step, messages: seq<Message>, k: nat)
    requires FirstAnswered(env, s, calls, next, step) && AnsweredCalls(env, next, messages, calls[1..], k)
    ensures AnsweredCalls(env, s, messages, calls, k + 1)
  {
    forall i | 0 <= i < k + 1
      ensures AnswerTold(env, s, messages, calls, i)
    {
      if i > 0 {
        RunsShift(env, s, calls, next, step, i);
        assert AnswerTold(env, next, messages, calls[1..], i - 1);
      } else {
        assert messages[|s.messages|] == next.messages[|s.messages|];
      }
    }
  }

  lemma StepsMore(
      env: Environment, s: Session, calls: seq<ToolCall>, next: Session, step: Step, before: seq<Step>, steps: seq<Step>, k: nat)
    requires FirstAnswered(env, s, calls, next, step)
    requires ShownCalls(env, next, before + [step], steps, calls[1..], k)
    ensures ShownCalls(env, s, before, steps, calls, k + 1)
  {
    forall i | 0 <= i < k + 1
      ensures StepShown(env, s, before, steps, calls, i)
    {
      if i > 0 {
        RunsShift(env, s, calls, next, step, i);
        assert StepShown(env, next, before + [step], steps, calls[1..], i - 1);
      } else {
        assert calls[..0] == [] && steps[|before|] == (before + [step])[|before|];
      }
    }
  }

  lemma OneCallMore(
      env: Environment, s: Session, calls: seq<ToolCall>, before: seq<Step>, next: Session, step: Step, b: Batch, k: nat)
    requires FirstAnswered(env, s, calls, next, step) && BatchTold(env, next, calls[1..], before + [step], b, k)
    ensures BatchTold(env, s, calls, before, b, k + 1)
  {
    AnswersMore(env, s, calls, next, step, b.session.messages, k);
    if !b.Failed? {
      StepsMore(env, s, calls, next, step, before, b.steps, k);
    }
    RunsShift(env, s, calls, next, step, k + 1);
    assert calls[..|calls|] == calls && calls[1..][..|calls| - 1] == calls[1..];
  }

  // ---- Rounds and their end --------------------------------------------------------------

  /** The session once a usable reply has come back. */
  function WithReply(env: Environment, s: Session, reply: Message): Session {
    Session(s.messages + [reply], s.pending, env.now(|s.log| + 1), s.log + [Consulted])
  }

  /** The model's next reply can be used as it is. */
  predicate Replies(env: Environment, s: Session, reply: Message) {
    env.complete(|s.log|) == Replied(reply) && Acceptable(reply)
  }

  predicate NoReplyComes(env: Environment, s: Session) {
    env.complete(|s.log|).Replied? ==> !Acceptable(env.complete(|s.log|).message)
  }

  /** One full round: a reply asks for tools and every call of it is answered. */
  predicate RoundTold(env: Environment, s: Session, before: seq<Step>, next: Session, steps: seq<Step>) {
    && env.complete(|s.log|).Replied?
    && var reply := env.complete(|s.log|).message;
    && Replies(env, s, reply) && reply.toolCalls != []
    && BatchTold(env, WithReply(env, s, reply), reply.toolCalls, before, Finished(next, steps), |reply.toolCalls|)
  }

  /** A text answer: what the model said, without the white space around it, with the history settled. */
  predicate TextTold(env: Environment, id: string, s: Session, steps: seq<Step>, after: Session, r: TurnResult) {
    && env.complete(|s.log|).Replied?
    && var reply := env.complete(|s.log|).message;
    && Replies(env, s, reply) && reply.toolCalls == [] && TrimSpace(reply.content) != ""
    && r == Ok(TurnResponse(id, ModelText(TrimSpace(reply.content)), steps, None, true))
    && after == WithReply(env, s, reply).(messages := Compacted(s.messages + [reply]))
  }

  /** A reply whose calls stop half way: at one that needs approval, or for want of an ID. */
  predicate StopTold(
      env: Environment, id: string, s: Session, before: seq<Step>, after: Session, r: TurnResult, b: Batch, n: nat)
  {
    && env.complete(|s.log|).Replied?
    && var reply := env.complete(|s.log|).message;
    && Replies(env, s, reply) && BatchTold(env, WithReply(env, s, reply), reply.toolCalls, before, b, n)
    && !b.Finished? && after == b.session
    && r == if b.Failed? then Err(IdUnavailable) else Ok(TurnResponse(id, NoReply, b.steps, Some(b.approval), false))
  }

  /** An end in one of the first twelve rounds. */
  predicate RoundEnds(
      env: Environment, id: string, s: Session, before: seq<Step>, after: Session, r: TurnResult, b: Batch, n: nat)
  {
    || (NoReplyComes(env, s) && r == Err(ModelUnavailable) && after == s.(log := s.log + [Consulted]))
    || (&& env.complete(|s.log|).Replied? && Replies(env, s, env.complete(|s.log|).message)
        && env.complete(|s.log|).message.toolCalls == [] && TrimSpace(env.complete(|s.log|).message.content) == ""
        && r == Err(EmptyReply) && after == WithReply(env, s, env.complete(|s.log|).message))
    || TextTold(env, id, s, before, after, r)
    || StopTold(env, id, s, before, after, r, b, n)
  }

  function Failures(steps: seq<Step>): set<nat> {
    set i: nat | i < |steps| && !steps[i].success
  }

  lemma {:induction false} FailuresCounted(steps: seq<Step>)
    ensures FailedSteps(steps) == |Failures(steps)|
  {
    if steps != [] {
      var front, last := steps[..|steps| - 1], |steps| - 1;
      FailuresCounted(front);
      assert Failures(steps) == if steps[last].success then Failures(front) else Failures(front) + {last};
    }
  }

  /** The end after twelve full rounds, in which nothing but a text will do. */
  predicate LimitEnds(env: Environment, id: string, s: Session, before: seq<Step>, after: Session, r: TurnResult) {
    if env.complete(|s.log|) == Cancelled then r == Err(ModelUnavailable) && after == s.(log := s.log + [Consulted])
    else
      || TextTold(env, id, s, before, after, r)
      || (&& (NoReplyComes(env, s) || env.complete(|s.log|).message.toolCalls != []
              || TrimSpace(env.complete(|s.log|).message.content) == "")
          && after == s.(log := s.log + [Consulted], messages := Compacted(s.messages))
          && r == Ok(TurnResponse(id, BudgetSummary(|before|, |Failures(before)|), before, None, true)))
  }

  /** From `s` on: full rounds through `states`, with the steps shown so far, and an end. */
  predicate RoundsTold(
      env: Environment, id: string, states: seq<Session>, shown: seq<seq<Step>>, from: nat, after: Session, r: TurnResult,
      b: Batch, n: nat)
  {
    && |states| == |shown| > 0 && from + |states| - 1 <= 12
    && (forall k :: 0 <= k < |states| - 1 ==> RoundTold(env, states[k], shown[k], states[k + 1], shown[k + 1]))
    && if from + |states| - 1 < 12
       then RoundEnds(env, id, states[|states| - 1], shown[|states| - 1], after, r, b, n)
       else LimitEnds(env, id, states[|states| - 1], shown[|states| - 1], after, r)
  }

  /** One of the first twelve rounds: it is full and the next one follows, or it is the end. */
  lemma RoundTells(env: Environment, id: string, s: Session, steps: seq<Step>, round: nat) returns (b: Batch, n: nat)
    requires round < MAX_AGENT_ROUNDS
    ensures var (after, r) := Continue(env, id, s, steps, round);
      || RoundEnds(env, id, s, steps, after, r, b, n)
      || (&& b.Finished? && RoundTold(env, s, steps, b.session, b.steps)
          && (after, r) == Continue(env, id, b.session, b.steps, round + 1))
  {
    b, n := Failed(s), 0;
    if Usable(env.complete(|s.log|)).Some? {
      var reply := env.complete(|s.log|).message;
      if reply.toolCalls != [] {
        n := BatchTells(env, WithReply(env, s, reply), reply.toolCalls, steps);
        b := ProcessCalls(env, WithReply(env, s, reply), reply.toolCalls, steps);
      }
    }
  }

  /** The rounds of a turn, from any of them on, are told by the environment's answers alone. */
  lemma {:induction false} ContinueTells(env: Environment, id: string, s: Session, steps: seq<Step>, round: nat)
    returns (states: seq<Session>, shown: seq<seq<Step>>, b: Batch, n: nat)
    requires round <= MAX_AGENT_ROUNDS
    ensures var (after, r) := Continue(env, id, s, steps, round);
      RoundsTold(env, id, states, shown, round, after, r, b, n) && states[0] == s && shown[0] == steps
    decreases MAX_AGENT_ROUNDS - round
  {
    states, shown := [s], [steps];
    if round == MAX_AGENT_ROUNDS {
      b, n := Failed(s), 0;
      LimitTells(env, id, s, steps);
    } else {
      var (after, r) := Continue(env, id, s, steps, round);
      b, n := RoundTells(env, id, s, steps, round);
      if !RoundEnds(env, id, s, steps, after, r, b, n) {
        var later, laterShown;
        var next, nextShown := b.session, b.steps;
        later, laterShown, b, n := ContinueTells(env, id, next, nextShown, round + 1);
        states, shown := [s] + later, [steps] + laterShown;
        RoundBefore(env, s, steps, later, laterShown);
      }
    }
  }

  lemma RoundBefore(env: Environment, s: Session, steps: seq<Step>, later: seq<Session>, shown: seq<seq<Step>>)
    requires |later| == |shown| > 0 && RoundTold(env, s, steps, later[0], shown[0])
    requires forall k :: 0 <= k < |later| - 1 ==> RoundTold(env, later[k], shown[k], later[k + 1], shown[k + 1])
    ensures var states, all := [s] + later, [steps] + shown;
      forall k :: 0 <= k < |states| - 1 ==> RoundTold(env, states[k], all[k], states[k + 1], all[k + 1])
  {
    var states, all := [s] + later, [steps] + shown;
    forall k | 0 <= k < |states| - 1
      ensures RoundTold(env, states[k], all[k], states[k + 1], all[k + 1])
    {
      if k > 0 {
        assert states[k] == later[k - 1] && states[k + 1] == later[k] && all[k] == shown[k - 1] && all[k + 1] == shown[k];
      }
    }
  }

  lemma LimitTells(env: Environment, id: string, s: Session, steps: seq<Step>)
    ensures var (after, r) := FinalizeAtRoundLimit(env, id, s, steps);
      LimitEnds(env, id, s, steps, after, r)
  {
    FailuresCounted(steps);
  }

  // ---- Operations ------------------------------------------------------------------------

  /** How a run of rounds goes: the sessions and steps between them, and where the last one stops. */
  datatype Course = Course(states: seq<Session>, shown: seq<seq<Step>>, stop: Batch, at: nat)

  predicate CourseTold(
      env: Environment, id: string, s: Session, steps: seq<Step>, after: Session, r: TurnResult, c: Course)
  {
    && RoundsTold(env, id, c.states, c.shown, 0, after, r, c.stop, c.at)
    && c.states[0] == s && c.shown[0] == steps
  }

  /** A turn: the trimmed message joins the history, and the rounds follow. */
  predicate TurnTold(
      env: Environment, id: string, s: Session, message: string, after: Session, r: TurnResult, c: Course)
  {
    var text := TrimSpace(message);
    if text == "" || Utf8Length(text) > 8192 || '\0' in text then
      after == s && r == Err(InvalidMessage)
    else if s.pending.Some? then after == s && r == Err(ApprovalPending)
    else
      var asked := Session(s.messages + [Message(User, text, "", [], [])], None, env.now(|s.log|), s.log);
      CourseTold(env, id, asked, [], after, r, c)
  }

  lemma TurnTells(env: Environment, id: string, s: Session, message: string) returns (c: Course)
    ensures var (after, r) := Turn(env, id, s, message);
      TurnTold(env, id, s, message, after, r, c)
  {
    var text := TrimSpace(message);
    c := Course([], [], Failed(s), 0);
    if ValidUserMessage(text) && s.pending.None? {
      var states, shown, b, n := ContinueTells(env, id, Asked(env, s, text), [], 0);
      c := Course(states, shown, b, n);
    }
  }

  /** The pending call is taken: run as it was approved, or refused. */
  predicate SettleTold(env: Environment, s: Session, p: Pending, approved: bool, next: Session, step: Step) {
    && |next.messages| == |s.messages| + 1
    && var content := next.messages[|s.messages|].content;
    && next.messages == s.messages + [ToolMessage(p.call.id, content)]
    && next.pending.None? && next.updated == s.updated && step.tool == p.call.name
    && if approved then
         && next.log == s.log + [Resolved(p.approval.id, true), Executed(p.call, Some(p.approval.id))]
         && TellsOutcome(content, env.execute(|s.log| + 1))
         && step == Step(p.call.name, p.approval.summary, env.execute(|s.log| + 1).error.None?)
       else
         && next.log == s.log + [Resolved(p.approval.id, false)]
         && content == DENIED_CONTENT && !step.success
  }

  /** The fixed summary when the model cannot give one. */
  predicate SummaryTold(id: string, s: Session, steps: seq<Step>, approved: bool, step: Step, after: Session, r: TurnResult) {
    && after == s.(messages := Compacted(s.messages))
    && r == Ok(TurnResponse(id, if !approved then DeniedFallback else if step.success then ExecutedFallback else FailedFallback,
                            steps, None, true))
  }

  /** What follows the settled call: the calls behind it, and the rounds. */
  predicate ResumeTold(
      env: Environment, id: string, s: Session, step: Step, remaining: seq<ToolCall>, approved: bool,
      after: Session, r: TurnResult, b: Batch, n: nat, end: (Session, TurnResult), c: Course)
  {
    && BatchTold(env, s, remaining, [step], b, n)
    && match b
       case Failed(session) => SummaryTold(id, session, [step], approved, step, after, r)
       case Paused(session, steps, approval) =>
         after == session && r == Ok(TurnResponse(id, NoReply, steps, Some(approval), false))
       case Finished(session, steps) =>
         && CourseTold(env, id, session, steps, end.0, end.1, c)
         && if end.1.Ok? then (after, r) == end else SummaryTold(id, end.0, steps, approved, step, after, r)
  }

  lemma ResumeTells(env: Environment, id: string, s: Session, step: Step, remaining: seq<ToolCall>, approved: bool)
    returns (b: Batch, n: nat, end: (Session, TurnResult), c: Course)
    ensures var (after, r) := Resume(env, id, s, step, remaining, approved);
      ResumeTold(env, id, s, step, remaining, approved, after, r, b, n, end, c)
  {
    n := BatchTells(env, s, remaining, [step]);
    b := ProcessCalls(env, s, remaining, [step]);
    end, c := (s, Err(IdUnavailable)), Course([], [], b, 0);
    if b.Finished? {
      var states, shown, stop, at := ContinueTells(env, id, b.session, b.steps, 0);
      end, c := Continue(env, id, b.session, b.steps, 0), Course(states, shown, stop, at);
    }
    assert b.Finished? ==> [step] <= b.steps && b.steps[0] == step;
  }

  lemma SettleTells(env: Environment, s: Session, p: Pending, approved: bool) returns (next: Session, step: Step)
    ensures (next, step) == Settled(env, s, p, approved) && SettleTold(env, s, p, approved, next, step)
  {
    next, step := Settled(env, s, p, approved).0, Settled(env, s, p, approved).1;
  }

  /** An approval: an ID that is not the pending one changes nothing; otherwise the call is settled and the
      rest of its batch and the rounds follow. */
  lemma ResolveTells(env: Environment, id: string, s: Session, approvalId: string, approved: bool)
    returns (settled: Session, step: Step, b: Batch, n: nat, end: (Session, TurnResult), c: Course)
    ensures var (after, r) := ResolveApproval(env, id, s, approvalId, approved);
      if s.pending.None? || s.pending.value.approval.id != approvalId then after == s && r == Err(NoSuchApproval)
      else
        && SettleTold(env, s, s.pending.value, approved, settled, step)
        && ResumeTold(env, id, settled, step, s.pending.value.remaining, approved, after, r, b, n, end, c)
  {
    settled, step, b, n := s, Step("", "", false), Failed(s), 0;
    end, c := (s, Err(NoSuchApproval)), Course([], [], b, 0);
    if s.pending.Some? && s.pending.value.approval.id == approvalId {
      settled, step := SettleTells(env, s, s.pending.value, approved);
      b, n, end, c := ResumeTells(env, id, settled, step, s.pending.value.remaining, approved);
    }
  }

  // ---- Replies ---------------------------------------------------------------------------

  /** A text reply is the last message of the session: the model's, without calls, and not blank. */
  predicate SpeaksLast(after: Session, r: TurnResult) {
    r.Ok? && r.value.reply.ModelText? ==>
      && after.messages != []
      && var last := after.messages[|after.messages| - 1];
      && last.role == Assistant && last.toolCalls == []
      && r.value.reply.text == TrimSpace(last.content) && r.value.reply.text != ""
  }

  lemma CourseSpeaks(env: Environment, id: string, s: Session, steps: seq<Step>, after: Session, r: TurnResult, c: Course)
    requires CourseTold(env, id, s, steps, after, r, c)
    ensures SpeaksLast(after, r)
  {
    if r.Ok? && r.value.reply.ModelText? {
      var k := |c.states| - 1;
      EndIsText(env, id, c.states[k], c.shown[k], after, r, c);
      TextSpeaks(env, id, c.states[k], c.shown[k], after, r);
    }
  }

  lemma EndIsText(env: Environment, id: string, s: Session, steps: seq<Step>, after: Session, r: TurnResult, c: Course)
    requires r.Ok? && r.value.reply.ModelText?
    requires RoundEnds(env, id, s, steps, after, r, c.stop, c.at) || LimitEnds(env, id, s, steps, after, r)
    ensures TextTold(env, id, s, steps, after, r)
  {
  }

  lemma TextSpeaks(env: Environment, id: string, s: Session, steps: seq<Step>, after: Session, r: TurnResult)
    requires TextTold(env, id, s, steps, after, r)
    ensures SpeaksLast(after, r)
  {
    CompactionBound(s.messages + [env.complete(|s.log|).message]);
  }

  /** Over every operation: whenever the answer is the model's text, it is the trimmed content of the last
      message of the session, an assistant message without calls, and it is not empty. */
  lemma ReplyIsLastMessage(env: Environment, id: string, s: Session, op: Operation)
    ensures var (after, r) := Apply(env, id, s, op);
      SpeaksLast(after, r)
  {
    var (after, r) := Apply(env, id, s, op);
    match op {
      case TurnOp(message) =>
        var c := TurnTells(env, id, s, message);
        if r.Ok? {
          CourseSpeaks(env, id, c.states[0], [], after, r, c);
        }
      case ResolveOp(approvalId, approved) =>
        var settled, step, b, n, end, c := ResolveTells(env, id, s, approvalId, approved);
        if r.Ok? && b.Finished? && end.1.Ok? {
          CourseSpeaks(env, id, b.session, b.steps, after, r, c);
        }
    }
  }

  /** If the model answers at once, with an acceptable reply without calls that is not blank: the turn
      succeeds with exactly that text, and the history has gained the trimmed message and that reply. */
  lemma PlainAnswer(env: Environment, id: string, s: Session, message: string, reply: Message)
    requires ValidUserMessage(TrimSpace(message)) && s.pending.None?
    requires env.complete(|s.log|) == Replied(reply) && Acceptable(reply)
    requires reply.toolCalls == [] && TrimSpace(reply.content) != ""
    ensures var (after, r) := Turn(env, id, s, message);
      && r == Ok(TurnResponse(id, ModelText(TrimSpace(reply.content)), [], None, true))
      && after.messages == Compacted(s.messages + [Message(User, TrimSpace(message), "", [], []), reply])
      && after.pending.None? && after.log == s.log + [Consulted]
  {
    var c := TurnTells(env, id, s, message);
    assert s.messages + [Message(User, TrimSpace(message), "", [], [])] + [reply] ==
           s.messages + [Message(User, TrimSpace(message), "", [], []), reply];
    assert |c.states| > 1 ==> RoundTold(env, c.states[0], c.shown[0], c.states[1], c.shown[1]);
  }
}
