/**
 Where every message of a session comes from: over every run of turns and approvals, user messages were
 asked, assistant messages are what the model replied, and each tool message tells what became of the very
 call it answers.
 */
module AgentTruth {
  import opened Wrappers
  import opened Text
  import opened Runs
  import opened AgentModel
  import opened AgentEngine
  import opened AgentHistory
  import opened AgentBudget
  import opened AgentAnswers

  // ---- What is true of a history -----------------------------------------------------------

  predicate ToolsSince(messages: seq<Message>, a: nat, i: nat) {
    i <= |messages| && forall j :: a < j < i ==> messages[j].role == Tool
  }

  /** `content` tells what became of the call: it was unknown, its arguments were no JSON, it ran, with its
      approval if it needs one, or the user refused it. */
  ghost predicate TrueAnswer(env: Environment, log: seq<Event>, call: ToolCall, content: string) {
    if call.name !in env.specs then content == UNKNOWN_TOOL_CONTENT
    else if !env.isJsonObject(call.arguments) then content == BAD_ARGUMENTS_CONTENT
    else if !env.specs[call.name].requiresApproval then
      exists k :: 0 <= k < |log| && log[k] == Executed(call, None) && TellsOutcome(content, env.execute(k))
    else
      || (exists k, id :: 0 <= k < |log| && log[k] == Executed(call, Some(id)) && TellsOutcome(content, env.execute(k)))
      || (content == DENIED_CONTENT && exists k, id :: 0 <= k < |log| && log[k] == Resolved(id, false))
  }

  /** Message `i` answers its own call of the assistant message at `a`, the last one before it. */
  ghost predicate Answers(env: Environment, log: seq<Event>, messages: seq<Message>, a: nat, i: nat) {
    && a < i < |messages| && Covers(messages, a, i) && ToolsSince(messages, a, i)
    && var call := messages[a].toolCalls[i - a - 1];
    && messages[i] == ToolMessage(call.id, messages[i].content)
    && TrueAnswer(env, log, call, messages[i].content)
  }

  ghost predicate TrueMessage(env: Environment, asked: string -> bool, log: seq<Event>, messages: seq<Message>, i: nat)
    requires i < |messages|
  {
    match messages[i].role
    case User => asked(messages[i].content) && messages[i] == UserMessage(messages[i].content)
    case Assistant =>
      Acceptable(messages[i])
      && exists k :: 0 <= k < |log| && log[k] == Consulted && env.complete(k) == Replied(messages[i])
    case Tool => exists a: nat :: Answers(env, log, messages, a, i)
    case _ => false
  }

  ghost predicate TrueMessages(env: Environment, asked: string -> bool, log: seq<Event>, messages: seq<Message>) {
    forall i :: 0 <= i < |messages| ==> TrueMessage(env, asked, log, messages, i)
  }

  /** `calls` are those of the assistant message at `a` that have no answer yet. */
  predicate Unanswered(messages: seq<Message>, a: nat, calls: seq<ToolCall>) {
    && a < |messages| && messages[a].role == Assistant && ToolsSince(messages, a, |messages|)
    && |messages| - a - 1 <= |messages[a].toolCalls| && calls == messages[a].toolCalls[|messages| - a - 1..]
  }

  ghost predicate TruePending(env: Environment, s: Session) {
    s.pending.Some? ==>
      && NeedsAsking(env, s.pending.value.call)
      && exists a: nat :: Unanswered(s.messages, a, [s.pending.value.call] + s.pending.value.remaining)
  }

  ghost predicate TrueSession(env: Environment, asked: string -> bool, s: Session) {
    TrueMessages(env, asked, s.log, s.messages) && TruePending(env, s)
  }

  // ---- Growing and cutting -----------------------------------------------------------------

  lemma AnswersLater(
      env: Environment, log: seq<Event>, later: seq<Event>, messages: seq<Message>, more: seq<Message>, a: nat, i: nat)
    requires Answers(env, log, messages, a, i) && log <= later && messages <= more
    ensures Answers(env, later, more, a, i)
  {
    var call, content := messages[a].toolCalls[i - a - 1], messages[i].content;
    if k :| 0 <= k < |log| && log[k] == Executed(call, None) && TellsOutcome(content, env.execute(k)) {
      assert later[k] == log[k];
    }
    if k, id :| 0 <= k < |log| && log[k] == Executed(call, Some(id)) && TellsOutcome(content, env.execute(k)) {
      assert later[k] == log[k];
    }
    if k, id :| 0 <= k < |log| && log[k] == Resolved(id, false) {
      assert later[k] == log[k];
    }
  }

  lemma TrueLater(
      env: Environment, asked: string -> bool, log: seq<Event>, later: seq<Event>, messages: seq<Message>,
      more: seq<Message>, i: nat)
    requires i < |messages| && TrueMessage(env, asked, log, messages, i) && log <= later && messages <= more
    ensures TrueMessage(env, asked, later, more, i)
  {
    match messages[i].role {
      case Assistant =>
        var k :| 0 <= k < |log| && log[k] == Consulted && env.complete(k) == Replied(messages[i]);
        assert later[k] == log[k];
      case Tool =>
        var a: nat :| Answers(env, log, messages, a, i);
        AnswersLater(env, log, later, messages, more, a, i);
      case _ =>
    }
  }

  /** New messages that are true join the others. */
  lemma TrueGrows(
      env: Environment, asked: string -> bool, log: seq<Event>, later: seq<Event>, messages: seq<Message>, more: seq<Message>)
    requires TrueMessages(env, asked, log, messages) && log <= later && messages <= more
    requires forall i :: |messages| <= i < |more| ==> TrueMessage(env, asked, later, more, i)
    ensures TrueMessages(env, asked, later, more)
  {
    forall i | 0 <= i < |more|
      ensures TrueMessage(env, asked, later, more, i)
    {
      if i < |messages| {
        TrueLater(env, asked, log, later, messages, more, i);
      }
    }
  }

  lemma TrueCut(env: Environment, asked: string -> bool, log: seq<Event>, messages: seq<Message>, from: nat)
    requires TrueMessages(env, asked, log, messages) && from < |messages| && messages[from].role == User
    ensures TrueMessages(env, asked, log, messages[from..])
  {
    var cut := messages[from..];
    forall i | 0 <= i < |cut|
      ensures TrueMessage(env, asked, log, cut, i)
    {
      assert TrueMessage(env, asked, log, messages, from + i);
      if cut[i].role == Tool {
        var a: nat :| Answers(env, log, messages, a, from + i);
        assert messages[from].role != Tool && a >= from;
        assert Answers(env, log, cut, a - from, i);
      }
    }
  }

  lemma CompactedIsTrue(env: Environment, asked: string -> bool, log: seq<Event>, messages: seq<Message>)
    requires TrueMessages(env, asked, log, messages)
    ensures TrueMessages(env, asked, log, Compacted(messages))
  {
    CompactionBound(messages);
    var k := |messages| - |Compacted(messages)|;
    if |messages| > MAX_SESSION_MESSAGES && Compactable(messages) {
      assert Compacted(messages)[0] == messages[k];
      TrueCut(env, asked, log, messages, k);
    } else {
      assert Compacted(messages) == messages;
    }
  }

  // ---- Batches -----------------------------------------------------------------------------

  /** Where the run of a call stands among those of its batch. */
  lemma {:induction false} RunIsAt(env: Environment, calls: seq<ToolCall>, i: nat, n: nat)
    requires i < n <= |calls| && RunsFreely(env, calls[i])
    ensures var at := |FreeRuns(env, calls[..i])|;
      at < |FreeRuns(env, calls[..n])| && FreeRuns(env, calls[..n])[at] == Executed(calls[i], None)
  {
    RunsBehind(env, calls, n);
    if i > 0 {
      RunsBehind(env, calls, i);
      RunIsAt(env, calls[1..], i - 1, n - 1);
    }
  }

  /** One answered call of a batch is a true message. */
  lemma AnswerIsTrue(
      env: Environment, asked: string -> bool, s: Session, log: seq<Event>, messages: seq<Message>, calls: seq<ToolCall>,
      n: nat, a: nat, i: nat)
    requires Unanswered(s.messages, a, calls) && AnsweredCalls(env, s, messages, calls, n) && i < n
    requires s.log + FreeRuns(env, calls[..n]) <= log
    ensures TrueMessage(env, asked, log, messages, |s.messages| + i)
  {
    assert AnswerTold(env, s, messages, calls, i);
    var at := |s.messages| + i;
    if RunsFreely(env, calls[i]) {
      RunIsAt(env, calls, i, n);
      var k := |s.log| + |FreeRuns(env, calls[..i])|;
      assert log[k] == (s.log + FreeRuns(env, calls[..n]))[k];
      assert log[k] == Executed(calls[i], None);
    }
    assert TrueAnswer(env, log, calls[i], messages[at].content);
    forall j | a < j < at
      ensures messages[j].role == Tool
    {
      if j >= |s.messages| {
        assert AnswerTold(env, s, messages, calls, j - |s.messages|);
      }
    }
    assert Answers(env, log, messages, a, at);
  }

  lemma BatchIsTrue(
      env: Environment, asked: string -> bool, s: Session, calls: seq<ToolCall>, before: seq<Step>, b: Batch, n: nat, a: nat)
    requires TrueMessages(env, asked, s.log, s.messages) && s.pending.None? && Unanswered(s.messages, a, calls)
    requires BatchTold(env, s, calls, before, b, n)
    ensures TrueSession(env, asked, b.session)
    ensures !b.Paused? ==> b.session.pending.None?
  {
    var messages, log := b.session.messages, b.session.log;
    assert calls[..|calls|] == calls;
    forall i | |s.messages| <= i < |messages|
      ensures TrueMessage(env, asked, log, messages, i)
    {
      AnswerIsTrue(env, asked, s, log, messages, calls, n, a, i - |s.messages|);
    }
    TrueGrows(env, asked, s.log, log, s.messages, messages);
    if b.Paused? {
      PauseIsTrue(env, s, calls, messages, n, a);
    }
  }

  lemma PauseIsTrue(env: Environment, s: Session, calls: seq<ToolCall>, messages: seq<Message>, n: nat, a: nat)
    requires Unanswered(s.messages, a, calls) && AnsweredCalls(env, s, messages, calls, n) && n < |calls|
    ensures Unanswered(messages, a, [calls[n]] + calls[n + 1..])
  {
    forall j | a < j < |messages|
      ensures messages[j].role == Tool
    {
      if j >= |s.messages| {
        assert AnswerTold(env, s, messages, calls, j - |s.messages|);
      }
    }
  }

  // ---- Rounds ------------------------------------------------------------------------------

  lemma ReplyIsTrue(env: Environment, asked: string -> bool, s: Session, reply: Message)
    requires TrueMessages(env, asked, s.log, s.messages) && Replies(env, s, reply)
    ensures var v := WithReply(env, s, reply);
      TrueMessages(env, asked, v.log, v.messages) && Unanswered(v.messages, |s.messages|, reply.toolCalls)
  {
    var v := WithReply(env, s, reply);
    assert v.log[|s.log|] == Consulted;
    TrueGrows(env, asked, s.log, v.log, s.messages, v.messages);
  }

  /** A session between two rounds. */
  ghost predicate Between(env: Environment, asked: string -> bool, s: Session) {
    TrueMessages(env, asked, s.log, s.messages) && s.pending.None?
  }

  lemma RoundIsTrue(
      env: Environment, asked: string -> bool, s: Session, before: seq<Step>, next: Session, steps: seq<Step>)
    requires Between(env, asked, s) && RoundTold(env, s, before, next, steps)
    ensures Between(env, asked, next)
  {
    var reply := env.complete(|s.log|).message;
    ReplyIsTrue(env, asked, s, reply);
    BatchIsTrue(env, asked, WithReply(env, s, reply), reply.toolCalls, before, Finished(next, steps),
                |reply.toolCalls|, |s.messages|);
  }

  lemma {:induction false} RoundsAreTrue(
      env: Environment, asked: string -> bool, states: seq<Session>, shown: seq<seq<Step>>, k: nat)
    requires |states| == |shown| && k < |states| && Between(env, asked, states[0])
    requires forall i :: 0 <= i < |states| - 1 ==> RoundTold(env, states[i], shown[i], states[i + 1], shown[i + 1])
    ensures Between(env, asked, states[k])
  {
    if k > 0 {
      RoundsAreTrue(env, asked, states, shown, k - 1);
      RoundIsTrue(env, asked, states[k - 1], shown[k - 1], states[k], shown[k]);
    }
  }

  lemma TextIsTrue(
      env: Environment, asked: string -> bool, id: string, s: Session, steps: seq<Step>, after: Session, r: TurnResult)
    requires Between(env, asked, s) && TextTold(env, id, s, steps, after, r)
    ensures Between(env, asked, after)
  {
    var reply := env.complete(|s.log|).message;
    ReplyIsTrue(env, asked, s, reply);
    CompactedIsTrue(env, asked, after.log, s.messages + [reply]);
  }

  lemma ConsultIsTrue(env: Environment, asked: string -> bool, s: Session)
    requires Between(env, asked, s)
    ensures TrueMessages(env, asked, s.log + [Consulted], s.messages)
  {
    TrueGrows(env, asked, s.log, s.log + [Consulted], s.messages, s.messages);
  }

  lemma EndIsTrue(
      env: Environment, asked: string -> bool, id: string, s: Session, steps: seq<Step>, after: Session, r: TurnResult,
      b: Batch, n: nat)
    requires Between(env, asked, s) && RoundEnds(env, id, s, steps, after, r, b, n)
    ensures TrueSession(env, asked, after) && (r.Err? ==> after.pending.None?)
  {
    ConsultIsTrue(env, asked, s);
    if !NoReplyComes(env, s) {
      var reply := env.complete(|s.log|).message;
      ReplyIsTrue(env, asked, s, reply);
      if TextTold(env, id, s, steps, after, r) {
        TextIsTrue(env, asked, id, s, steps, after, r);
      } else if StopTold(env, id, s, steps, after, r, b, n) {
        BatchIsTrue(env, asked, WithReply(env, s, reply), reply.toolCalls, steps, b, n, |s.messages|);
      }
    }
  }

  lemma LimitIsTrue(
      env: Environment, asked: string -> bool, id: string, s: Session, steps: seq<Step>, after: Session, r: TurnResult)
    requires Between(env, asked, s) && LimitEnds(env, id, s, steps, after, r)
    ensures Between(env, asked, after)
  {
    ConsultIsTrue(env, asked, s);
    CompactedIsTrue(env, asked, s.log + [Consulted], s.messages);
    if TextTold(env, id, s, steps, after, r) {
      TextIsTrue(env, asked, id, s, steps, after, r);
    }
  }

  lemma CourseIsTrue(
      env: Environment, asked: string -> bool, id: string, s: Session, steps: seq<Step>, after: Session, r: TurnResult,
      c: Course)
    requires Between(env, asked, s) && CourseTold(env, id, s, steps, after, r, c)
    ensures TrueSession(env, asked, after) && (r.Err? ==> after.pending.None?)
  {
    var k := |c.states| - 1;
    RoundsAreTrue(env, asked, c.states, c.shown, k);
    if k < MAX_AGENT_ROUNDS {
      EndIsTrue(env, asked, id, c.states[k], c.shown[k], after, r, c.stop, c.at);
    } else {
      LimitIsTrue(env, asked, id, c.states[k], c.shown[k], after, r);
    }
  }

  // ---- Operations --------------------------------------------------------------------------

  lemma TurnIsTrue(env: Environment, asked: string -> bool, id: string, s: Session, message: string)
    requires TrueSession(env, asked, s) && asked(TrimSpace(message))
    ensures TrueSession(env, asked, Turn(env, id, s, message).0)
  {
    var (after, r) := Turn(env, id, s, message);
    var c := TurnTells(env, id, s, message);
    if ValidUserMessage(TrimSpace(message)) && s.pending.None? {
      var start := c.states[0];
      TrueGrows(env, asked, s.log, s.log, s.messages, start.messages);
      CourseIsTrue(env, asked, id, start, [], after, r, c);
    }
  }

  lemma SettledIsTrue(
      env: Environment, asked: string -> bool, s: Session, p: Pending, approved: bool, next: Session, step: Step)
    returns (a: nat)
    requires TrueSession(env, asked, s) && s.pending == Some(p) && SettleTold(env, s, p, approved, next, step)
    ensures Between(env, asked, next) && Unanswered(next.messages, a, p.remaining)
  {
    a :| Unanswered(s.messages, a, [p.call] + p.remaining);
    var i, content := |s.messages|, next.messages[|s.messages|].content;
    if approved {
      assert next.log[|s.log| + 1] == Executed(p.call, Some(p.approval.id));
    } else {
      assert next.log[|s.log|] == Resolved(p.approval.id, false);
    }
    assert TrueAnswer(env, next.log, p.call, content);
    assert ([p.call] + p.remaining)[0] == p.call && ([p.call] + p.remaining)[1..] == p.remaining;
    assert next.messages[a].toolCalls[i - a - 1] == p.call;
    assert Answers(env, next.log, next.messages, a, i);
    TrueGrows(env, asked, s.log, next.log, s.messages, next.messages);
  }

  lemma SummaryIsTrue(
      env: Environment, asked: string -> bool, id: string, s: Session, steps: seq<Step>, approved: bool, step: Step,
      after: Session, r: TurnResult)
    requires TrueSession(env, asked, s) && s.pending.None? && SummaryTold(id, s, steps, approved, step, after, r)
    ensures TrueSession(env, asked, after)
  {
    CompactedIsTrue(env, asked, s.log, s.messages);
  }

  lemma ResumeIsTrue(
      env: Environment, asked: string -> bool, id: string, s: Session, step: Step, remaining: seq<ToolCall>,
      approved: bool, after: Session, r: TurnResult, b: Batch, n: nat, end: (Session, TurnResult), c: Course, a: nat)
    requires Between(env, asked, s) && Unanswered(s.messages, a, remaining)
    requires ResumeTold(env, id, s, step, remaining, approved, after, r, b, n, end, c)
    ensures TrueSession(env, asked, after)
  {
    BatchIsTrue(env, asked, s, remaining, [step], b, n, a);
    match b {
      case Failed(session) => SummaryIsTrue(env, asked, id, session, [step], approved, step, after, r);
      case Paused(_, _, _) =>
      case Finished(session, steps) =>
        CourseIsTrue(env, asked, id, session, steps, end.0, end.1, c);
        if end.1.Err? {
          SummaryIsTrue(env, asked, id, end.0, steps, approved, step, after, r);
        }
    }
  }

  lemma ResolveIsTrue(
      env: Environment, asked: string -> bool, id: string, s: Session, approvalId: string, approved: bool)
    requires TrueSession(env, asked, s)
    ensures TrueSession(env, asked, ResolveApproval(env, id, s, approvalId, approved).0)
  {
    var (after, r) := ResolveApproval(env, id, s, approvalId, approved);
    var settled, step, b, n, end, c := ResolveTells(env, id, s, approvalId, approved);
    if s.pending.Some? && s.pending.value.approval.id == approvalId {
      var p := s.pending.value;
      var a := SettledIsTrue(env, asked, s, p, approved, settled, step);
      ResumeIsTrue(env, asked, id, settled, step, p.remaining, approved, after, r, b, n, end, c, a);
    }
  }

  /** In a true history a result's ID names one call of its message, the one it stands for. */
  lemma AnswerNamesItsCall(
      env: Environment, asked: string -> bool, log: seq<Event>, messages: seq<Message>, a: nat, i: nat, k: nat)
    requires TrueMessages(env, asked, log, messages) && Answers(env, log, messages, a, i)
    requires k < |messages[a].toolCalls| && messages[a].toolCalls[k].id == messages[i].toolCallId
    ensures k == i - a - 1
  {
    assert TrueMessage(env, asked, log, messages, a);
  }

  // ---- Every run ---------------------------------------------------------------------------

  /** Some turn of the run asked this. */
  predicate WasAsked(ops: seq<Operation>, text: string) {
    exists j :: 0 <= j < |ops| && ops[j].TurnOp? && TrimSpace(ops[j].message) == text
  }

  /** Over every run, refused IDs or not: every user message is the trimmed message of a turn, every
      assistant message is a reply of the model in answer to a logged consultation, and every tool message
      answers, by position, a call of the last assistant message before it, and tells what became of it. */
  lemma {:induction false} HistoryIsGenuine(env: Environment, id: string, ops: seq<Operation>, states: seq<Session>, n: nat)
    requires IsLife(env, id, ops, states) && n < |states|
    ensures TrueSession(env, text => WasAsked(ops, text), states[n])
  {
    var asked := text => WasAsked(ops, text);
    if n > 0 {
      HistoryIsGenuine(env, id, ops, states, n - 1);
      var s, op := states[n - 1], ops[n - 1];
      assert states[n] == Next(env, id)(s, op);
      match op {
        case TurnOp(message) =>
          assert asked(TrimSpace(message));
          TurnIsTrue(env, asked, id, s, message);
        case ResolveOp(approvalId, approved) => ResolveIsTrue(env, asked, id, s, approvalId, approved);
      }
    }
  }
}
