/**
 The history of a session keeps tool calls and tool results paired, over every run.

 Scan reads a history with the queue of calls still unanswered; PairedByIndex says the same
 by positions, without a queue. The engine keeps the queue equal to the suspended call
 followed by the calls behind it.
 */
module AgentHistory {
  import opened Wrappers
  import opened Text
  import opened AgentModel
  import opened AgentEngine
  import opened Runs

  function Advance(unanswered: seq<ToolCall>, m: Message): Option<seq<ToolCall>> {
    match m.role
    case Tool =>
      if unanswered != [] && unanswered[0].id == m.toolCallId then Some(unanswered[1..]) else None
    case Assistant => if unanswered == [] then Some(m.toolCalls) else None
    case _ => if unanswered == [] then Some([]) else None
  }

  /** The calls left unanswered by `messages`, or None where the pairing is broken. */
  function ScanFrom(unanswered: seq<ToolCall>, messages: seq<Message>): Option<seq<ToolCall>> {
    if messages == [] then Some(unanswered)
    else
      match ScanFrom(unanswered, messages[..|messages| - 1])
      case None => None
      case Some(left) => Advance(left, messages[|messages| - 1])
  }

  function Scan(messages: seq<Message>): Option<seq<ToolCall>> {
    ScanFrom([], messages)
  }

  lemma {:induction false} ScanAppend(unanswered: seq<ToolCall>, a: seq<Message>, b: seq<Message>)
    ensures ScanFrom(unanswered, a + b) ==
            match ScanFrom(unanswered, a)
            case None => None
            case Some(left) => ScanFrom(left, b)
  {
    if b == [] {
      assert a + b == a;
    } else {
      var front := b[..|b| - 1];
      assert (a + b)[..|a + b| - 1] == a + front;
      ScanAppend(unanswered, a, front);
    }
  }

  lemma ScanOne(messages: seq<Message>, m: Message)
    requires Scan(messages).Some?
    ensures Scan(messages + [m]) == Advance(Scan(messages).value, m)
  {
    assert (messages + [m])[..|messages|] == messages;
  }

  // ---- Pairing by position ---------------------------------------------------------------

  /** The messages after `a` start with the answers to a's calls, in call order, as far as they go. */
  predicate AnswersFollow(messages: seq<Message>, a: nat)
    requires a < |messages|
  {
    forall i :: a < i < |messages| && i <= a + |messages[a].toolCalls| ==>
      && messages[i].role == Tool
      && messages[i].toolCallId == messages[a].toolCalls[i - a - 1].id
  }

  /** Message `a` is the assistant message that message `i` belongs to, as one of its answers or itself. */
  predicate Covers(messages: seq<Message>, a: nat, i: nat)
    requires a < |messages|
  {
    messages[a].role == Assistant && a < i <= a + |messages[a].toolCalls|
  }

  predicate PairedByIndex(messages: seq<Message>) {
    && (forall a :: 0 <= a < |messages| && messages[a].role == Assistant ==> AnswersFollow(messages, a))
    && (forall i :: 0 <= i < |messages| && messages[i].role == Tool ==>
         exists a :: 0 <= a < i && Covers(messages, a, i))
  }

  predicate OpenFrom(messages: seq<Message>, a: nat, unanswered: seq<ToolCall>)
    requires a < |messages|
  {
    Covers(messages, a, |messages|) && unanswered == messages[a].toolCalls[|messages| - a - 1..]
  }

  /** What is left open at the end: the tail of the last assistant message's calls, or nothing. */
  predicate LeftOpen(messages: seq<Message>, unanswered: seq<ToolCall>) {
    || (exists a :: 0 <= a < |messages| && OpenFrom(messages, a, unanswered))
    || (unanswered == [] && forall a :: 0 <= a < |messages| ==> !Covers(messages, a, |messages|))
  }

  /** Scanning accepts exactly the histories paired by position, and ends with what they leave open. */
  lemma {:induction false} ScanIsPairing(messages: seq<Message>)
    ensures Scan(messages).Some? <==> PairedByIndex(messages)
    ensures Scan(messages).Some? ==> LeftOpen(messages, Scan(messages).value)
  {
    if messages != [] {
      var front, m := messages[..|messages| - 1], messages[|messages| - 1];
      assert front + [m] == messages;
      ScanIsPairing(front);
      FrontIsPaired(front, m);
      if Scan(front).Some? {
        LastFits(front, m, Scan(front).value);
      }
    }
  }

  lemma FrontIsPaired(front: seq<Message>, m: Message)
    ensures PairedByIndex(front + [m]) ==> PairedByIndex(front)
  {
    var messages := front + [m];
    if PairedByIndex(messages) {
      forall i | 0 <= i < |front| && front[i].role == Tool
        ensures exists a :: 0 <= a < i && Covers(front, a, i)
      {
        assert messages[i].role == Tool;
        var a :| 0 <= a < i && Covers(messages, a, i);
        assert Covers(front, a, i);
      }
      forall a, i | 0 <= a < |front| && front[a].role == Assistant && a < i < |front| && i <= a + |front[a].toolCalls|
        ensures front[i].role == Tool && front[i].toolCallId == front[a].toolCalls[i - a - 1].id
      {
        assert AnswersFollow(messages, a);
        assert front[i] == messages[i];
      }
    }
  }

  lemma LastFits(front: seq<Message>, m: Message, unanswered: seq<ToolCall>)
    requires PairedByIndex(front) && LeftOpen(front, unanswered)
    ensures PairedByIndex(front + [m]) <==> Advance(unanswered, m).Some?
    ensures Advance(unanswered, m).Some? ==> LeftOpen(front + [m], Advance(unanswered, m).value)
  {
    if c :| 0 <= c < |front| && OpenFrom(front, c, unanswered) {
      LastAnswers(front, m, unanswered, c);
    } else {
      LastOpens(front, m);
    }
  }

  /** No position is covered by two assistant messages. */
  lemma OneOwner(messages: seq<Message>, a: nat, b: nat, i: nat)
    requires a < b < i <= |messages|
    requires messages[a].role == Assistant ==> AnswersFollow(messages, a)
    requires Covers(messages, a, i)
    ensures !Covers(messages, b, i)
  {
    assert messages[b].role == Tool;
  }

  lemma SoleOwner(messages: seq<Message>, c: nat)
    requires PairedByIndex(messages) && c < |messages| && Covers(messages, c, |messages|)
    ensures forall a :: 0 <= a < |messages| && Covers(messages, a, |messages|) ==> a == c
  {
    forall a | 0 <= a < |messages| && Covers(messages, a, |messages|)
      ensures a == c
    {
      if a < c {
        OneOwner(messages, a, c, |messages|);
      } else if c < a {
        OneOwner(messages, c, a, |messages|);
      }
    }
  }

  /** A message that fits every assistant message before it keeps the history paired. */
  lemma Extends(front: seq<Message>, m: Message)
    requires PairedByIndex(front)
    requires forall a :: 0 <= a < |front| && Covers(front, a, |front|) ==>
               m.role == Tool && m.toolCallId == front[a].toolCalls[|front| - a - 1].id
    requires m.role == Tool ==> exists a :: 0 <= a < |front| && Covers(front, a, |front|)
    ensures PairedByIndex(front + [m])
  {
    var messages := front + [m];
    forall a | 0 <= a < |messages| && messages[a].role == Assistant
      ensures AnswersFollow(messages, a)
    {
      if a < |front| {
        assert messages[a] == front[a];
        assert AnswersFollow(front, a);
        forall i | a < i < |messages| && i <= a + |messages[a].toolCalls|
          ensures messages[i].role == Tool && messages[i].toolCallId == messages[a].toolCalls[i - a - 1].id
        {
          if i == |front| {
            assert Covers(front, a, |front|);
          } else {
            assert messages[i] == front[i];
          }
        }
      }
    }
    forall i | 0 <= i < |messages| && messages[i].role == Tool
      ensures exists a :: 0 <= a < i && Covers(messages, a, i)
    {
      assert i < |front| ==> front[i].role == Tool;
      var a :| 0 <= a < i && Covers(front, a, i);
      assert Covers(messages, a, i);
    }
  }

  /** With a call open, the next message must be its answer. */
  lemma LastAnswers(front: seq<Message>, m: Message, unanswered: seq<ToolCall>, c: nat)
    requires PairedByIndex(front) && c < |front| && OpenFrom(front, c, unanswered)
    ensures PairedByIndex(front + [m]) <==> Advance(unanswered, m).Some?
    ensures Advance(unanswered, m).Some? ==> LeftOpen(front + [m], Advance(unanswered, m).value)
  {
    var messages, n := front + [m], |front|;
    assert unanswered[0] == front[c].toolCalls[n - c - 1];
    if m.role == Tool && m.toolCallId == unanswered[0].id {
      SoleOwner(front, c);
      Extends(front, m);
      StillOpen(front, m, unanswered, c);
    } else {
      assert messages[c] == front[c] && messages[n] == m;
      assert !AnswersFollow(messages, c);
    }
  }

  lemma StillOpen(front: seq<Message>, m: Message, unanswered: seq<ToolCall>, c: nat)
    requires PairedByIndex(front + [m]) && c < |front| && OpenFrom(front, c, unanswered)
    ensures LeftOpen(front + [m], unanswered[1..])
  {
    var messages := front + [m];
    assert messages[c] == front[c];
    if |unanswered| > 1 {
      assert OpenFrom(messages, c, unanswered[1..]);
    } else {
      forall a | 0 <= a < |messages|
        ensures !Covers(messages, a, |messages|)
      {
        if a < c && messages[a].role == Assistant {
          assert AnswersFollow(messages, a) && messages[c].role == Assistant;
        }
        if c < a {
          assert AnswersFollow(messages, c);
          assert messages[a].role == Tool;
        }
      }
    }
  }

  /** With no call open, any message but a tool result may come next. */
  lemma LastOpens(front: seq<Message>, m: Message)
    requires PairedByIndex(front)
    requires forall a :: 0 <= a < |front| ==> !Covers(front, a, |front|)
    ensures PairedByIndex(front + [m]) <==> Advance([], m).Some?
    ensures Advance([], m).Some? ==> LeftOpen(front + [m], Advance([], m).value)
  {
    var messages, n := front + [m], |front|;
    forall a | 0 <= a < n
      ensures !Covers(messages, a, n) && !Covers(messages, a, n + 1)
    {
      assert messages[a] == front[a];
      assert !Covers(front, a, n);
    }
    if m.role != Tool {
      Extends(front, m);
      if m.role == Assistant && m.toolCalls != [] {
        assert OpenFrom(messages, n, m.toolCalls);
      }
    } else {
      assert messages[n].role == Tool;
    }
  }

  // ---- Every operation keeps the pairing -------------------------------------------------

  function Outstanding(pending: Option<Pending>): seq<ToolCall> {
    match pending
    case None => []
    case Some(p) => [p.call] + p.remaining
  }

  /** The unanswered calls are exactly the suspended call and the calls behind it. */
  predicate Paired(s: Session) {
    Scan(s.messages) == Some(Outstanding(s.pending))
  }

  /** An operation was refused a random ID for an approval. */
  predicate IdWasRefused(before: Session, after: Session) {
    exists i :: |before.log| <= i < |after.log| && after.log[i] == IdRefused
  }

  predicate LogGrows(before: Session, after: Session) {
    before.log <= after.log
  }

  lemma RefusalsAddUp(a: Session, b: Session, c: Session)
    requires LogGrows(a, b) && LogGrows(b, c)
    ensures LogGrows(a, c)
    ensures IdWasRefused(a, c) <==> IdWasRefused(a, b) || IdWasRefused(b, c)
  {
    if i :| |a.log| <= i < |b.log| && b.log[i] == IdRefused {
      assert c.log[i] == IdRefused;
    }
    if i :| |a.log| <= i < |c.log| && c.log[i] == IdRefused && i < |b.log| {
      assert b.log[i] == IdRefused;
    }
  }

  predicate BatchPaired(s: Session, batch: Batch) {
    && (batch.Failed? <==> IdWasRefused(s, batch.session))
    && (!batch.Failed? ==> Paired(batch.session))
    && (batch.Failed? ==> Scan(batch.session.messages).Some? && Scan(batch.session.messages).value != [])
    && (batch.Paused? <==> batch.session.pending.Some?)
  }

  /** A batch answers its calls in order; what it leaves unanswered is what it suspends, or what it fails on. */
  lemma {:induction false} BatchPairs(env: Environment, s: Session, calls: seq<ToolCall>, steps: seq<Step>)
    requires s.pending.None? && Scan(s.messages) == Some(calls)
    ensures BatchPaired(s, ProcessCalls(env, s, calls, steps))
    decreases |calls|
  {
    if calls != [] {
      var call, behind := calls[0], calls[1..];
      assert [call] + behind == calls;
      match HandleCall(env, s, call, behind) {
        case Answers(next, step) =>
          AnswerPairs(env, s, call, behind);
          BatchPairs(env, next, behind, steps + [step]);
          RefusalsAddUp(s, next, ProcessCalls(env, next, behind, steps + [step]).session);
        case Suspends(_, _) =>
        case Refused(next) => assert next.log[|s.log|] == IdRefused;
      }
    }
  }

  lemma AnswerPairs(env: Environment, s: Session, call: ToolCall, behind: seq<ToolCall>)
    requires s.pending.None? && Scan(s.messages) == Some([call] + behind)
    requires HandleCall(env, s, call, behind).Answers?
    ensures var next := HandleCall(env, s, call, behind).session;
      next.pending.None? && Scan(next.messages) == Some(behind) && !IdWasRefused(s, next)
  {
    var next := HandleCall(env, s, call, behind).session;
    var content := next.messages[|s.messages|].content;
    assert next.messages == s.messages + [ToolMessage(call.id, content)];
    ScanAnswer(s.messages, call, behind, content);
  }

  lemma ScanAnswer(messages: seq<Message>, call: ToolCall, behind: seq<ToolCall>, content: string)
    requires Scan(messages) == Some([call] + behind)
    ensures Scan(messages + [ToolMessage(call.id, content)]) == Some(behind)
  {
    ScanOne(messages, ToolMessage(call.id, content));
    assert ([call] + behind)[1..] == behind;
  }

  /** Cutting a history at a user message loses no unanswered call. */
  lemma CompactionPairs(messages: seq<Message>)
    requires Scan(messages).Some?
    ensures Scan(Compacted(messages)) == Scan(messages)
  {
    if |messages| > MAX_SESSION_MESSAGES {
      var k := FirstUser(messages, |messages| - MAX_SESSION_MESSAGES);
      if k < |messages| {
        assert messages == messages[..k] + messages[k..];
        ScanAppend([], messages[..k], messages[k..]);
        ScanFrontOf(Scan(messages[..k]).value, messages[k..]);
      }
    }
  }

  /** A user message is accepted only when nothing is unanswered before it. */
  lemma {:induction false} ScanFrontOf(unanswered: seq<ToolCall>, messages: seq<Message>)
    requires messages != [] && messages[0].role == User && ScanFrom(unanswered, messages).Some?
    ensures unanswered == []
  {
    if |messages| > 1 {
      ScanFrontOf(unanswered, messages[..|messages| - 1]);
    } else {
      assert ScanFrom(unanswered, messages[..0]) == Some(unanswered);
    }
  }

  predicate ConsultPaired(s: Session) {
    s.pending.None? && Scan(s.messages) == Some([])
  }

  /** What an operation that may be refused an ID guarantees of the session it leaves. */
  predicate PairsUnlessRefused(before: Session, after: Session) {
    && LogGrows(before, after)
    && (Paired(after) <==> !IdWasRefused(before, after))
    && Scan(after.messages).Some?
    && (IdWasRefused(before, after) ==> after.pending.None?)
  }

  lemma {:induction false} ContinuePairs(env: Environment, id: string, s: Session, steps: seq<Step>, round: nat)
    requires round <= MAX_AGENT_ROUNDS
    requires ConsultPaired(s)
    ensures PairsUnlessRefused(s, Continue(env, id, s, steps, round).0)
    decreases MAX_AGENT_ROUNDS - round
  {
    if round == MAX_AGENT_ROUNDS {
      FinalizePairs(env, id, s, steps);
    } else {
      var consulted := Consult(s);
      match Usable(env.complete(|s.log|)) {
        case None =>
        case Some(assistant) =>
          var received := Received(env, consulted, assistant);
          ScanOne(s.messages, assistant);
          ReplyPairs(env, id, received, assistant, steps, round);
          RefusalsAddUp(s, received, AfterReply(env, id, received, assistant, steps, round).0);
      }
    }
  }

  /** Stopping with nothing unanswered, compacted or not. */
  lemma StopPairs(s: Session)
    requires ConsultPaired(s)
    ensures PairsUnlessRefused(s, s) && PairsUnlessRefused(s, Compact(s))
  {
    CompactionPairs(s.messages);
  }

  lemma BatchStopPairs(s: Session, batch: Batch)
    requires s.log <= batch.session.log && BatchPaired(s, batch)
    ensures PairsUnlessRefused(s, batch.session)
    ensures batch.Finished? ==> ConsultPaired(batch.session)
  {
  }

  lemma {:induction false} ReplyPairs(env: Environment, id: string, s: Session, assistant: Message, steps: seq<Step>, round: nat)
    requires round < MAX_AGENT_ROUNDS
    requires s.pending.None? && Scan(s.messages) == Some(assistant.toolCalls)
    ensures PairsUnlessRefused(s, AfterReply(env, id, s, assistant, steps, round).0)
    decreases MAX_AGENT_ROUNDS - round, 0
  {
    if assistant.toolCalls == [] {
      StopPairs(s);
    } else {
      var batch := ProcessCalls(env, s, assistant.toolCalls, steps);
      BatchPairs(env, s, assistant.toolCalls, steps);
      BatchStopPairs(s, batch);
      if batch.Finished? {
        ContinuePairs(env, id, batch.session, batch.steps, round + 1);
        RefusalsAddUp(s, batch.session, Continue(env, id, batch.session, batch.steps, round + 1).0);
      }
    }
  }

  lemma FinalizePairs(env: Environment, id: string, s: Session, steps: seq<Step>)
    requires ConsultPaired(s)
    ensures PairsUnlessRefused(s, FinalizeAtRoundLimit(env, id, s, steps).0)
  {
    CompactionPairs(s.messages);
    match Usable(env.complete(|s.log|)) {
      case None =>
      case Some(assistant) =>
        ScanOne(s.messages, assistant);
        if assistant.toolCalls == [] {
          CompactionPairs(s.messages + [assistant]);
        }
    }
  }

  lemma TurnPairs(env: Environment, id: string, s: Session, message: string)
    requires Paired(s)
    ensures PairsUnlessRefused(s, Turn(env, id, s, message).0)
  {
    var text := TrimSpace(message);
    if ValidUserMessage(text) && s.pending.None? {
      ScanOne(s.messages, UserMessage(text));
      var asked := Asked(env, s, text);
      ContinuePairs(env, id, asked, [], 0);
      RefusalsAddUp(s, asked, Continue(env, id, asked, [], 0).0);
    }
  }

  lemma SettledPairs(env: Environment, s: Session, approved: bool)
    requires Paired(s) && s.pending.Some?
    ensures var settled := Settled(env, s, s.pending.value, approved).0;
      && settled.pending.None? && Scan(settled.messages) == Some(s.pending.value.remaining)
      && LogGrows(s, settled) && !IdWasRefused(s, settled)
  {
    var settled := Settled(env, s, s.pending.value, approved).0;
    ScanOne(s.messages, settled.messages[|s.messages|]);
  }

  lemma ResumePairs(env: Environment, id: string, s: Session, step: Step, remaining: seq<ToolCall>, approved: bool)
    requires s.pending.None? && Scan(s.messages) == Some(remaining)
    ensures PairsUnlessRefused(s, Resume(env, id, s, step, remaining, approved).0)
  {
    BatchPairs(env, s, remaining, [step]);
    var batch := ProcessCalls(env, s, remaining, [step]);
    CompactionPairs(batch.session.messages);
    if batch.Finished? {
      var final := Continue(env, id, batch.session, batch.steps, 0).0;
      ContinuePairs(env, id, batch.session, batch.steps, 0);
      RefusalsAddUp(s, batch.session, final);
      CompactionPairs(final.messages);
    }
  }

  lemma ResolvePairs(env: Environment, id: string, s: Session, approvalId: string, approved: bool)
    requires Paired(s)
    ensures PairsUnlessRefused(s, ResolveApproval(env, id, s, approvalId, approved).0)
  {
    if s.pending.Some? && s.pending.value.approval.id == approvalId {
      var (settled, step) := Settled(env, s, s.pending.value, approved);
      var remaining := s.pending.value.remaining;
      SettledPairs(env, s, approved);
      ResumePairs(env, id, settled, step, remaining, approved);
      RefusalsAddUp(s, settled, Resume(env, id, settled, step, remaining, approved).0);
    }
  }

  /** One operation keeps the history paired exactly when no approval ID was refused during it. */
  lemma OperationPairs(env: Environment, id: string, s: Session, op: Operation)
    requires Paired(s)
    ensures var after := Apply(env, id, s, op).0;
      (Paired(after) <==> !IdWasRefused(s, after))
  {
    match op {
      case TurnOp(message) => TurnPairs(env, id, s, message);
      case ResolveOp(approvalId, approved) => ResolvePairs(env, id, s, approvalId, approved);
    }
  }

  /** Over every run, up to any state before which no random ID was refused: calls and results
      are paired by position, and the calls left open are the suspended one and those behind it. */
  lemma LifePairs(env: Environment, id: string, ops: seq<Operation>, states: seq<Session>, n: nat)
    requires IsLife(env, id, ops, states) && n < |states| && IdRefused !in states[n].log
    ensures PairedByIndex(states[n].messages)
    ensures LeftOpen(states[n].messages, Outstanding(states[n].pending))
  {
    var inv := (s: Session) => IdRefused in s.log || Paired(s);
    forall s, op | inv(s)
      ensures inv(Next(env, id)(s, op))
    {
      StepPairs(env, id, s, op);
    }
    Invariant(NEW_SESSION, Next(env, id), ops, states, inv, n);
    ScanIsPairing(states[n].messages);
  }

  lemma StepPairs(env: Environment, id: string, s: Session, op: Operation)
    requires IdRefused in s.log || Paired(s)
    ensures IdRefused in Apply(env, id, s, op).0.log || Paired(Apply(env, id, s, op).0)
  {
    var after := Apply(env, id, s, op).0;
    assert s.log <= after.log;
    if IdRefused !in after.log {
      OperationPairs(env, id, s, op);
    }
  }
}
