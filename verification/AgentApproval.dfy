/**
 The approval gate over every run of a session: a tool that needs approval runs only in the
 operation that approves its pending call, once, and nothing at all happens in between.
 */
module AgentApproval {
  import opened Wrappers
  import opened Text
  import opened AgentModel
  import opened AgentEngine
  import opened Runs

  predicate EndsSuspended(log: seq<Event>) {
    log != [] && log[|log| - 1].Suspended?
  }

  predicate EndsApproved(log: seq<Event>) {
    log != [] && log[|log| - 1].Resolved? && log[|log| - 1].approved
  }

  predicate Gated(env: Environment, call: ToolCall) {
    GateOf(env, call).NeedsApproval?
  }

  /** What may be logged next. */
  predicate MayFollow(env: Environment, log: seq<Event>, e: Event) {
    if EndsSuspended(log) then e.Resolved? && e.approvalId == log[|log| - 1].approvalId
    else if EndsApproved(log) then
      && |log| > 1 && log[|log| - 2].Suspended?
      && e == Executed(log[|log| - 2].call, Some(log[|log| - 1].approvalId))
    else
      match e
      case Executed(call, grant) => grant.None? && GateOf(env, call).Free?
      case Suspended(_, call) => Gated(env, call)
      case Resolved(_, _) => false
      case _ => true
  }

  predicate Disciplined(env: Environment, log: seq<Event>) {
    log == [] ||
    (Disciplined(env, log[..|log| - 1]) && MayFollow(env, log[..|log| - 1], log[|log| - 1]))
  }

  lemma {:induction false} DisciplinedAt(env: Environment, log: seq<Event>, i: nat)
    requires Disciplined(env, log) && i < |log|
    ensures MayFollow(env, log[..i], log[i])
  {
    if i < |log| - 1 {
      DisciplinedAt(env, log[..|log| - 1], i);
      assert log[..|log| - 1][..i] == log[..i];
    }
  }

  /** The pending call is the one the log ends with; nothing is pending otherwise. */
  predicate GateHolds(env: Environment, s: Session) {
    && Disciplined(env, s.log)
    && !EndsApproved(s.log)
    && (s.pending.None? <==> !EndsSuspended(s.log))
    && (s.pending.Some? ==> s.log[|s.log| - 1] == Suspended(s.pending.value.approval.id, s.pending.value.call))
  }

  /** Logging one permitted event, with nothing pending before or after, keeps the gate. */
  lemma LogOne(env: Environment, s: Session, next: Session, e: Event)
    requires GateHolds(env, s) && s.pending.None? && next.log == s.log + [e] && next.pending.None?
    requires e.Consulted? || e.IdRefused? || (e.Executed? && e.grant.None? && GateOf(env, e.call).Free?)
    ensures GateHolds(env, next) && NoGrantSince(s.log, next.log)
  {
    assert next.log[..|next.log| - 1] == s.log;
  }

  /** Nothing the session does on its own carries a grant. */
  predicate NoGrantSince(before: seq<Event>, after: seq<Event>) {
    forall i :: |before| <= i < |after| && after[i].Executed? ==> after[i].grant.None?
  }

  // ---- Every operation -------------------------------------------------------------------

  /** Suspending a call that needs approval keeps the gate, now with that call pending. */
  lemma SuspendGate(env: Environment, s: Session, next: Session, call: ToolCall, approval: Approval, rest: seq<ToolCall>)
    requires GateHolds(env, s) && s.pending.None? && Gated(env, call)
    requires next.log == s.log + [Suspended(approval.id, call)]
    requires next.pending == Some(Pending(approval, call, rest))
    ensures GateHolds(env, next) && NoGrantSince(s.log, next.log)
  {
    assert next.log[..|next.log| - 1] == s.log;
  }

  /** The gate reads only the log and the pending call. */
  lemma SameGate(env: Environment, s: Session, t: Session)
    requires t.log == s.log && t.pending == s.pending
    ensures GateHolds(env, s) <==> GateHolds(env, t)
  {
  }

  predicate BatchOutcome(env: Environment, s: Session, batch: Batch) {
    && GateHolds(env, batch.session)
    && NoGrantSince(s.log, batch.session.log)
    && (batch.Paused? <==> batch.session.pending.Some?)
  }

  lemma {:induction false} BatchGate(env: Environment, s: Session, calls: seq<ToolCall>, steps: seq<Step>)
    requires GateHolds(env, s) && s.pending.None?
    ensures BatchOutcome(env, s, ProcessCalls(env, s, calls, steps))
    decreases |calls|
  {
    if calls == [] {
      return;
    }
    var call := calls[0];
    match HandleCall(env, s, call, calls[1..]) {
      case Answers(next, step) =>
        if next.log != s.log {
          LogOne(env, s, next, Executed(call, None));
        } else {
          SameGate(env, s, next);
        }
        BatchGate(env, next, calls[1..], steps + [step]);
        GrantsAddUp(s.log, next.log, ProcessCalls(env, next, calls[1..], steps + [step]).session.log);
      case Suspends(next, approval) => SuspendGate(env, s, next, call, approval, calls[1..]);
      case Refused(next) => LogOne(env, s, next, IdRefused);
    }
  }

  lemma GrantsAddUp(a: seq<Event>, b: seq<Event>, c: seq<Event>)
    requires a <= b <= c && NoGrantSince(a, b) && NoGrantSince(b, c)
    ensures NoGrantSince(a, c)
  {
    forall i | |a| <= i < |b|
      ensures c[i] == b[i]
    {
    }
  }

  lemma {:induction false} ContinueGate(env: Environment, id: string, s: Session, steps: seq<Step>, round: nat)
    requires round <= MAX_AGENT_ROUNDS
    requires GateHolds(env, s) && s.pending.None?
    ensures var after := Continue(env, id, s, steps, round).0;
      && GateHolds(env, after)
      && NoGrantSince(s.log, after.log)
    decreases MAX_AGENT_ROUNDS - round
  {
    LogOne(env, s, Consult(s), Consulted);
    if round < MAX_AGENT_ROUNDS && Usable(env.complete(|s.log|)).Some? {
      var assistant := Usable(env.complete(|s.log|)).value;
      ReplyGate(env, id, Received(env, Consult(s), assistant), assistant, steps, round);
    }
  }

  lemma {:induction false} ReplyGate(env: Environment, id: string, s: Session, assistant: Message, steps: seq<Step>, round: nat)
    requires round < MAX_AGENT_ROUNDS
    requires GateHolds(env, s) && s.pending.None?
    ensures var after := AfterReply(env, id, s, assistant, steps, round).0;
      && GateHolds(env, after)
      && NoGrantSince(s.log, after.log)
    decreases MAX_AGENT_ROUNDS - round, 0
  {
    if assistant.toolCalls == [] {
      assert AfterReply(env, id, s, assistant, steps, round).0.log == s.log;
      assert AfterReply(env, id, s, assistant, steps, round).0.pending.None?;
    } else {
      BatchGate(env, s, assistant.toolCalls, steps);
      var batch := ProcessCalls(env, s, assistant.toolCalls, steps);
      if batch.Finished? {
        ContinueGate(env, id, batch.session, batch.steps, round + 1);
        GrantsAddUp(s.log, batch.session.log, Continue(env, id, batch.session, batch.steps, round + 1).0.log);
      }
    }
  }

  lemma TurnGate(env: Environment, id: string, s: Session, message: string)
    requires GateHolds(env, s)
    ensures var after := Turn(env, id, s, message).0;
      && GateHolds(env, after)
      && NoGrantSince(s.log, after.log)
      && (s.pending.Some? ==> after == s)
  {
    var text := TrimSpace(message);
    if ValidUserMessage(text) && s.pending.None? {
      ContinueGate(env, id, Asked(env, s, text), [], 0);
    }
  }

  /** The grants of one operation: one, for the pending call, exactly when that operation approves it. */
  predicate GrantsOf(s: Session, op: Operation, after: Session) {
    var approves :=
      && op.ResolveOp? && op.approved
      && s.pending.Some? && s.pending.value.approval.id == op.approvalId;
    forall i :: |s.log| <= i < |after.log| && after.log[i].Executed? ==>
      if i == |s.log| + 1 && approves
      then after.log[i] == Executed(s.pending.value.call, Some(op.approvalId))
      else after.log[i].grant.None?
  }

  lemma SettledGate(env: Environment, s: Session, approved: bool)
    requires GateHolds(env, s) && s.pending.Some?
    ensures var settled := Settled(env, s, s.pending.value, approved).0;
      && GateHolds(env, settled) && settled.pending.None?
      && GrantsOf(s, ResolveOp(s.pending.value.approval.id, approved), settled)
      && |settled.log| == |s.log| + (if approved then 2 else 1)
  {
    var id := s.pending.value.approval.id;
    var taken := s.log + [Resolved(id, approved)];
    assert taken[..|s.log|] == s.log;
    var ran := taken + [Executed(s.pending.value.call, Some(id))];
    assert ran[..|taken|] == taken;
    assert Disciplined(env, taken);
  }

  lemma ResumeGate(env: Environment, id: string, s: Session, step: Step, remaining: seq<ToolCall>, approved: bool)
    requires GateHolds(env, s) && s.pending.None?
    ensures GateHolds(env, Resume(env, id, s, step, remaining, approved).0)
    ensures NoGrantSince(s.log, Resume(env, id, s, step, remaining, approved).0.log)
  {
    var after := Resume(env, id, s, step, remaining, approved).0;
    BatchGate(env, s, remaining, [step]);
    match ProcessCalls(env, s, remaining, [step]) {
      case Failed(session) => SameGate(env, session, after);
      case Paused(session, _, _) =>
      case Finished(session, steps) =>
        var final := Continue(env, id, session, steps, 0).0;
        ContinueGate(env, id, session, steps, 0);
        GrantsAddUp(s.log, session.log, final.log);
        SameGate(env, final, after);
    }
  }

  lemma ResolveGate(env: Environment, id: string, s: Session, approvalId: string, approved: bool)
    requires GateHolds(env, s)
    ensures var after := ResolveApproval(env, id, s, approvalId, approved).0;
      && GateHolds(env, after)
      && GrantsOf(s, ResolveOp(approvalId, approved), after)
      && (s.pending.None? || s.pending.value.approval.id != approvalId ==> after == s)
  {
    if s.pending.Some? && s.pending.value.approval.id == approvalId {
      var (settled, step) := Settled(env, s, s.pending.value, approved);
      SettledGate(env, s, approved);
      ResumeGate(env, id, settled, step, s.pending.value.remaining, approved);
      GrantsStay(s, ResolveOp(approvalId, approved), settled,
                 Resume(env, id, settled, step, s.pending.value.remaining, approved).0);
    }
  }

  lemma GrantsStay(s: Session, op: Operation, settled: Session, after: Session)
    requires s.log < settled.log <= after.log
    requires GrantsOf(s, op, settled) && NoGrantSince(settled.log, after.log)
    requires op.ResolveOp? && op.approved ==> |settled.log| > |s.log| + 1
    ensures GrantsOf(s, op, after)
  {
    forall i | |s.log| <= i < |settled.log|
      ensures after.log[i] == settled.log[i]
    {
    }
  }

  lemma OperationGate(env: Environment, id: string, s: Session, op: Operation)
    requires GateHolds(env, s)
    ensures GateHolds(env, Apply(env, id, s, op).0)
    ensures GrantsOf(s, op, Apply(env, id, s, op).0)
  {
    match op {
      case TurnOp(message) => TurnGate(env, id, s, message);
      case ResolveOp(approvalId, approved) => ResolveGate(env, id, s, approvalId, approved);
    }
  }

  // ---- Every run -------------------------------------------------------------------------

  lemma LifeGate(env: Environment, id: string, ops: seq<Operation>, states: seq<Session>, n: nat)
    requires IsLife(env, id, ops, states) && n < |states|
    ensures GateHolds(env, states[n])
  {
    var inv := (s: Session) => GateHolds(env, s);
    forall s, op | inv(s)
      ensures inv(Next(env, id)(s, op))
    {
      OperationGate(env, id, s, op);
    }
    Invariant(NEW_SESSION, Next(env, id), ops, states, inv, n);
  }

  lemma LifeStep(env: Environment, id: string, ops: seq<Operation>, states: seq<Session>, k: nat)
    requires IsLife(env, id, ops, states) && k < |ops|
    ensures states[k + 1] == Apply(env, id, states[k], ops[k]).0
    ensures states[k].log <= states[k + 1].log
  {
    assert states[k + 1] == Next(env, id)(states[k], ops[k]);
  }

  /** Which operation of a run logged event i. */
  lemma {:induction false} LoggedBy(env: Environment, id: string, ops: seq<Operation>, states: seq<Session>, n: nat, i: nat)
    returns (k: nat)
    requires IsLife(env, id, ops, states) && n < |states| && i < |states[n].log|
    ensures k < n && |states[k].log| <= i < |states[k + 1].log| && states[k + 1].log <= states[n].log
  {
    assert n > 0;
    LifeStep(env, id, ops, states, n - 1);
    if i < |states[n - 1].log| {
      k := LoggedBy(env, id, ops, states, n - 1, i);
    } else {
      k := n - 1;
    }
  }

  /** Over every run, each execution of a tool that needs approval: it is the pending call of
      the session, run by the one operation that approves it, and it stands right behind that
      approval, which stands right behind the suspension. */
  lemma ExecutionNeedsItsApproval(env: Environment, id: string, ops: seq<Operation>, states: seq<Session>, n: nat, i: nat)
    returns (k: nat)
    requires IsLife(env, id, ops, states) && n < |states|
    requires i < |states[n].log| && states[n].log[i].Executed? && Gated(env, states[n].log[i].call)
    ensures k < n && |states[k].log| <= i < |states[k + 1].log|
    ensures states[k].pending.Some?
    ensures ops[k] == ResolveOp(states[k].pending.value.approval.id, true)
    ensures states[k].pending.value.call == states[n].log[i].call
    ensures i > 1
    ensures states[n].log[i - 1] == Resolved(states[k].pending.value.approval.id, true)
    ensures states[n].log[i - 2] == Suspended(states[k].pending.value.approval.id, states[n].log[i].call)
  {
    k := LoggedBy(env, id, ops, states, n, i);
    LifeGate(env, id, ops, states, n);
    LifeGate(env, id, ops, states, k);
    LifeStep(env, id, ops, states, k);
    OperationGate(env, id, states[k], ops[k]);
    DisciplinedAt(env, states[n].log, i);
    DisciplinedAt(env, states[n].log, i - 1);
  }

  /** Over every run: nothing follows a suspension but its resolution; an approved call then runs
      and a denied one does not; and no other event of the run is a run of that suspension. */
  lemma SuspensionRunsAtMostOnce(env: Environment, id: string, ops: seq<Operation>, states: seq<Session>, n: nat, i: nat)
    requires IsLife(env, id, ops, states) && n < |states|
    requires i < |states[n].log| && states[n].log[i].Suspended?
    ensures var log := states[n].log;
      && (i + 1 < |log| ==> log[i + 1].Resolved? && log[i + 1].approvalId == log[i].approvalId)
      && (i + 1 < |log| && log[i + 1].approved ==>
            i + 2 < |log| && log[i + 2] == Executed(log[i].call, Some(log[i].approvalId)))
      && (i + 2 < |log| && !log[i + 1].approved && log[i + 2].Executed? ==> log[i + 2].grant.None?)
      && (forall j :: i < j < |log| && j != i + 2 && log[j].Executed? && log[j].grant.Some? ==>
            i + 2 < j && log[j - 2].Suspended?)
  {
    LifeGate(env, id, ops, states, n);
    SuspensionInLog(env, states[n].log, i);
  }

  lemma SuspensionInLog(env: Environment, log: seq<Event>, i: nat)
    requires Disciplined(env, log) && !EndsApproved(log) && i < |log| && log[i].Suspended?
    ensures i + 1 < |log| ==> log[i + 1].Resolved? && log[i + 1].approvalId == log[i].approvalId
    ensures i + 1 < |log| && log[i + 1].approved ==>
              i + 2 < |log| && log[i + 2] == Executed(log[i].call, Some(log[i].approvalId))
    ensures i + 2 < |log| && !log[i + 1].approved && log[i + 2].Executed? ==> log[i + 2].grant.None?
    ensures forall j :: i < j < |log| && j != i + 2 && log[j].Executed? && log[j].grant.Some? ==>
              i + 2 < j && log[j - 2].Suspended?
  {
    if i + 1 < |log| {
      DisciplinedAt(env, log, i + 1);
    }
    if i + 2 < |log| {
      DisciplinedAt(env, log, i + 2);
    }
    forall j | i < j < |log| && j != i + 2 && log[j].Executed? && log[j].grant.Some?
      ensures i + 2 < j && log[j - 2].Suspended?
    {
      DisciplinedAt(env, log, j);
    }
  }
}
