/**
 Whole requests to the engine (internal/manageragent/engine.go): a turn or an approval first finds its
 session in the bounded table, and a new session whose first turn fails is taken out again. Here a request
 is alone with the engine; AgentInterleaving has any number of them at once.
 */
module AgentRequests {
  import opened Wrappers
  import opened Text
  import opened Runs
  import opened AgentModel
  import opened AgentEngine
  import opened AgentHistory
  import opened SessionTable

  /** The live sessions by ID. */
  type Live = map<string, Session>

  /** What one session meets: its model, tools and clock. */
  type Environments = string -> Environment

  datatype RequestError = NoSession(lookup: LookupError) | NotDone(turn: TurnError)

  type RequestResult = Result<TurnResponse, RequestError>

  function Answer(result: TurnResult): RequestResult {
    match result
    case Ok(response) => Ok(response)
    case Err(error) => Err(NotDone(error))
  }

  /** When each session was last updated, which is all the table looks at. */
  function Times(live: Live): Table {
    map id | id in live :: live[id].updated
  }

  function Unexpired(live: Live, now: int): Live {
    map id | id in live && live[id].updated >= now - SESSION_TTL :: live[id]
  }

  predicate Part(some: Live, all: Live) {
    some.Keys <= all.Keys && forall id :: id in some ==> some[id] == all[id]
  }

  /** Room for a new session among the unexpired ones. */
  predicate MadeRoom(before: Live, room: Live, now: int) {
    Part(room, Unexpired(before, now)) && Evicted(Times(Unexpired(before, now)), Times(room))
  }

  /** A turn on a session of the table, or on a new one, which stays only if the turn succeeds. */
  ghost predicate TurnDone(
      envs: Environments, before: Live, after: Live, sessionId: string, message: string,
      now: int, randomId: Option<string>, r: RequestResult)
  {
    if !ValidUserMessage(TrimSpace(message)) then after == before && r == Err(NotDone(InvalidMessage))
    else if TrimSpace(sessionId) != "" then OldTurnDone(envs, Unexpired(before, now), after, sessionId, message, r)
    else if randomId.None? then MadeRoom(before, after, now) && r == Err(NoSession(NoRandomId))
    else FirstTurnDone(envs, before, after, message, now, randomId.value, r)
  }

  ghost predicate FirstTurnDone(
      envs: Environments, before: Live, after: Live, message: string, now: int, id: string, r: RequestResult)
  {
    exists room :: MadeRoom(before, room, now) && NewTurnDone(envs, room, after, id, message, r)
  }

  ghost predicate OldTurnDone(
      envs: Environments, live: Live, after: Live, id: string, message: string, r: RequestResult)
  {
    if id !in live then after == live && r == Err(NoSession(UnknownSession))
    else
      var (s, result) := AgentEngine.Turn(envs(id), id, live[id], message);
      after == live[id := s] && r == Answer(result)
  }

  ghost predicate NewTurnDone(
      envs: Environments, room: Live, after: Live, id: string, message: string, r: RequestResult)
  {
    var (s, result) := AgentEngine.Turn(envs(id), id, NEW_SESSION, message);
    after == (if result.Ok? then room[id := s] else room - {id}) && r == Answer(result)
  }

  ghost predicate ResolveDone(
      envs: Environments, before: Live, after: Live, sessionId: string, approvalId: string, approved: bool,
      now: int, r: RequestResult)
  {
    if TrimSpace(sessionId) == "" then after == before && r == Err(NoSession(EmptySessionId))
    else
      var live := Unexpired(before, now);
      if sessionId !in live then after == live && r == Err(NoSession(UnknownSession))
      else
        var (s, result) := AgentEngine.ResolveApproval(envs(sessionId), sessionId, live[sessionId], approvalId, approved);
        after == live[sessionId := s] && r == Answer(result)
  }

  // ---- The engine ------------------------------------------------------------------------

  /** Each session is held as its value here; AgentSession changes one in place, to the same value. */
  class Engine {
    const envs: Environments
    const table: Sessions
    var live: Live

    constructor (envs: Environments)
      ensures Valid() && live == map[] && this.envs == envs && fresh(table)
    {
      this.envs, live := envs, map[];
      table := new Sessions();
    }

    ghost predicate Valid()
      reads this, table
    {
      table.table == Times(live) && "" !in live
    }

    /** The session an old ID names. */
    method FindOld(sessionId: string, now: int) returns (found: Result<string, LookupError>)
      requires Valid() && TrimSpace(sessionId) != ""
      modifies this, table
      ensures Valid() && live == Unexpired(old(live), now)
      ensures found == if sessionId in live then Ok(sessionId) else Err(UnknownSession)
    {
      PrunedTimes(live, now);
      found := table.Session(sessionId, now, None);
      KeptUnexpired(live, now);
      live := Kept(live, table.table);
    }

    /** A new session, once there is room for it. */
    method FindNew(sessionId: string, now: int, randomId: Option<string>)
      returns (found: Result<string, LookupError>, ghost room: Live)
      requires Valid() && TrimSpace(sessionId) == "" && (randomId.Some? ==> randomId.value != "")
      modifies this, table
      ensures Valid() && MadeRoom(old(live), room, now)
      ensures randomId.None? ==> live == room && found == Err(NoRandomId)
      ensures randomId.Some? ==>
        found == Ok(randomId.value) && live == room[randomId.value := NEW_SESSION.(updated := now)]
    {
      ghost var before := live;
      PrunedTimes(live, now);
      found := table.Session(sessionId, now, randomId);
      ghost var kept := table.table;
      if found.Ok? {
        kept :| Evicted(Times(Unexpired(before, now)), kept) && table.table == kept[found.value := now];
        live := Kept(live[found.value := NEW_SESSION.(updated := now)], table.table);
        KeptWith(before, kept, found.value, now);
      } else {
        live := Kept(live, table.table);
      }
      KeptMadeRoom(before, kept, now);
      room := Kept(before, kept);
    }

    method Reset(id: string)
      requires Valid()
      modifies this, table
      ensures Valid() && live == old(live) - {id}
    {
      table.Reset(id);
      live := live - {id};
    }

    /** A session takes its new value. */
    method Put(id: string, s: Session)
      requires Valid() && id in live
      modifies this, table
      ensures Valid() && live == old(live)[id := s]
    {
      table.Touch(id, s.updated);
      live := live[id := s];
    }

    method Turn(sessionId: string, message: string, now: int, randomId: Option<string>) returns (r: RequestResult)
      requires Valid() && (randomId.Some? ==> randomId.value != "")
      modifies this, table
      ensures Valid() && TurnDone(envs, old(live), live, sessionId, message, now, randomId, r)
    {
      if !ValidUserMessage(TrimSpace(message)) {
        return Err(NotDone(InvalidMessage));
      }
      if TrimSpace(sessionId) == "" {
        r := FirstTurn(sessionId, message, now, randomId);
        return;
      }
      var found := FindOld(sessionId, now);
      if found.Err? {
        return Err(NoSession(found.error));
      }
      r := OnSession(sessionId, message);
    }

    method FirstTurn(sessionId: string, message: string, now: int, randomId: Option<string>)
      returns (r: RequestResult)
      requires Valid() && (randomId.Some? ==> randomId.value != "")
      requires TrimSpace(sessionId) == "" && ValidUserMessage(TrimSpace(message))
      modifies this, table
      ensures Valid()
      ensures randomId.None? ==> MadeRoom(old(live), live, now) && r == Err(NoSession(NoRandomId))
      ensures randomId.Some? ==> FirstTurnDone(envs, old(live), live, message, now, randomId.value, r)
    {
      var found, room := FindNew(sessionId, now, randomId);
      if found.Err? {
        return Err(NoSession(found.error));
      }
      ghost var entered := live;
      r := OnSession(found.value, message);
      NewTurnComposes(envs, room, entered, live, found.value, message, now, r);
      if r.Err? {
        Reset(found.value);
      }
    }

    method OnSession(id: string, message: string) returns (r: RequestResult)
      requires Valid() && id in live
      modifies this, table
      ensures Valid() && OldTurnDone(envs, old(live), live, id, message, r)
    {
      var (s, result) := AgentEngine.Turn(envs(id), id, live[id], message);
      Put(id, s);
      r := Answer(result);
    }

    method ResolveApproval(sessionId: string, approvalId: string, approved: bool, now: int) returns (r: RequestResult)
      requires Valid()
      modifies this, table
      ensures Valid() && ResolveDone(envs, old(live), live, sessionId, approvalId, approved, now, r)
    {
      if TrimSpace(sessionId) == "" {
        return Err(NoSession(EmptySessionId));
      }
      var found := FindOld(sessionId, now);
      if found.Err? {
        return Err(NoSession(found.error));
      }
      var (s, result) := AgentEngine.ResolveApproval(envs(sessionId), sessionId, live[sessionId], approvalId, approved);
      Put(sessionId, s);
      r := Answer(result);
    }
  }

  function Kept(live: Live, kept: Table): Live {
    map id | id in live && id in kept :: live[id]
  }

  lemma PrunedTimes(live: Live, now: int)
    ensures Pruned(Times(live), now - SESSION_TTL) == Times(Unexpired(live, now))
  {
  }

  lemma KeptUnexpired(live: Live, now: int)
    ensures Kept(live, Times(Unexpired(live, now))) == Unexpired(live, now)
  {
  }

  lemma KeptMadeRoom(live: Live, kept: Table, now: int)
    requires Evicted(Times(Unexpired(live, now)), kept)
    ensures MadeRoom(live, Kept(live, kept), now) && Times(Kept(live, kept)) == kept
  {
    assert Times(Kept(live, kept)) == kept;
  }

  lemma KeptWith(live: Live, kept: Table, id: string, now: int)
    requires Evicted(Times(Unexpired(live, now)), kept)
    ensures var blank := NEW_SESSION.(updated := now);
      && Kept(live[id := blank], kept[id := now]) == Kept(live, kept)[id := blank]
      && Times(Kept(live, kept)[id := blank]) == kept[id := now]
  {
    KeptMadeRoom(live, kept, now);
  }

  /** A new session's turn is one on the session just entered, taken out again if it fails; the turn sets
      the session's timestamp anew. */
  lemma NewTurnComposes(
      envs: Environments, room: Live, entered: Live, turned: Live, id: string, message: string, now: int, r: RequestResult)
    requires ValidUserMessage(TrimSpace(message)) && entered == room[id := NEW_SESSION.(updated := now)]
    requires OldTurnDone(envs, entered, turned, id, message, r)
    ensures NewTurnDone(envs, room, if r.Err? then turned - {id} else turned, id, message, r)
  {
    var text := TrimSpace(message);
    assert Asked(envs(id), NEW_SESSION.(updated := now), text) == Asked(envs(id), NEW_SESSION, text);
    assert Turn(envs(id), id, entered[id], message) == Turn(envs(id), id, NEW_SESSION, message);
    assert turned - {id} == room - {id};
  }

  // ---- What becomes of a failed turn -----------------------------------------------------

  /** A turn without a session ID that fails leaves nothing behind: every session there is afterwards was
      there before, with the same content. */
  lemma FailedFirstTurnLeavesNothing(
      envs: Environments, before: Live, after: Live, sessionId: string, message: string,
      now: int, randomId: Option<string>, r: RequestResult)
    requires TurnDone(envs, before, after, sessionId, message, now, randomId, r)
    requires TrimSpace(sessionId) == "" && r.Err?
    ensures Part(after, before)
  {
  }

  /** A turn that no other request meets never loses its own session, failed or not: it goes only by
      having expired, and the request then changes no session. */
  lemma OldSessionStays(
      envs: Environments, before: Live, after: Live, sessionId: string, message: string,
      now: int, randomId: Option<string>, r: RequestResult)
    requires TurnDone(envs, before, after, sessionId, message, now, randomId, r)
    requires TrimSpace(sessionId) != "" && sessionId in before
    ensures sessionId in after || before[sessionId].updated < now - SESSION_TTL
    ensures sessionId !in after ==> Part(after, before) && r == Err(NoSession(UnknownSession))
    ensures forall id :: id in after && id != sessionId ==> id in before && after[id] == before[id]
  {
  }

  // ---- One session ------------------------------------------------------------------------

  /** The session is where its own operations have brought it since it was created. */
  ghost predicate IsLived(env: Environment, id: string, s: Session) {
    Ends(NEW_SESSION, Next(env, id), s)
  }

  lemma LivesOn(env: Environment, id: string, s: Session, op: Operation)
    requires IsLived(env, id, s)
    ensures IsLived(env, id, Apply(env, id, s, op).0)
  {
    EndsAtNext(NEW_SESSION, Next(env, id), s, op);
  }

  lemma LifeBegins(env: Environment, id: string)
    ensures IsLived(env, id, NEW_SESSION)
  {
    EndsAtFirst(NEW_SESSION, Next(env, id));
  }

  lemma LivedPairs(env: Environment, id: string, s: Session)
    requires IsLived(env, id, s) && IdRefused !in s.log
    ensures PairedByIndex(s.messages) && LeftOpen(s.messages, Outstanding(s.pending))
  {
    var ops, states :| IsRun(NEW_SESSION, Next(env, id), ops, states) && states[|ops|] == s;
    LifePairs(env, id, ops, states, |ops|);
  }
}
