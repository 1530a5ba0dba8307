/**
 The engine's bounded table of sessions (internal/manageragent/engine.go): expired sessions go
 at every lookup, the least recently updated ones when a new session needs room.
 */
module SessionTable {
  import opened Wrappers
  import opened Text
  import opened Runs

  const MAX_SESSIONS := 32
  const SESSION_TTL := 6 * 3600 * 1_000_000_000

  /** When each live session was last updated, by ID. */
  type Table = map<string, int>

  datatype LookupError = UnknownSession | EmptySessionId | NoRandomId

  function Pruned(t: Table, cutoff: int): Table {
    map id | id in t && t[id] >= cutoff :: t[id]
  }

  /** Eviction for a new session: fewer than the limit stay, no more go than must, and whoever
      went was updated no later than anyone who stays. */
  predicate Evicted(before: Table, after: Table) {
    && after.Keys <= before.Keys
    && (forall id :: id in after ==> after[id] == before[id])
    && |after| == (if |before| < MAX_SESSIONS then |before| else MAX_SESSIONS - 1)
    && (forall gone, kept :: gone in before && gone !in after && kept in after ==> before[gone] <= before[kept])
  }

  /** A new session enters under `id` once the live ones have made room. */
  ghost predicate Admitted(live: Table, after: Table, id: string, now: int) {
    exists room: Table :: Evicted(live, room) && after == room[id := now]
  }

  class Sessions {
    var table: Table

    constructor ()
      ensures table == map[]
    {
      table := map[];
    }

    method PruneExpired(now: int)
      modifies this
      ensures table == Pruned(old(table), now - SESSION_TTL)
    {
      var cutoff := now - SESSION_TTL;
      ghost var before := table;
      var ids := table.Keys;
      while ids != {}
        invariant ids <= before.Keys && table.Keys <= before.Keys
        invariant forall id :: id in table ==> table[id] == before[id]
        invariant forall id :: id in before && id !in table ==> before[id] < cutoff
        invariant forall id :: id in table && id !in ids ==> before[id] >= cutoff
        invariant ids <= table.Keys
        decreases ids
      {
        var id :| id in ids;
        ids := ids - {id};
        if table[id] < cutoff {
          table := table - {id};
        }
      }
    }

    /** Walks the map in whatever order it yields; the empty string marks "none yet", which is
        sound because no session has an empty ID. */
    method OldestSession() returns (oldestId: string)
      requires "" !in table && table != map[]
      ensures oldestId in table
      ensures forall id :: id in table ==> table[oldestId] <= table[id]
    {
      oldestId := "";
      var oldest := 0;
      var ids := table.Keys;
      while ids != {}
        invariant ids <= table.Keys
        invariant oldestId == "" <==> ids == table.Keys
        invariant oldestId != "" ==> oldestId in table && oldest == table[oldestId]
        invariant forall id :: id in table && id !in ids ==> oldest <= table[id]
        decreases ids
      {
        var id :| id in ids;
        ids := ids - {id};
        var updated := table[id];
        if oldestId == "" || updated < oldest {
          oldestId, oldest := id, updated;
        }
      }
      assert table.Keys != {};
    }

    method EvictForNewSession()
      requires "" !in table
      modifies this
      ensures Evicted(old(table), table)
    {
      while |table| >= MAX_SESSIONS
        invariant table.Keys <= old(table).Keys
        invariant forall id :: id in table ==> table[id] == old(table)[id]
        invariant |table| == |old(table)| || (MAX_SESSIONS - 1 <= |table| <= |old(table)|)
        invariant forall gone, kept :: gone in old(table) && gone !in table && kept in table ==>
                    old(table)[gone] <= old(table)[kept]
        decreases |table|
      {
        var oldestId := OldestSession();
        RemovalShrinks(table, oldestId);
        table := table - {oldestId};
      }
    }

    method Session(sessionId: string, now: int, randomId: Option<string>) returns (r: Result<string, LookupError>)
      requires "" !in table
      requires randomId.Some? ==> randomId.value != ""
      modifies this
      ensures "" !in table
      ensures TrimSpace(sessionId) == "" && randomId.Some? ==>
                r == Ok(randomId.value) && Admitted(Pruned(old(table), now - SESSION_TTL), table, randomId.value, now)
      ensures TrimSpace(sessionId) == "" && randomId.None? ==>
                r == Err(NoRandomId) && Evicted(Pruned(old(table), now - SESSION_TTL), table)
      ensures TrimSpace(sessionId) != "" ==>
                && table == Pruned(old(table), now - SESSION_TTL)
                && r == (if sessionId in table then Ok(sessionId) else Err(UnknownSession))
    {
      PruneExpired(now);
      if TrimSpace(sessionId) == "" {
        EvictForNewSession();
        if randomId.None? {
          return Err(NoRandomId);
        }
        table := table[randomId.value := now];
        return Ok(randomId.value);
      }
      if sessionId !in table {
        return Err(UnknownSession);
      }
      return Ok(sessionId);
    }

    method SessionExisting(sessionId: string, now: int) returns (r: Result<string, LookupError>)
      requires "" !in table
      modifies this
      ensures "" !in table
      ensures TrimSpace(sessionId) == "" ==> r == Err(EmptySessionId) && table == old(table)
      ensures TrimSpace(sessionId) != "" ==>
                && table == Pruned(old(table), now - SESSION_TTL)
                && r == (if sessionId in table then Ok(sessionId) else Err(UnknownSession))
    {
      if TrimSpace(sessionId) == "" {
        return Err(EmptySessionId);
      }
      r := Session(sessionId, now, None);
    }

    /** The session's own timestamp, once it has changed. */
    method Touch(sessionId: string, now: int)
      modifies this
      ensures table == if sessionId in old(table) then old(table)[sessionId := now] else old(table)
    {
      if sessionId in table {
        table := table[sessionId := now];
      }
    }

    method Reset(sessionId: string)
      requires "" !in table
      modifies this
      ensures "" !in table && table == old(table) - {sessionId}
    {
      table := table - {sessionId};
    }
  }

  lemma RemovalShrinks(t: Table, id: string)
    requires id in t
    ensures |t - {id}| == |t| - 1
  {
    assert (t - {id}).Keys == t.Keys - {id};
  }

  // ---- Every run -------------------------------------------------------------------------

  datatype Action =
    | Lookup(now: int)
    | Open(now: int, id: string)
    | OpenWithoutId(now: int)
    | Touch(id: string, now: int)
    | Drop(id: string)

  /** What may happen to the table: a lookup, a new session, an update of a live one, a reset. */
  ghost predicate TableStep(before: Table, action: Action, after: Table) {
    match action
    case Lookup(now) => after == Pruned(before, now - SESSION_TTL)
    case Open(now, id) => id != "" && Admitted(Pruned(before, now - SESSION_TTL), after, id, now)
    case OpenWithoutId(now) => Evicted(Pruned(before, now - SESSION_TTL), after)
    case Touch(id, now) => after == if id in before then before[id := now] else before
    case Drop(id) => after == before - {id}
  }

  predicate Bounded(t: Table) {
    |t| <= MAX_SESSIONS && "" !in t
  }

  lemma {:induction false} SmallerTable(a: Table, b: Table)
    requires a.Keys <= b.Keys
    ensures |a| <= |b|
  {
    if id :| id in b && id !in a {
      RemovalShrinks(b, id);
      SmallerTable(a, b - {id});
    } else {
      assert a.Keys == b.Keys;
    }
  }

  lemma AdmissionStaysBounded(live: Table, after: Table, id: string, now: int)
    requires Bounded(live) && id != "" && Admitted(live, after, id, now)
    ensures Bounded(after)
  {
    var room: Table :| Evicted(live, room) && after == room[id := now];
    assert after.Keys == room.Keys + {id};
  }

  lemma StepStaysBounded(before: Table, action: Action, after: Table)
    requires Bounded(before) && TableStep(before, action, after)
    ensures Bounded(after)
  {
    match action {
      case Open(now, id) =>
        var live := Pruned(before, now - SESSION_TTL);
        SmallerTable(live, before);
        AdmissionStaysBounded(live, after, id, now);
      case Touch(id, now) => assert after.Keys == before.Keys;
      case _ => SmallerTable(after, before);
    }
  }

  /** From the empty table, no run of steps ever holds more than 32 sessions or an empty ID. */
  lemma TableStaysBounded(step: (Table, Action, Table) -> bool, actions: seq<Action>, tables: seq<Table>, n: nat)
    requires forall a, x, b :: step(a, x, b) ==> TableStep(a, x, b)
    requires IsTrace(step, actions, tables) && n < |tables| && tables[0] == map[]
    ensures Bounded(tables[n])
  {
    forall a, x, b | Bounded(a) && step(a, x, b)
      ensures Bounded(b)
    {
      StepStaysBounded(a, x, b);
    }
    TraceInvariant(step, actions, tables, Bounded, n);
  }

  /** A live session loses its place to a new one only when 32 are live, and only if no survivor is older. */
  lemma OnlyExpiredOrCrowdedOut(before: Table, after: Table, id: string, now: int, other: string)
    requires Bounded(before) && Admitted(Pruned(before, now - SESSION_TTL), after, id, now)
    requires other in before && other !in after && before[other] >= now - SESSION_TTL
    ensures |Pruned(before, now - SESSION_TTL)| == MAX_SESSIONS
    ensures forall kept :: kept in after && kept != id ==> before[other] <= before[kept]
  {
    var live := Pruned(before, now - SESSION_TTL);
    var room: Table :| Evicted(live, room) && after == room[id := now];
    SmallerTable(live, before);
    assert other in live && other !in room;
    if |live| < MAX_SESSIONS {
      SameSize(room, live);
    }
  }

  lemma SameSize(a: Table, b: Table)
    requires a.Keys <= b.Keys && |a| == |b|
    ensures a.Keys == b.Keys
  {
    if id :| id in b && id !in a {
      RemovalShrinks(b, id);
      SmallerTable(a, b - {id});
    }
  }
}
