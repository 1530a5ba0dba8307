/**
 Requests to the engine at the same time (internal/manageragent/engine.go). The table has its own lock,
 held for a lookup or a removal; each session has its own, held for a whole operation. So while one
 request works on a session, others may expire it, evict it, reset it, or queue up behind it; a session
 that has left the table goes on for the requests that hold it.
 */
module AgentInterleaving {
  import opened Wrappers
  import opened Text
  import opened Runs
  import opened AgentModel
  import opened AgentEngine
  import opened AgentHistory
  import opened SessionTable
  import opened AgentRequests

  /** A session object: `stamp` is when it was last updated as others see it, `holder` the call that has
      its lock, and `undone` that its failed first turn has taken it out of the table. */
  datatype Object = Object(id: string, session: Session, stamp: int, holder: Option<nat>, undone: bool)

  datatype Call =
    | Waiting(handle: nat, op: Operation, isNew: bool)
    | Running(handle: nat, op: Operation, isNew: bool)
    | Undoing(handle: nat, result: TurnResult)
    | Over(answer: RequestResult)

  /** `table` says which object an ID names; objects are numbered as they are made. */
  datatype World = World(table: map<string, nat>, objects: seq<Object>, calls: map<nat, Call>)

  const EMPTY := World(map[], [], map[])

  /** `room` is the table as a lookup for a new session leaves it; any that makes room may be chosen. A
      running operation may set its session's stamp at any time. */
  datatype Action =
    | Lookup(call: nat, sessionId: string, op: Operation, now: int, randomId: Option<string>, room: map<string, nat>)
    | Acquire(call: nat)
    | Stamp(call: nat, time: int)
    | Finish(call: nat)
    | Undo(call: nat)
    | Reset(id: string)

  /** What each object meets. */
  type Surroundings = nat -> Environment

  function Stamps(w: World, table: map<string, nat>): Table {
    map id | id in table && table[id] < |w.objects| :: w.objects[table[id]].stamp
  }

  function Current(w: World, now: int): map<string, nat> {
    map id | id in w.table && w.table[id] < |w.objects| && w.objects[w.table[id]].stamp >= now - SESSION_TTL :: w.table[id]
  }

  predicate Within(part: map<string, nat>, all: map<string, nat>) {
    forall id :: id in part ==> id in all && part[id] == all[id]
  }

  predicate MakesRoom(w: World, room: map<string, nat>, now: int) {
    Within(room, Current(w, now)) && Evicted(Stamps(w, Current(w, now)), Stamps(w, room))
  }

  function NewObject(id: string, now: int): Object {
    Object(id, NEW_SESSION, now, None, false)
  }

  function Ended(w: World, call: nat, answer: RequestResult): World {
    w.(calls := w.calls[call := Over(answer)])
  }

  /** The part of a request under the table's lock. */
  function AfterLookup(
      w: World, call: nat, sessionId: string, op: Operation, now: int, randomId: Option<string>, room: map<string, nat>)
    : World
  {
    if op.TurnOp? && !ValidUserMessage(TrimSpace(op.message)) then Ended(w, call, Err(NotDone(InvalidMessage)))
    else if TrimSpace(sessionId) != "" then
      var v := w.(table := Current(w, now));
      if sessionId in v.table then v.(calls := v.calls[call := Waiting(v.table[sessionId], op, false)])
      else Ended(v, call, Err(NoSession(UnknownSession)))
    else if op.ResolveOp? then Ended(w, call, Err(NoSession(EmptySessionId)))
    else if !MakesRoom(w, room, now) then w
    else if randomId.None? then Ended(w.(table := room), call, Err(NoSession(NoRandomId)))
    else if randomId.value == "" then w
    else
      World(room[randomId.value := |w.objects|],
            w.objects + [NewObject(randomId.value, now)],
            w.calls[call := Waiting(|w.objects|, op, true)])
  }

  /** A session object and where its call has got to. */
  function Put(w: World, call: nat, h: nat, o: Object, c: Call): World
    requires h < |w.objects|
  {
    w.(objects := w.objects[h := o], calls := w.calls[call := c])
  }

  function AfterFinish(envs: Surroundings, w: World, call: nat, h: nat, op: Operation, isNew: bool): World
    requires h < |w.objects|
  {
    var o := w.objects[h];
    var (s, result) := Apply(envs(h), o.id, o.session, op);
    if isNew && result.Err? then Put(w, call, h, o.(session := s), Undoing(h, result))
    else Put(w, call, h, o.(session := s, holder := None), Over(Answer(result)))
  }

  /** The steps of a call that has found its session. */
  function AfterStep(envs: Surroundings, w: World, a: Action, h: nat): World
    requires (a.Acquire? || a.Stamp? || a.Finish? || a.Undo?) && a.call in w.calls && h < |w.objects|
  {
    var o := w.objects[h];
    match w.calls[a.call]
    case Waiting(_, op, isNew) =>
      if a.Acquire? && o.holder.None? then Put(w, a.call, h, o.(holder := Some(a.call)), Running(h, op, isNew)) else w
    case Running(_, op, isNew) =>
      if a.Stamp? then Put(w, a.call, h, o.(stamp := a.time), w.calls[a.call])
      else if a.Finish? then AfterFinish(envs, w, a.call, h, op, isNew)
      else w
    case Undoing(_, result) =>
      if a.Undo?
      then Put(w.(table := w.table - {o.id}), a.call, h, o.(holder := None, undone := true), Over(Answer(result))) else w
    case Over(_) => w
  }

  predicate AtWork(w: World, call: nat) {
    call in w.calls && !w.calls[call].Over? && w.calls[call].handle < |w.objects|
  }

  /** An action that does not fit changes nothing. */
  function Next(envs: Surroundings, w: World, a: Action): World {
    match a
    case Lookup(call, sessionId, op, now, randomId, room) =>
      if call in w.calls then w else AfterLookup(w, call, sessionId, op, now, randomId, room)
    case Reset(id) => w.(table := w.table - {id})
    case _ => if AtWork(w, a.call) then AfterStep(envs, w, a, w.calls[a.call].handle) else w
  }

  predicate IsHistory(envs: Surroundings, actions: seq<Action>, worlds: seq<World>) {
    IsRun(EMPTY, (w, a) => Next(envs, w, a), actions, worlds)
  }

  // ---- What every step keeps ---------------------------------------------------------------

  /** The call has the lock of its session. */
  predicate Holds(c: Call) {
    c.Running? || c.Undoing?
  }

  predicate TableSound(w: World) {
    && |w.table| <= MAX_SESSIONS && "" !in w.table
    && forall id :: id in w.table ==>
         w.table[id] < |w.objects| && w.objects[w.table[id]].id == id && !w.objects[w.table[id]].undone
  }

  /** A session's lock is with the one call that is at work on it. */
  predicate LocksSound(w: World) {
    && (forall c :: c in w.calls && !w.calls[c].Over? ==> w.calls[c].handle < |w.objects|)
    && (forall c :: c in w.calls && Holds(w.calls[c]) ==> w.objects[w.calls[c].handle].holder == Some(c))
  }

  ghost predicate AllLived(envs: Surroundings, w: World) {
    forall h :: 0 <= h < |w.objects| ==> IsLived(envs(h), w.objects[h].id, w.objects[h].session)
  }

  ghost predicate Sound(envs: Surroundings, w: World) {
    TableSound(w) && LocksSound(w) && AllLived(envs, w)
  }

  lemma SameCount(w: World, table: map<string, nat>)
    requires forall id :: id in table ==> table[id] < |w.objects|
    ensures |Stamps(w, table)| == |table|
  {
    assert Stamps(w, table).Keys == table.Keys;
  }

  lemma {:induction false} NoLarger(a: map<string, nat>, b: map<string, nat>)
    requires a.Keys <= b.Keys
    ensures |a| <= |b|
  {
    assert |a.Keys| == |a| && |b.Keys| == |b|;
    FewerKeys(a.Keys, b.Keys);
  }

  lemma {:induction false} FewerKeys(a: set<string>, b: set<string>)
    requires a <= b
    ensures |a| <= |b|
  {
    if x :| x in a {
      FewerKeys(a - {x}, b - {x});
    }
  }

  lemma RoomIsSmall(w: World, room: map<string, nat>, now: int)
    requires TableSound(w) && MakesRoom(w, room, now)
    ensures |room| < MAX_SESSIONS && Within(room, w.table)
  {
    var current := Current(w, now);
    NoLarger(current, w.table);
    SameCount(w, current);
    SameCount(w, room);
  }

  lemma PartKeepsTable(w: World, v: World)
    requires TableSound(w) && v.objects == w.objects && Within(v.table, w.table)
    ensures TableSound(v)
  {
    NoLarger(v.table, w.table);
  }

  lemma EntryKeepsTable(w: World, v: World, room: map<string, nat>, o: Object)
    requires TableSound(w) && |room| < MAX_SESSIONS && Within(room, w.table) && o.id != "" && !o.undone
    requires v.objects == w.objects + [o] && v.table == room[o.id := |w.objects|]
    ensures TableSound(v)
  {
    assert v.table.Keys == room.Keys + {o.id};
    assert |v.table.Keys| == |v.table| && |room.Keys| == |room|;
  }

  /** What a lookup may make of the table and the objects. */
  predicate Looked(w: World, v: World, a: Action)
    requires a.Lookup?
  {
    || (v.objects == w.objects && (v.table == w.table || v.table == Current(w, a.now)))
    || (&& TrimSpace(a.sessionId) == "" && MakesRoom(w, a.room, a.now)
        && (|| (v.objects == w.objects && v.table == a.room)
            || (&& a.randomId.Some? && a.randomId.value != ""
                && v.objects == w.objects + [NewObject(a.randomId.value, a.now)]
                && v.table == a.room[a.randomId.value := |w.objects|])))
  }

  lemma LookupLooks(w: World, a: Action)
    requires a.Lookup?
    ensures Looked(w, AfterLookup(w, a.call, a.sessionId, a.op, a.now, a.randomId, a.room), a)
  {
  }

  lemma LookupKeepsTable(w: World, v: World, a: Action)
    requires TableSound(w) && a.Lookup? && Looked(w, v, a)
    ensures TableSound(v)
  {
    if MakesRoom(w, a.room, a.now) {
      RoomIsSmall(w, a.room, a.now);
    }
    if v.objects == w.objects {
      PartKeepsTable(w, v);
    } else {
      EntryKeepsTable(w, v, a.room, NewObject(a.randomId.value, a.now));
    }
  }

  lemma RemovalKeepsTable(w: World, id: string)
    requires TableSound(w)
    ensures TableSound(w.(table := w.table - {id}))
  {
    NoLarger(w.table - {id}, w.table);
  }

  /** A step leaves each object's ID and does not bring it back to the table. */
  predicate Grows(w: World, v: World) {
    |w.objects| <= |v.objects|
    && forall h :: 0 <= h < |w.objects| ==>
         v.objects[h].id == w.objects[h].id && (w.objects[h].undone ==> v.objects[h].undone)
  }

  /** A step of one call on its session. */
  predicate OneStep(w: World, v: World, call: nat, h: nat, o: Object, c: Call) {
    && call in w.calls && h < |w.objects| && v.objects == w.objects[h := o] && v.calls == w.calls[call := c]
    && o.id == w.objects[h].id && (w.objects[h].undone ==> o.undone)
    && (!c.Over? ==> c.handle == h) && (Holds(c) ==> o.holder == Some(call))
    && (o.holder == w.objects[h].holder || w.objects[h].holder in {None, Some(call)})
  }

  lemma OneStepGrows(w: World, v: World, call: nat, h: nat, o: Object, c: Call)
    requires OneStep(w, v, call, h, o, c)
    ensures Grows(w, v)
  {
  }

  lemma OneStepKeepsLocks(w: World, v: World, call: nat, h: nat, o: Object, c: Call)
    requires LocksSound(w) && OneStep(w, v, call, h, o, c)
    ensures LocksSound(v)
  {
    forall d | d in v.calls && Holds(v.calls[d])
      ensures v.calls[d].handle < |v.objects| && v.objects[v.calls[d].handle].holder == Some(d)
    {
      if d != call {
        assert w.objects[w.calls[d].handle].holder == Some(d);
      }
    }
  }

  lemma OneStepKeepsLives(envs: Surroundings, w: World, v: World, call: nat, h: nat, o: Object, c: Call)
    requires AllLived(envs, w) && OneStep(w, v, call, h, o, c) && IsLived(envs(h), o.id, o.session)
    ensures AllLived(envs, v)
  {
    forall k | 0 <= k < |v.objects|
      ensures IsLived(envs(k), v.objects[k].id, v.objects[k].session)
    {
      if k != h {
        assert IsLived(envs(k), w.objects[k].id, w.objects[k].session);
      }
    }
  }

  predicate TableAfter(w: World, v: World, h: nat, o: Object) {
    && h < |w.objects|
    && (v.table == w.table - {o.id} || (v.table == w.table && o.undone == w.objects[h].undone))
  }

  /** Every step of a call at work is one of these, and the table loses an ID only by undoing. */
  lemma StepIsOne(envs: Surroundings, w: World, a: Action, h: nat) returns (o: Object, c: Call)
    requires LocksSound(w) && AllLived(envs, w)
    requires (a.Acquire? || a.Stamp? || a.Finish? || a.Undo?) && AtWork(w, a.call) && h == w.calls[a.call].handle
    ensures var v := AfterStep(envs, w, a, h);
      && OneStep(w, v, a.call, h, o, c) && IsLived(envs(h), o.id, o.session)
      && TableAfter(w, v, h, o) && (v.table != w.table ==> a.Undo? && w.calls[a.call].Undoing?)
  {
    var v := AfterStep(envs, w, a, h);
    o, c := v.objects[h], v.calls[a.call];
    assert IsLived(envs(h), w.objects[h].id, w.objects[h].session);
    if a.Finish? && w.calls[a.call].Running? {
      LivesOn(envs(h), w.objects[h].id, w.objects[h].session, w.calls[a.call].op);
    }
    assert v == w ==> w.objects == w.objects[h := o] && w.calls == w.calls[a.call := c];
  }

  lemma StepKeepsTable(w: World, v: World, call: nat, h: nat, o: Object, c: Call)
    requires TableSound(w) && OneStep(w, v, call, h, o, c) && TableAfter(w, v, h, o)
    ensures TableSound(v)
  {
    NoLarger(v.table, w.table);
  }

  lemma LookupKeepsLocks(
      w: World, call: nat, sessionId: string, op: Operation, now: int, randomId: Option<string>, room: map<string, nat>)
    requires LocksSound(w) && TableSound(w) && call !in w.calls
    ensures LocksSound(AfterLookup(w, call, sessionId, op, now, randomId, room))
  {
  }

  lemma LookupGrows(
      w: World, call: nat, sessionId: string, op: Operation, now: int, randomId: Option<string>, room: map<string, nat>)
    ensures Grows(w, AfterLookup(w, call, sessionId, op, now, randomId, room))
  {
  }

  lemma LookupKeepsLives(envs: Surroundings, w: World, a: Action)
    requires AllLived(envs, w) && a.Lookup?
    ensures AllLived(envs, AfterLookup(w, a.call, a.sessionId, a.op, a.now, a.randomId, a.room))
  {
    var v := AfterLookup(w, a.call, a.sessionId, a.op, a.now, a.randomId, a.room);
    forall k | 0 <= k < |v.objects|
      ensures IsLived(envs(k), v.objects[k].id, v.objects[k].session)
    {
      if k < |w.objects| {
        assert IsLived(envs(k), w.objects[k].id, w.objects[k].session);
        assert v.objects[k] == w.objects[k];
      } else {
        LifeBegins(envs(k), v.objects[k].id);
      }
    }
  }

  lemma NextSound(envs: Surroundings, w: World, a: Action)
    requires Sound(envs, w)
    ensures Sound(envs, Next(envs, w, a)) && Grows(w, Next(envs, w, a))
  {
    if a.Lookup? {
      if a.call !in w.calls {
        LookupLooks(w, a);
        LookupKeepsTable(w, Next(envs, w, a), a);
        LookupKeepsLocks(w, a.call, a.sessionId, a.op, a.now, a.randomId, a.room);
        LookupGrows(w, a.call, a.sessionId, a.op, a.now, a.randomId, a.room);
        LookupKeepsLives(envs, w, a);
      }
    } else if a.Reset? {
      RemovalKeepsTable(w, a.id);
    } else if AtWork(w, a.call) {
      StepSound(envs, w, a, w.calls[a.call].handle);
    }
  }

  lemma StepSound(envs: Surroundings, w: World, a: Action, h: nat)
    requires Sound(envs, w)
    requires (a.Acquire? || a.Stamp? || a.Finish? || a.Undo?) && AtWork(w, a.call) && h == w.calls[a.call].handle
    ensures Sound(envs, AfterStep(envs, w, a, h)) && Grows(w, AfterStep(envs, w, a, h))
  {
    var v := AfterStep(envs, w, a, h);
    var o, c := StepIsOne(envs, w, a, h);
    OneStepGrows(w, v, a.call, h, o, c);
    OneStepKeepsLocks(w, v, a.call, h, o, c);
    OneStepKeepsLives(envs, w, v, a.call, h, o, c);
    StepKeepsTable(w, v, a.call, h, o, c);
  }

  // ---- Every interleaving ------------------------------------------------------------------

  lemma HistorySound(envs: Surroundings, actions: seq<Action>, worlds: seq<World>, n: nat)
    requires IsHistory(envs, actions, worlds) && n < |worlds|
    ensures Sound(envs, worlds[n])
  {
    var next := (w: World, a: Action) => Next(envs, w, a);
    var inv := (w: World) => Sound(envs, w);
    forall w, a | inv(w)
      ensures inv(next(w, a))
    {
      NextSound(envs, w, a);
    }
    Invariant(EMPTY, next, actions, worlds, inv, n);
  }

  /** However requests interleave: at most 32 sessions are in the table, and every session, also one that
      has left it while requests still work on it, is the end of a life of its own, with its calls and
      results paired unless a random ID was refused in it. */
  lemma EverySessionLives(envs: Surroundings, actions: seq<Action>, worlds: seq<World>, n: nat)
    requires IsHistory(envs, actions, worlds) && n < |worlds|
    ensures |worlds[n].table| <= 32 && AllLived(envs, worlds[n])
    ensures forall h :: 0 <= h < |worlds[n].objects| && IdRefused !in worlds[n].objects[h].session.log ==>
      && PairedByIndex(worlds[n].objects[h].session.messages)
      && LeftOpen(worlds[n].objects[h].session.messages, Outstanding(worlds[n].objects[h].session.pending))
  {
    HistorySound(envs, actions, worlds, n);
    var objects := worlds[n].objects;
    forall h | 0 <= h < |objects| && IdRefused !in objects[h].session.log
      ensures PairedByIndex(objects[h].session.messages)
      ensures LeftOpen(objects[h].session.messages, Outstanding(objects[h].session.pending))
    {
      LivedPairs(envs(h), objects[h].id, objects[h].session);
    }
  }

  /** Two operations are never at work on one session. */
  lemma OneAtATime(envs: Surroundings, actions: seq<Action>, worlds: seq<World>, n: nat, c: nat, d: nat)
    requires IsHistory(envs, actions, worlds) && n < |worlds|
    requires c in worlds[n].calls && d in worlds[n].calls && Holds(worlds[n].calls[c]) && Holds(worlds[n].calls[d])
    requires worlds[n].calls[c].handle == worlds[n].calls[d].handle
    ensures c == d
  {
    HistorySound(envs, actions, worlds, n);
  }

  /** The session a failed first turn has taken out of the table is never found there again. */
  lemma {:induction false} FailedFirstTurnStaysOut(
      envs: Surroundings, actions: seq<Action>, worlds: seq<World>, m: nat, n: nat, call: nat)
    requires IsHistory(envs, actions, worlds) && m < n < |worlds| && actions[m] == Undo(call)
    requires call in worlds[m].calls && worlds[m].calls[call].Undoing?
    ensures worlds[m].calls[call].handle < |worlds[n].objects| && worlds[n].objects[worlds[m].calls[call].handle].undone
    ensures forall id :: id in worlds[n].table ==> worlds[n].table[id] != worlds[m].calls[call].handle
  {
    HistorySound(envs, actions, worlds, m);
    HistorySound(envs, actions, worlds, n);
    assert worlds[m + 1] == Next(envs, worlds[m], actions[m]);
    UndoneStays(envs, actions, worlds, m + 1, n, worlds[m].calls[call].handle);
  }

  lemma StepGrows(envs: Surroundings, actions: seq<Action>, worlds: seq<World>, n: nat)
    requires IsHistory(envs, actions, worlds) && n < |actions|
    ensures Grows(worlds[n], worlds[n + 1])
  {
    HistorySound(envs, actions, worlds, n);
    NextSound(envs, worlds[n], actions[n]);
    assert worlds[n + 1] == Next(envs, worlds[n], actions[n]);
  }

  lemma {:induction false} UndoneStays(
      envs: Surroundings, actions: seq<Action>, worlds: seq<World>, m: nat, n: nat, h: nat)
    requires IsHistory(envs, actions, worlds) && m <= n < |worlds|
    requires h < |worlds[m].objects| && worlds[m].objects[h].undone
    ensures h < |worlds[n].objects| && worlds[n].objects[h].undone
  {
    if m < n {
      UndoneStays(envs, actions, worlds, m, n - 1, h);
      StepGrows(envs, actions, worlds, n - 1);
    }
  }

  // ---- How a session is lost ---------------------------------------------------------------

  /** The one lookup that may take `id` away: it has expired, or there are 32 and none that stays was
      updated earlier, or the random ID of the new session is its own. */
  predicate LookupTakes(w: World, a: Action, id: string)
    requires a.Lookup? && TableSound(w) && id in w.table
  {
    var stamp := w.objects[w.table[id]].stamp;
    || stamp < a.now - 6 * 3600 * 1_000_000_000
    || (TrimSpace(a.sessionId) == "" && a.randomId == Some(id))
    || (&& TrimSpace(a.sessionId) == "" && |Current(w, a.now)| == MAX_SESSIONS
        && forall kept :: kept in a.room ==> kept in w.table && stamp <= w.objects[w.table[kept]].stamp)
  }

  /** Over every interleaving: an ID loses its session only to a reset of that ID, to the undoing of a
      failed first turn under it, or to a lookup that may take it. No operation, the session's own or
      another's, ends with the session gone unless one of these came between. */
  lemma LostOnlyWhen(envs: Surroundings, actions: seq<Action>, worlds: seq<World>, n: nat, id: string)
    requires IsHistory(envs, actions, worlds) && n < |actions|
    requires id in worlds[n].table && !(id in worlds[n + 1].table && worlds[n + 1].table[id] == worlds[n].table[id])
    ensures TableSound(worlds[n])
    ensures match actions[n]
      case Reset(k) => k == id
      case Undo(call) => call in worlds[n].calls && worlds[n].calls[call].Undoing?
        && worlds[n].calls[call].handle < |worlds[n].objects| && worlds[n].objects[worlds[n].calls[call].handle].id == id
      case Lookup(_, _, _, _, _, _) => LookupTakes(worlds[n], actions[n], id)
      case _ => false
  {
    HistorySound(envs, actions, worlds, n);
    var w, a := worlds[n], actions[n];
    assert worlds[n + 1] == Next(envs, w, a);
    if a.Lookup? {
      LookupLooks(w, a);
      LookupLoses(w, worlds[n + 1], a, id);
    } else if !a.Reset? && AtWork(w, a.call) {
      var o, c := StepIsOne(envs, w, a, w.calls[a.call].handle);
    }
  }

  lemma LookupLoses(w: World, v: World, a: Action, id: string)
    requires TableSound(w) && a.Lookup? && id in w.table && !(id in v.table && v.table[id] == w.table[id])
    requires Looked(w, v, a)
    ensures LookupTakes(w, a, id)
  {
    if id in Current(w, a.now) && v.table != Current(w, a.now) && id !in a.room {
      Crowded(w, a.room, a.now, id);
    }
  }

  /** And what has not been updated for six hours is gone after every lookup of a session by its ID. */
  lemma ExpiredAreDropped(envs: Surroundings, actions: seq<Action>, worlds: seq<World>, n: nat, id: string)
    requires IsHistory(envs, actions, worlds) && n < |actions| && actions[n].Lookup? && actions[n].call !in worlds[n].calls
    requires TrimSpace(actions[n].sessionId) != ""
    requires actions[n].op.TurnOp? ==> ValidUserMessage(TrimSpace(actions[n].op.message))
    requires id in worlds[n].table && worlds[n].table[id] < |worlds[n].objects|
    ensures id in worlds[n + 1].table <==>
      worlds[n].objects[worlds[n].table[id]].stamp >= actions[n].now - 6 * 3600 * 1_000_000_000
  {
    assert worlds[n + 1] == Next(envs, worlds[n], actions[n]);
  }

  lemma Crowded(w: World, room: map<string, nat>, now: int, id: string)
    requires TableSound(w) && MakesRoom(w, room, now) && id in Current(w, now) && id !in room
    ensures |Current(w, now)| == MAX_SESSIONS
    ensures forall kept :: kept in room ==>
      kept in w.table && w.objects[w.table[id]].stamp <= w.objects[w.table[kept]].stamp
  {
    var current := Current(w, now);
    NoLarger(current, w.table);
    SameCount(w, current);
    SameCount(w, room);
    FewerKeys(room.Keys, current.Keys - {id});
    assert |room.Keys| == |room| && |current.Keys| == |current|;
    forall kept | kept in room
      ensures kept in w.table && w.objects[w.table[id]].stamp <= w.objects[w.table[kept]].stamp
    {
      assert id in Stamps(w, current) && id !in Stamps(w, room) && kept in Stamps(w, room);
    }
  }

  // ---- Runs ------------------------------------------------------------------------------

  /** Some actions lead from one world to the other. */
  ghost predicate Leads(envs: Surroundings, w: World, v: World) {
    Ends(w, (w, a) => Next(envs, w, a), v)
  }

  lemma LeadsNowhere(envs: Surroundings, w: World)
    ensures Leads(envs, w, w)
  {
    EndsAtFirst(w, (w: World, a: Action) => Next(envs, w, a));
  }

  lemma LeadsOn(envs: Surroundings, w: World, v: World, a: Action)
    requires Leads(envs, w, v)
    ensures Leads(envs, w, Next(envs, v, a))
  {
    EndsAtNext(w, (w: World, a: Action) => Next(envs, w, a), v, a);
  }

  /** A session and its call when the operation on it has ended. */
  function Worked(envs: Surroundings, w: World, call: nat, h: nat, op: Operation, isNew: bool): World
    requires h < |w.objects|
  {
    var o := w.objects[h];
    var (s, result) := Apply(envs(h), o.id, o.session, op);
    var failed := isNew && result.Err?;
    World(if failed then w.table - {o.id} else w.table,
          w.objects[h := Object(o.id, s, s.updated, None, o.undone || failed)],
          w.calls[call := Over(Answer(result))])
  }

  /** The session is locked and its stamp set to what the operation will leave. */
  function Begun(w: World, call: nat, h: nat, op: Operation, isNew: bool, stamp: int): World
    requires h < |w.objects|
  {
    Put(w, call, h, w.objects[h].(holder := Some(call), stamp := stamp), Running(h, op, isNew))
  }

  lemma BeginLeads(
      envs: Surroundings, start: World, w: World, call: nat, h: nat, op: Operation, isNew: bool, stamp: int)
    requires Leads(envs, start, w) && h < |w.objects| && w.objects[h].holder.None?
    requires call in w.calls && w.calls[call] == Waiting(h, op, isNew)
    ensures Leads(envs, start, Begun(w, call, h, op, isNew, stamp))
  {
    LeadsOn(envs, start, w, Acquire(call));
    var locked := Put(w, call, h, w.objects[h].(holder := Some(call)), Running(h, op, isNew));
    assert Next(envs, w, Acquire(call)) == locked;
    LeadsOn(envs, start, locked, Stamp(call, stamp));
    assert Next(envs, locked, Stamp(call, stamp)) == Begun(w, call, h, op, isNew, stamp);
  }

  /** And when the operation has ended, with its failed first turn still to be undone. */
  function Failing(w: World, call: nat, h: nat, s: Session, result: TurnResult): World
    requires h < |w.objects|
  {
    Put(w, call, h, w.objects[h].(session := s, holder := Some(call), stamp := s.updated), Undoing(h, result))
  }

  lemma WorkLeads(envs: Surroundings, start: World, w: World, call: nat, h: nat, op: Operation, isNew: bool)
    requires Leads(envs, start, w) && h < |w.objects| && w.objects[h].holder.None?
    requires call in w.calls && w.calls[call] == Waiting(h, op, isNew)
    ensures Leads(envs, start, Worked(envs, w, call, h, op, isNew))
  {
    var (s, result) := Apply(envs(h), w.objects[h].id, w.objects[h].session, op);
    var begun := Begun(w, call, h, op, isNew, s.updated);
    BeginLeads(envs, start, w, call, h, op, isNew, s.updated);
    LeadsOn(envs, start, begun, Finish(call));
    if isNew && result.Err? {
      FinishFails(envs, w, call, h, op);
      LeadsOn(envs, start, Failing(w, call, h, s, result), Undo(call));
      UndoFailing(envs, w, call, h, op, s, result);
    } else {
      FinishEnds(envs, w, call, h, op, isNew);
    }
  }

  lemma FinishEnds(envs: Surroundings, w: World, call: nat, h: nat, op: Operation, isNew: bool)
    requires h < |w.objects| && !(isNew && Apply(envs(h), w.objects[h].id, w.objects[h].session, op).1.Err?)
    ensures var stamp := Apply(envs(h), w.objects[h].id, w.objects[h].session, op).0.updated;
      Next(envs, Begun(w, call, h, op, isNew, stamp), Finish(call)) == Worked(envs, w, call, h, op, isNew)
  {
  }

  lemma FinishFails(envs: Surroundings, w: World, call: nat, h: nat, op: Operation)
    requires h < |w.objects| && Apply(envs(h), w.objects[h].id, w.objects[h].session, op).1.Err?
    ensures var (s, result) := Apply(envs(h), w.objects[h].id, w.objects[h].session, op);
      Next(envs, Begun(w, call, h, op, true, s.updated), Finish(call)) == Failing(w, call, h, s, result)
  {
  }

  lemma UndoFailing(
      envs: Surroundings, w: World, call: nat, h: nat, op: Operation, s: Session, result: TurnResult)
    requires h < |w.objects| && result.Err? && (s, result) == Apply(envs(h), w.objects[h].id, w.objects[h].session, op)
    ensures Next(envs, Failing(w, call, h, s, result), Undo(call)) == Worked(envs, w, call, h, op, true)
  {
  }

  /** A turn can succeed and be answered although its session has been reset meanwhile. */
  lemma TurnOutlivesItsSession(envs: Surroundings, message: string) returns (w: World)
    requires Turn(envs(0), "s", NEW_SESSION, message).1.Ok?
    ensures Leads(envs, EMPTY, w) && w.table == map[] && 0 in w.calls
    ensures w.calls[0] == Over(Ok(Turn(envs(0), "s", NEW_SESSION, message).1.value))
  {
    var op := TurnOp(message);
    var entered := Opened(envs, op);
    LeadsOn(envs, EMPTY, entered, Reset("s"));
    var gone := entered.(table := map[]);
    assert Next(envs, entered, Reset("s")) == gone;
    WorkLeads(envs, EMPTY, gone, 0, 0, op, true);
    w := Worked(envs, gone, 0, 0, op, true);
  }

  /** A first lookup. */
  lemma Opened(envs: Surroundings, op: Operation) returns (w: World)
    requires op.TurnOp? && ValidUserMessage(TrimSpace(op.message))
    ensures Leads(envs, EMPTY, w)
    ensures w == World(map["s" := 0], [NewObject("s", 0)], map[0 := Waiting(0, op, true)])
  {
    var look := Action.Lookup(0, "", op, 0, Some("s"), map[]);
    LeadsNowhere(envs, EMPTY);
    LeadsOn(envs, EMPTY, EMPTY, look);
    EmptyRoom();
    w := Next(envs, EMPTY, look);
  }

  lemma EmptyRoom()
    ensures MakesRoom(EMPTY, map[], 0)
  {
    assert Stamps(EMPTY, map[]) == map[] && Current(EMPTY, 0) == map[];
  }

  // ---- A request alone ---------------------------------------------------------------------

  /** What the IDs of the table stand for. */
  function LiveOf(w: World): Live {
    map id | id in w.table && w.table[id] < |w.objects| :: w.objects[w.table[id]].session
  }

  /** No request is at work, and others see the sessions' own timestamps. */
  predicate Idle(w: World) {
    && TableSound(w)
    && forall id :: id in w.table ==>
         w.objects[w.table[id]].holder.None? && w.objects[w.table[id]].stamp == w.objects[w.table[id]].session.updated
  }

  /** The environments by ID are those of the objects the IDs stand for, and of the next one. */
  ghost predicate SameSurroundings(envs: Surroundings, byId: Environments, w: World, randomId: Option<string>) {
    && (forall id :: id in w.table ==> byId(id) == envs(w.table[id]))
    && (randomId.Some? ==> byId(randomId.value) == envs(|w.objects|))
  }

  lemma IdleCurrent(w: World, now: int)
    requires Idle(w)
    ensures LiveOf(w.(table := Current(w, now))) == Unexpired(LiveOf(w), now)
    ensures Stamps(w, Current(w, now)) == Times(Unexpired(LiveOf(w), now))
  {
  }

  /** The operation's part, seen through the table. */
  lemma WorkedLive(envs: Surroundings, w: World, call: nat, h: nat, id: string, op: Operation, isNew: bool)
    requires TableSound(w) && id in w.table && w.table[id] == h
    ensures var (s, result) := Apply(envs(h), id, w.objects[h].session, op);
      LiveOf(Worked(envs, w, call, h, op, isNew)) ==
        if isNew && result.Err? then LiveOf(w) - {id} else LiveOf(w)[id := s]
  {
    var v := Worked(envs, w, call, h, op, isNew);
    forall k | k in w.table && k != id
      ensures w.table[k] != h
    {
    }
    assert v.objects[h].session == Apply(envs(h), id, w.objects[h].session, op).0;
  }

  /** The operation on an old session found by a lookup. */
  lemma OldWorks(envs: Surroundings, w: World, call: nat, id: string, op: Operation, now: int) returns (v: World)
    requires Idle(w) && call !in w.calls && TrimSpace(id) != ""
    requires op.TurnOp? ==> ValidUserMessage(TrimSpace(op.message))
    ensures Leads(envs, w, v) && call in v.calls
    ensures id !in Unexpired(LiveOf(w), now) ==>
      LiveOf(v) == Unexpired(LiveOf(w), now) && v.calls[call] == Over(Err(NoSession(UnknownSession)))
    ensures id in Unexpired(LiveOf(w), now) ==>
      var (s, result) := Apply(envs(w.table[id]), id, LiveOf(w)[id], op);
      LiveOf(v) == Unexpired(LiveOf(w), now)[id := s] && v.calls[call] == Over(Answer(result))
  {
    var look := Action.Lookup(call, id, op, now, None, map[]);
    LeadsNowhere(envs, w);
    LeadsOn(envs, w, w, look);
    IdleCurrent(w, now);
    v := Next(envs, w, look);
    if id in Current(w, now) {
      var found, h := v, w.table[id];
      PartKeepsTable(w, found);
      WorkLeads(envs, w, found, call, h, op, false);
      WorkedLive(envs, found, call, h, id, op, false);
      v := Worked(envs, found, call, h, op, false);
    }
  }

  /** Sessions of the table, by the objects they are. */
  predicate Stands(w: World, live: Live, room: map<string, nat>) {
    && room.Keys == live.Keys && Within(room, w.table)
    && forall id :: id in room ==>
         room[id] < |w.objects| && live[id] == w.objects[room[id]].session && w.objects[room[id]].stamp == live[id].updated
  }

  lemma StandsFor(w: World, live: Live, room: map<string, nat>)
    requires Stands(w, live, room)
    ensures Stamps(w, room) == Times(live)
    ensures LiveOf(w.(table := room)) == live
  {
  }

  lemma RoomStands(w: World, live: Live, now: int) returns (room: map<string, nat>)
    requires Idle(w) && MadeRoom(LiveOf(w), live, now)
    ensures Stands(w, live, room) && Within(room, Current(w, now))
  {
    room := map id | id in live && id in w.table :: w.table[id];
    forall id | id in live
      ensures id in Current(w, now) && live[id] == w.objects[w.table[id]].session
    {
      assert id in Unexpired(LiveOf(w), now);
    }
  }

  /** The table's part in a new session: the room its lookup makes. */
  lemma RoomInTable(w: World, live: Live, now: int) returns (room: map<string, nat>)
    requires Idle(w) && MadeRoom(LiveOf(w), live, now)
    ensures MakesRoom(w, room, now) && Within(room, w.table) && LiveOf(w.(table := room)) == live
  {
    IdleCurrent(w, now);
    room := RoomStands(w, live, now);
    StandsFor(w, live, room);
  }

  lemma EntryLive(w: World, room: map<string, nat>, id: string, now: int, call: nat, op: Operation) returns (v: World)
    requires TableSound(w) && Within(room, w.table)
    ensures v == World(room[id := |w.objects|], w.objects + [NewObject(id, now)],
                       w.calls[call := Waiting(|w.objects|, op, true)])
    ensures LiveOf(v) == LiveOf(w.(table := room))[id := NEW_SESSION]
  {
    v := World(room[id := |w.objects|], w.objects + [NewObject(id, now)],
               w.calls[call := Waiting(|w.objects|, op, true)]);
    assert v.objects[|w.objects|].session == NEW_SESSION;
  }

  lemma NewEnters(envs: Surroundings, w: World, call: nat, live: Live, message: string, now: int, id: string)
    returns (v: World)
    requires Idle(w) && call !in w.calls && ValidUserMessage(TrimSpace(message)) && id != ""
    requires MadeRoom(LiveOf(w), live, now)
    ensures Leads(envs, w, v) && TableSound(v) && LiveOf(v) == live[id := NEW_SESSION]
    ensures id in v.table && v.table[id] == |w.objects| && v.objects == w.objects + [NewObject(id, now)]
    ensures call in v.calls && v.calls[call] == Waiting(|w.objects|, TurnOp(message), true)
  {
    var room := RoomInTable(w, live, now);
    var look := Action.Lookup(call, "", TurnOp(message), now, Some(id), room);
    LeadsNowhere(envs, w);
    LeadsOn(envs, w, w, look);
    LookupLooks(w, look);
    LookupKeepsTable(w, AfterLookup(w, call, "", TurnOp(message), now, Some(id), room), look);
    v := EntryLive(w, room, id, now, call, TurnOp(message));
    assert AfterLookup(w, call, "", TurnOp(message), now, Some(id), room) == v;
  }

  lemma NewWorks(envs: Surroundings, w: World, call: nat, live: Live, message: string, now: int, id: string)
    returns (v: World)
    requires Idle(w) && call !in w.calls && ValidUserMessage(TrimSpace(message)) && id != ""
    requires MadeRoom(LiveOf(w), live, now)
    ensures Leads(envs, w, v) && call in v.calls
    ensures var (s, result) := Turn(envs(|w.objects|), id, NEW_SESSION, message);
      && v.calls[call] == Over(Answer(result))
      && LiveOf(v) == if result.Err? then live - {id} else live[id := s]
  {
    var h := |w.objects|;
    var entered := NewEnters(envs, w, call, live, message, now, id);
    WorkLeads(envs, w, entered, call, h, TurnOp(message), true);
    WorkedLive(envs, entered, call, h, id, TurnOp(message), true);
    v := Worked(envs, entered, call, h, TurnOp(message), true);
    ReplacedOrGone(live, id, Turn(envs(h), id, NEW_SESSION, message).0);
  }

  lemma ReplacedOrGone(live: Live, id: string, s: Session)
    ensures live[id := NEW_SESSION] - {id} == live - {id}
    ensures live[id := NEW_SESSION][id := s] == live[id := s]
  {
  }

  lemma NoIdWorks(envs: Surroundings, w: World, call: nat, live: Live, message: string, now: int) returns (v: World)
    requires Idle(w) && call !in w.calls && ValidUserMessage(TrimSpace(message)) && MadeRoom(LiveOf(w), live, now)
    ensures Leads(envs, w, v) && LiveOf(v) == live && call in v.calls
    ensures v.calls[call] == Over(Err(NoSession(NoRandomId)))
  {
    var room := RoomInTable(w, live, now);
    var look := Action.Lookup(call, "", TurnOp(message), now, None, room);
    LeadsNowhere(envs, w);
    LeadsOn(envs, w, w, look);
    v := Next(envs, w, look);
  }

  /** What a turn does when it is alone is what its steps do with no other request between them. */
  lemma TurnAlone(
      envs: Surroundings, byId: Environments, w: World, call: nat, sessionId: string, message: string, now: int,
      randomId: Option<string>, after: Live, r: RequestResult) returns (v: World)
    requires Idle(w) && call !in w.calls && SameSurroundings(envs, byId, w, randomId)
    requires randomId.Some? ==> randomId.value != ""
    requires TurnDone(byId, LiveOf(w), after, sessionId, message, now, randomId, r)
    ensures Leads(envs, w, v) && LiveOf(v) == after && call in v.calls && v.calls[call] == Over(r)
  {
    if !ValidUserMessage(TrimSpace(message)) {
      v := InvalidWorks(envs, w, call, message);
    } else if TrimSpace(sessionId) != "" {
      v := OldWorks(envs, w, call, sessionId, TurnOp(message), now);
    } else if randomId.None? {
      v := NoIdWorks(envs, w, call, after, message, now);
    } else {
      v := FirstTurnAlone(envs, byId, w, call, message, now, randomId.value, after, r);
    }
  }

  lemma FirstTurnAlone(
      envs: Surroundings, byId: Environments, w: World, call: nat, message: string, now: int, id: string,
      after: Live, r: RequestResult) returns (v: World)
    requires Idle(w) && call !in w.calls && byId(id) == envs(|w.objects|) && id != ""
    requires ValidUserMessage(TrimSpace(message)) && FirstTurnDone(byId, LiveOf(w), after, message, now, id, r)
    ensures Leads(envs, w, v) && LiveOf(v) == after && call in v.calls && v.calls[call] == Over(r)
  {
    var live :| MadeRoom(LiveOf(w), live, now) && NewTurnDone(byId, live, after, id, message, r);
    v := NewWorks(envs, w, call, live, message, now, id);
  }

  lemma InvalidWorks(envs: Surroundings, w: World, call: nat, message: string) returns (v: World)
    requires call !in w.calls && !ValidUserMessage(TrimSpace(message))
    ensures Leads(envs, w, v) && LiveOf(v) == LiveOf(w) && call in v.calls
    ensures v.calls[call] == Over(Err(NotDone(InvalidMessage)))
  {
    var look := Action.Lookup(call, "", TurnOp(message), 0, None, map[]);
    LeadsNowhere(envs, w);
    LeadsOn(envs, w, w, look);
    v := Next(envs, w, look);
  }

  /** And so for an approval. */
  lemma ResolveAlone(
      envs: Surroundings, byId: Environments, w: World, call: nat, sessionId: string, approvalId: string,
      approved: bool, now: int, after: Live, r: RequestResult) returns (v: World)
    requires Idle(w) && call !in w.calls && SameSurroundings(envs, byId, w, None)
    requires ResolveDone(byId, LiveOf(w), after, sessionId, approvalId, approved, now, r)
    ensures Leads(envs, w, v) && LiveOf(v) == after && call in v.calls && v.calls[call] == Over(r)
  {
    var op := ResolveOp(approvalId, approved);
    if TrimSpace(sessionId) != "" {
      v := OldWorks(envs, w, call, sessionId, op, now);
    } else {
      var look := Action.Lookup(call, sessionId, op, now, None, map[]);
      LeadsNowhere(envs, w);
      LeadsOn(envs, w, w, look);
      v := Next(envs, w, look);
    }
  }
}
