/**
 The recovery protocol over arbitrary crashes and restarts (internal/managerupdate/coordinator.go,
 RecoverOnStartup, with the record of UpdateRecovery). One process runs at a time; it may die
 between any two file operations, and any version may be the next to start.
 */
module RecoveryProtocol {
  import opened Wrappers
  import opened Runs
  import opened ManagerVersions
  import opened UpdateManifest
  import opened UpdateRecovery

  /** Where the running executable is in its start-up. */
  datatype Process =
    | Down
    | Starting(version: string)
    | MustRollBack(version: string, record: Pending)
    | RollbackChecked(version: string, record: Pending)
    | RollbackOnDisk(version: string, record: Pending)
    | Watching(version: string)
    | Up(version: string)

  /** What happened to the record and the rollback installer, in order. */
  datatype Event =
    | WasPrepared(record: Pending)
    | StartRecorded
    | RollbackVerified
    | RollbackPersisted(reason: string)
    | RollbackLaunched(installer: Path)
    | ClearedHealthy(version: string)
    | ClearedByPrevious(version: string)

  datatype World = World(file: PendingFile, process: Process, history: seq<Event>)

  datatype Action =
    | Boot(version: string)
    | Crash
    | Record(io: Io)
    | VerifyRollback(disk: Disk)
    | BeginRollback(io: Io)
    | LaunchRollback(launches: bool)
    | HealthWindow(io: Io)
    | PrepareUpdate(request: PrepareRequest, disk: Disk, io: Io)

  const REASON := "startup_health_timeout"

  function Logged(w: World, e: Event): seq<Event> {
    w.history + [e]
  }

  function AfterRecord(site: Site, w: World, version: string, io: Io): World {
    var (file, result) := Recorded(site, w.file, version, io);
    match result
    case Err(_) => World(file, Up(version), w.history)
    case Ok(NothingPending) => World(file, Up(version), w.history)
    case Ok(RollbackDone(_)) => World(file, Up(version), Logged(w, ClearedByPrevious(version)))
    case Ok(Started(record, rollBack)) =>
      World(file, if rollBack then MustRollBack(version, record) else Watching(version), Logged(w, StartRecorded))
  }

  function AfterVerify(site: Site, w: World, version: string, record: Pending, disk: Disk): World {
    if InstallerMatches(site.trust, disk, record.rollbackInstaller, record.rollbackMetadata.manifest)
    then World(w.file, RollbackChecked(version, record), Logged(w, RollbackVerified))
    else World(w.file, Up(version), w.history)
  }

  function AfterBegin(site: Site, w: World, version: string, record: Pending, io: Io): World {
    var (file, result) := RollbackBegun(site, w.file, REASON, io);
    if result.Ok? then World(file, RollbackOnDisk(version, record), Logged(w, RollbackPersisted(REASON)))
    else World(file, Up(version), w.history)
  }

  function AfterLaunch(w: World, version: string, record: Pending, launches: bool): World {
    if launches then World(w.file, Down, Logged(w, RollbackLaunched(record.rollbackInstaller)))
    else World(w.file, Up(version), w.history)
  }

  function AfterHealthWindow(site: Site, w: World, version: string, io: Io): World {
    var (file, error) := Healthy(site, w.file, version, io);
    World(file, Up(version), if file != w.file then Logged(w, ClearedHealthy(version)) else w.history)
  }

  function AfterPrepare(site: Site, w: World, version: string, q: PrepareRequest, disk: Disk, io: Io): World {
    var (file, result) := Prepared(site, disk, w.file, q, io);
    if q.previousVersion != version then w
    else World(file, w.process, if result.Ok? then Logged(w, WasPrepared(result.value)) else w.history)
  }

  /** An action that does not fit where the process is changes nothing. */
  function Next(site: Site, w: World, a: Action): World {
    match a
    case Boot(version) => if w.process.Down? then w.(process := Starting(version)) else w
    case Crash => w.(process := Down)
    case Record(io) => if w.process.Starting? then AfterRecord(site, w, w.process.version, io) else w
    case VerifyRollback(disk) =>
      if w.process.MustRollBack? then AfterVerify(site, w, w.process.version, w.process.record, disk) else w
    case BeginRollback(io) =>
      if w.process.RollbackChecked? then AfterBegin(site, w, w.process.version, w.process.record, io) else w
    case LaunchRollback(launches) =>
      if w.process.RollbackOnDisk? then AfterLaunch(w, w.process.version, w.process.record, launches) else w
    case HealthWindow(io) =>
      if w.process.Watching? then AfterHealthWindow(site, w, w.process.version, io) else w
    case PrepareUpdate(q, disk, io) =>
      if w.process.Up? || w.process.Watching? then AfterPrepare(site, w, w.process.version, q, disk, io) else w
  }

  const FRESH := World(Absent, Down, [])

  predicate IsHistory(site: Site, actions: seq<Action>, worlds: seq<World>) {
    IsRun(FRESH, (w, a) => Next(site, w, a), actions, worlds)
  }

  /** The start-up method: the four steps in one call, stopping at the first error. */
  method RecoverOnStartup(store: RecoveryStore, currentVersion: string, disk: Disk,
                          recordIo: Io, beginIo: Io, launches: bool, ghost history: seq<Event>)
    returns (process: Process, events: seq<Event>)
    modifies store
    ensures World(store.file, process, history + events) ==
            var site, w0 := store.site, World(old(store.file), Starting(currentVersion), history);
            var w1 := Next(site, w0, Record(recordIo));
            var w2 := Next(site, w1, VerifyRollback(disk));
            var w3 := Next(site, w2, BeginRollback(beginIo));
            Next(site, w3, LaunchRollback(launches))
  {
    var recorded := store.RecordTargetStartup(currentVersion, recordIo);
    if recorded.Err? || recorded.value.NothingPending? {
      return Up(currentVersion), [];
    }
    if recorded.value.RollbackDone? {
      return Up(currentVersion), [ClearedByPrevious(currentVersion)];
    }
    var record := recorded.value.record;
    if !recorded.value.rollBack {
      return Watching(currentVersion), [StartRecorded];
    }
    if !InstallerMatches(store.site.trust, disk, record.rollbackInstaller, record.rollbackMetadata.manifest) {
      return Up(currentVersion), [StartRecorded];
    }
    var begun := store.BeginRollback(REASON, beginIo);
    if begun.Err? {
      return Up(currentVersion), [StartRecorded, RollbackVerified];
    }
    assert history + [StartRecorded] + [RollbackVerified] + [RollbackPersisted(REASON)] ==
           history + [StartRecorded, RollbackVerified, RollbackPersisted(REASON)];
    if !launches {
      return Up(currentVersion), [StartRecorded, RollbackVerified, RollbackPersisted(REASON)];
    }
    return Down, [StartRecorded, RollbackVerified, RollbackPersisted(REASON), RollbackLaunched(record.rollbackInstaller)];
  }

  // ---- What the history says -------------------------------------------------------------

  /** The record the events add up to. */
  function Replay(history: seq<Event>): Option<Pending> {
    if history == [] then None
    else
      var before := Replay(history[..|history| - 1]);
      match history[|history| - 1]
      case WasPrepared(record) => Some(record)
      case StartRecorded => if before.None? then None else Some(before.value.(attempts := before.value.attempts + 1))
      case RollbackPersisted(reason) =>
        if before.None? then None else Some(before.value.(phase := RollingBack, reason := reason))
      case ClearedHealthy(_) => None
      case ClearedByPrevious(_) => None
      case RollbackVerified => before
      case RollbackLaunched(_) => before
  }

  function Last(history: seq<Event>): Option<Event> {
    if history == [] then None else Some(history[|history| - 1])
  }

  /** A record as Prepare writes it, from verified metadata, for a strictly newer version. */
  predicate FreshRecord(site: Site, p: Pending) {
    && WellFormed(site, p) && p.attempts == 0 && p.phase == Installing && p.reason == ""
    && Newer(p.targetVersion, p.previousVersion)
  }

  /** When each event may happen. */
  predicate MayFollow(site: Site, history: seq<Event>, e: Event) {
    var now := Replay(history);
    match e
    case WasPrepared(record) => now.None? && FreshRecord(site, record)
    case StartRecorded => now.Some? && now.value.phase == Installing && now.value.attempts <= MAX_ATTEMPTS
    case RollbackVerified =>
      now.Some? && now.value.phase == Installing && now.value.attempts >= MAX_ATTEMPTS
      && Last(history) == Some(StartRecorded)
    case RollbackPersisted(_) =>
      now.Some? && now.value.phase == Installing && now.value.attempts == MAX_ATTEMPTS
      && Last(history) == Some(RollbackVerified)
    case RollbackLaunched(installer) =>
      now.Some? && now.value.phase == RollingBack && now.value.attempts == MAX_ATTEMPTS
      && installer == now.value.rollbackInstaller
      && Last(history).Some? && Last(history).value.RollbackPersisted?
    case ClearedHealthy(version) =>
      now.Some? && now.value.phase == Installing && version == now.value.targetVersion
    case ClearedByPrevious(version) =>
      now.Some? && now.value.phase == RollingBack && version == now.value.previousVersion
  }

  predicate Lawful(site: Site, history: seq<Event>) {
    history == [] ||
    (Lawful(site, history[..|history| - 1]) && MayFollow(site, history[..|history| - 1], history[|history| - 1]))
  }

  lemma {:induction false} LawfulAt(site: Site, history: seq<Event>, i: nat)
    requires Lawful(site, history) && i < |history|
    ensures MayFollow(site, history[..i], history[i])
  {
    if i < |history| - 1 {
      LawfulAt(site, history[..|history| - 1], i);
      assert history[..|history| - 1][..i] == history[..i];
    }
  }

  /** The record on disk is what the events add up to; it stays readable but for a fourth start. */
  predicate FileAgrees(site: Site, w: World) {
    match Replay(w.history)
    case None => w.file == Absent
    case Some(p) =>
      && w.file == Stored(p)
      && (WellFormed(site, p) || (p.attempts == MAX_ATTEMPTS + 1 && WellFormed(site, p.(attempts := MAX_ATTEMPTS))))
  }

  predicate ProcessAgrees(w: World) {
    match w.process
    case MustRollBack(_, record) =>
      && w.file == Stored(record) && record.phase == Installing && record.attempts >= MAX_ATTEMPTS
      && Last(w.history) == Some(StartRecorded)
    case RollbackChecked(_, record) =>
      && w.file == Stored(record) && record.phase == Installing && record.attempts >= MAX_ATTEMPTS
      && Last(w.history) == Some(RollbackVerified)
    case RollbackOnDisk(_, record) =>
      && w.file == Stored(record.(phase := RollingBack, reason := REASON)) && record.attempts == MAX_ATTEMPTS
      && Last(w.history) == Some(RollbackPersisted(REASON))
    case _ => true
  }

  predicate Consistent(site: Site, w: World) {
    Lawful(site, w.history) && FileAgrees(site, w) && ProcessAgrees(w)
  }

  lemma OneMore(site: Site, history: seq<Event>, e: Event)
    requires Lawful(site, history) && MayFollow(site, history, e)
    ensures Lawful(site, history + [e])
    ensures Last(history + [e]) == Some(e)
    ensures Replay(history + [e]) ==
      match e
      case WasPrepared(record) => Some(record)
      case StartRecorded => Some(Replay(history).value.(attempts := Replay(history).value.attempts + 1))
      case RollbackPersisted(reason) => Some(Replay(history).value.(phase := RollingBack, reason := reason))
      case ClearedHealthy(_) => None
      case ClearedByPrevious(_) => None
      case _ => Replay(history)
  {
    assert (history + [e])[..|history|] == history;
  }

  lemma StartedConsistent(site: Site, w: World, version: string, io: Io)
    requires Consistent(site, w)
    requires var result := Recorded(site, w.file, version, io).1; result.Ok? && result.value.Started?
    ensures Consistent(site, AfterRecord(site, w, version, io))
  {
    OneMore(site, w.history, StartRecorded);
  }

  lemma RollbackDoneConsistent(site: Site, w: World, version: string, io: Io)
    requires Consistent(site, w)
    requires var result := Recorded(site, w.file, version, io).1; result.Ok? && result.value.RollbackDone?
    ensures Consistent(site, AfterRecord(site, w, version, io))
  {
    OneMore(site, w.history, ClearedByPrevious(version));
  }

  lemma NothingRecorded(site: Site, file: PendingFile, version: string, io: Io)
    requires var result := Recorded(site, file, version, io).1; result.Err? || result.value.NothingPending?
    ensures Recorded(site, file, version, io).0 == file
  {
  }

  lemma RecordConsistent(site: Site, w: World, version: string, io: Io)
    requires Consistent(site, w)
    ensures Consistent(site, AfterRecord(site, w, version, io))
  {
    var result := Recorded(site, w.file, version, io).1;
    if result.Ok? && result.value.Started? {
      StartedConsistent(site, w, version, io);
    } else if result.Ok? && result.value.RollbackDone? {
      RollbackDoneConsistent(site, w, version, io);
    } else {
      NothingRecorded(site, w.file, version, io);
    }
  }

  lemma VerifyConsistent(site: Site, w: World, disk: Disk)
    requires Consistent(site, w) && w.process.MustRollBack?
    ensures Consistent(site, AfterVerify(site, w, w.process.version, w.process.record, disk))
  {
    OneMore(site, w.history, RollbackVerified);
  }

  lemma BeginConsistent(site: Site, w: World, io: Io)
    requires Consistent(site, w) && w.process.RollbackChecked?
    ensures Consistent(site, AfterBegin(site, w, w.process.version, w.process.record, io))
  {
    if RollbackBegun(site, w.file, REASON, io).1.Ok? {
      OneMore(site, w.history, RollbackPersisted(REASON));
    }
  }

  lemma LaunchConsistent(site: Site, w: World, launches: bool)
    requires Consistent(site, w) && w.process.RollbackOnDisk?
    ensures Consistent(site, AfterLaunch(w, w.process.version, w.process.record, launches))
  {
    OneMore(site, w.history, RollbackLaunched(w.process.record.rollbackInstaller));
  }

  lemma HealthConsistent(site: Site, w: World, version: string, io: Io)
    requires Consistent(site, w)
    ensures Consistent(site, AfterHealthWindow(site, w, version, io))
  {
    var v := AfterHealthWindow(site, w, version, io);
    if v.history != w.history {
      OneMore(site, w.history, ClearedHealthy(version));
    }
  }

  lemma PrepareConsistent(site: Site, w: World, version: string, q: PrepareRequest, disk: Disk, io: Io)
    requires Consistent(site, w) && (w.process.Up? || w.process.Watching?)
    ensures Consistent(site, AfterPrepare(site, w, version, q, disk, io))
  {
    if Prepared(site, disk, w.file, q, io).1.Ok? {
      OneMore(site, w.history, WasPrepared(NewRecord(q)));
    }
  }

  lemma ProcessChanges(site: Site, w: World, process: Process)
    requires Consistent(site, w) && (process.Down? || process.Starting?)
    ensures Consistent(site, w.(process := process))
  {
  }

  lemma NextConsistent(site: Site, w: World, a: Action)
    requires Consistent(site, w)
    ensures Consistent(site, Next(site, w, a))
  {
    match a {
      case Boot(version) => if w.process.Down? { ProcessChanges(site, w, Starting(version)); }
      case Crash => ProcessChanges(site, w, Down);
      case Record(io) => if w.process.Starting? { RecordConsistent(site, w, w.process.version, io); }
      case VerifyRollback(disk) => if w.process.MustRollBack? { VerifyConsistent(site, w, disk); }
      case BeginRollback(io) => if w.process.RollbackChecked? { BeginConsistent(site, w, io); }
      case LaunchRollback(launches) => if w.process.RollbackOnDisk? { LaunchConsistent(site, w, launches); }
      case HealthWindow(io) => if w.process.Watching? { HealthConsistent(site, w, w.process.version, io); }
      case PrepareUpdate(q, disk, io) =>
        if w.process.Up? || w.process.Watching? { PrepareConsistent(site, w, w.process.version, q, disk, io); }
    }
  }

  // ---- Every run -------------------------------------------------------------------------

  lemma HistoryConsistent(site: Site, actions: seq<Action>, worlds: seq<World>, n: nat)
    requires IsHistory(site, actions, worlds) && n < |worlds|
    ensures Consistent(site, worlds[n])
  {
    var next := (w: World, a: Action) => Next(site, w, a);
    var inv := (w: World) => Consistent(site, w);
    forall w, a | inv(w)
      ensures inv(next(w, a))
    {
      NextConsistent(site, w, a);
    }
    Invariant(FRESH, next, actions, worlds, inv, n);
  }

  function StartsIn(events: seq<Event>): nat {
    if events == [] then 0
    else StartsIn(events[..|events| - 1]) + (if events[|events| - 1].StartRecorded? then 1 else 0)
  }

  predicate Clears(e: Event) {
    e.ClearedHealthy? || e.ClearedByPrevious?
  }

  function Since(before: seq<Event>, prepared: Pending, after: seq<Event>): seq<Event> {
    before + [WasPrepared(prepared)] + after
  }

  /** Neither prepared again nor cleared. */
  predicate Kept(after: seq<Event>) {
    forall e :: e in after ==> !e.WasPrepared? && !Clears(e)
  }

  predicate RolledBackIn(events: seq<Event>) {
    exists e :: e in events && e.RollbackPersisted?
  }

  /** The record prepared is the one the replay arrives at: nothing in it changed but the phase and its
      reason, and its attempts count the recorded starts. */
  predicate CountedFrom(prepared: Pending, after: seq<Event>, now: Pending) {
    && now == prepared.(attempts := StartsIn(after), phase := now.phase, reason := now.reason)
    && (now.phase == RollingBack <==> RolledBackIn(after))
  }

  lemma OneMoreCounted(prepared: Pending, after: seq<Event>, now: Pending, e: Event)
    requires CountedFrom(prepared, after, now) && Kept(after) && !e.WasPrepared? && !Clears(e)
    ensures Kept(after + [e])
    ensures e.StartRecorded? ==> CountedFrom(prepared, after + [e], now.(attempts := now.attempts + 1))
    ensures e.RollbackPersisted? ==>
      CountedFrom(prepared, after + [e], now.(phase := RollingBack, reason := e.reason))
    ensures !e.StartRecorded? && !e.RollbackPersisted? ==> CountedFrom(prepared, after + [e], now)
  {
    assert (after + [e])[..|after|] == after;
    assert e in after + [e];
    if RolledBackIn(after) {
      var r :| r in after && r.RollbackPersisted?;
      assert r in after + [e];
    }
  }

  /** The events that leave a record other than Prepare found one. */
  lemma FoundOne(site: Site, front: seq<Event>, e: Event)
    requires Lawful(site, front + [e]) && Replay(front + [e]).Some? && !e.WasPrepared?
    ensures Lawful(site, front) && Replay(front).Some? && !Clears(e)
    ensures var was, now := Replay(front).value, Replay(front + [e]).value;
      now == if e.StartRecorded? then was.(attempts := was.attempts + 1)
             else if e.RollbackPersisted? then was.(phase := RollingBack, reason := e.reason)
             else was
  {
    assert (front + [e])[..|front|] == front;
  }

  lemma LastPrepared(site: Site, front: seq<Event>, prepared: Pending)
    requires Lawful(site, front + [WasPrepared(prepared)])
    ensures FreshRecord(site, prepared)
    ensures Replay(front + [WasPrepared(prepared)]) == Some(prepared)
    ensures CountedFrom(prepared, [], prepared)
  {
    assert (front + [WasPrepared(prepared)])[..|front|] == front;
  }

  /** Which Prepare the record on disk comes from: since then nothing cleared it, nothing in it
      changed but the phase and its reason, and its attempts count the recorded starts. */
  lemma {:induction false} RecordSincePrepare(site: Site, history: seq<Event>)
    returns (before: seq<Event>, prepared: Pending, after: seq<Event>)
    requires Lawful(site, history) && Replay(history).Some?
    ensures history == Since(before, prepared, after)
    ensures FreshRecord(site, prepared) && Kept(after)
    ensures CountedFrom(prepared, after, Replay(history).value)
  {
    var front, e := history[..|history| - 1], history[|history| - 1];
    assert history == front + [e];
    if e.WasPrepared? {
      before, prepared, after := front, e.record, [];
      LastPrepared(site, front, prepared);
    } else {
      FoundOne(site, front, e);
      var earlier;
      before, prepared, earlier := RecordSincePrepare(site, front);
      after := earlier + [e];
      OneMoreCounted(prepared, earlier, Replay(front).value, e);
    }
  }

  /** In every reachable world, the file holds a record exactly while the last Prepare is not
      cleared, and it is that record with the recorded starts counted. */
  lemma FileSincePrepare(site: Site, actions: seq<Action>, worlds: seq<World>, n: nat)
    returns (before: seq<Event>, prepared: Pending, after: seq<Event>)
    requires IsHistory(site, actions, worlds) && n < |worlds| && worlds[n].file != Absent
    ensures worlds[n].history == Since(before, prepared, after)
    ensures FreshRecord(site, prepared) && Kept(after)
    ensures worlds[n].file.Stored? && CountedFrom(prepared, after, worlds[n].file.record)
  {
    HistoryConsistent(site, actions, worlds, n);
    before, prepared, after := RecordSincePrepare(site, worlds[n].history);
  }

  /** A clearing is by the target in phase installing or by the previous version in phase rollback. */
  lemma ClearedOnlyByRight(site: Site, actions: seq<Action>, worlds: seq<World>, n: nat, i: nat)
    requires IsHistory(site, actions, worlds) && n < |worlds|
    requires i < |worlds[n].history| && Clears(worlds[n].history[i])
    ensures var e, before := worlds[n].history[i], Replay(worlds[n].history[..i]);
      && before.Some?
      && (e.ClearedHealthy? ==> before.value.phase == Installing && e.version == before.value.targetVersion)
      && (e.ClearedByPrevious? ==> before.value.phase == RollingBack && e.version == before.value.previousVersion)
  {
    HistoryConsistent(site, actions, worlds, n);
    LawfulAt(site, worlds[n].history, i);
  }

  /** Before a rollback launch: the third start, the verified installer, the phase on disk. */
  lemma LaunchFollows(site: Site, history: seq<Event>, installer: Path)
    requires Lawful(site, history) && MayFollow(site, history, RollbackLaunched(installer))
    ensures |history| >= 3
    ensures history[|history| - 3] == StartRecorded && history[|history| - 2] == RollbackVerified
    ensures history[|history| - 1].RollbackPersisted?
  {
    var front := history[..|history| - 1];
    assert MayFollow(site, front, history[|history| - 1]);
    assert MayFollow(site, front[..|front| - 1], front[|front| - 1]);
  }

  /** A rollback launch starts the recorded previous installer, right after it was verified and the
      rollback phase reached the disk, on the third recorded start since Prepare. */
  lemma RollbackOnlyAfterThreeStarts(site: Site, actions: seq<Action>, worlds: seq<World>, n: nat, i: nat)
    returns (before: seq<Event>, prepared: Pending, after: seq<Event>)
    requires IsHistory(site, actions, worlds) && n < |worlds|
    requires i < |worlds[n].history| && worlds[n].history[i].RollbackLaunched?
    ensures worlds[n].history[..i] == Since(before, prepared, after)
    ensures FreshRecord(site, prepared) && Kept(after) && StartsIn(after) == 3
    ensures worlds[n].history[i].installer == prepared.rollbackInstaller
    ensures |after| >= 3
    ensures after[|after| - 3] == StartRecorded && after[|after| - 2] == RollbackVerified
    ensures after[|after| - 1].RollbackPersisted?
  {
    HistoryConsistent(site, actions, worlds, n);
    var h := worlds[n].history;
    LawfulAt(site, h, i);
    LawfulPrefix(site, h, i);
    LaunchFollows(site, h[..i], h[i].installer);
    before, prepared, after := RecordSincePrepare(site, h[..i]);
    TailIsAfter(h[..i], before, prepared, after);
  }

  lemma TailIsAfter(h: seq<Event>, before: seq<Event>, prepared: Pending, after: seq<Event>)
    requires |h| >= 3 && h == Since(before, prepared, after)
    requires h[|h| - 3] == StartRecorded && h[|h| - 2] == RollbackVerified && h[|h| - 1].RollbackPersisted?
    ensures |after| >= 3
    ensures after[|after| - 3] == StartRecorded && after[|after| - 2] == RollbackVerified
    ensures after[|after| - 1].RollbackPersisted?
  {
    assert h[|before|].WasPrepared?;
    assert |before| != |h| - 1 && |before| != |h| - 2 && |before| != |h| - 3;
  }

  lemma {:induction false} LawfulPrefix(site: Site, history: seq<Event>, i: nat)
    requires Lawful(site, history) && i <= |history|
    ensures Lawful(site, history[..i])
  {
    if i < |history| {
      LawfulPrefix(site, history[..|history| - 1], i);
      assert history[..|history| - 1][..i] == history[..i];
    } else {
      assert history[..i] == history;
    }
  }

  // ---- The attempt limit -----------------------------------------------------------------

  /** The limit of three is passed in exactly one way: a target starts, and is recorded, while
      three starts are already recorded and no rollback has begun. */
  lemma FourthAttempt(site: Site, w: World, a: Action)
    requires FileAgrees(site, w) && (w.file.Stored? ==> w.file.record.attempts <= MAX_ATTEMPTS)
    ensures var v := Next(site, w, a);
      (v.file.Stored? && v.file.record.attempts > MAX_ATTEMPTS) <==>
        && a.Record? && a.io.read && a.io.write && w.process.Starting? && w.file.Stored?
        && w.process.version == w.file.record.targetVersion
        && w.file.record.phase == Installing && w.file.record.attempts == MAX_ATTEMPTS
  {
  }

  /** A third start has been recorded and its rollback has not reached the disk. */
  predicate RollbackDue(file: PendingFile) {
    file.Stored? && file.record.phase == Installing && file.record.attempts == MAX_ATTEMPTS
  }

  /** The target starts and is recorded while a rollback is due. */
  predicate RecordsFourth(w: World, a: Action) {
    && a.Record? && a.io.read && a.io.write && RollbackDue(w.file)
    && w.process == Starting(w.file.record.targetVersion)
  }

  predicate WithinLimit(w: World) {
    w.file.Stored? ==> w.file.record.attempts <= MAX_ATTEMPTS
  }

  /** A run stays within three starts exactly as long as no target start is recorded while a rollback is due. */
  lemma LimitHolds(site: Site, actions: seq<Action>, worlds: seq<World>, n: nat)
    requires IsHistory(site, actions, worlds) && n < |worlds|
    ensures (forall k :: 0 <= k <= n ==> WithinLimit(worlds[k])) <==>
            (forall k :: 0 <= k < n ==> !RecordsFourth(worlds[k], actions[k]))
  {
    var good, bad := (w: World) => WithinLimit(w), (w: World, a: Action) => RecordsFourth(w, a);
    forall k: nat | k < n
      ensures StaysGood(worlds, actions, good, bad, k)
    {
      if WithinLimit(worlds[k]) {
        LimitStep(site, actions, worlds, k);
      }
    }
    GoodAsLongAs(worlds, actions, good, bad, n);
    assert forall k :: 0 <= k <= n ==> good(worlds[k]) == WithinLimit(worlds[k]);
    assert forall k :: 0 <= k < n ==> bad(worlds[k], actions[k]) == RecordsFourth(worlds[k], actions[k]);
  }

  lemma LimitStep(site: Site, actions: seq<Action>, worlds: seq<World>, k: nat)
    requires IsHistory(site, actions, worlds) && k < |actions| && WithinLimit(worlds[k])
    ensures WithinLimit(worlds[k + 1]) <==> !RecordsFourth(worlds[k], actions[k])
  {
    HistoryConsistent(site, actions, worlds, k);
    assert worlds[k + 1] == Next(site, worlds[k], actions[k]);
    FourthAttempt(site, worlds[k], actions[k]);
  }

  /** A record with a fourth start can no longer be read: no step records, rolls back, clears or prepares. */
  lemma UnreadableStep(site: Site, w: World, a: Action)
    requires ProcessAgrees(w) && w.file.Stored? && w.file.record.attempts > MAX_ATTEMPTS
    ensures var v := Next(site, w, a);
      && v.file == w.file
      && (v.history == w.history || v.history == w.history + [RollbackVerified])
  {
    forall io: Io
      ensures ReadRecord(site, w.file, io).Err? && ReadRecord(site, w.file, io) != Err(NotExist)
    {
    }
  }

  /** With a rollback on disk that no process is about to launch, a step changes nothing, unless the
      previous version has been started by other means and clears the record. */
  lemma InterruptedStep(site: Site, w: World, a: Action)
    requires ProcessAgrees(w) && w.file.Stored? && w.file.record.phase == RollingBack
    requires !w.process.RollbackOnDisk?
    ensures var v := Next(site, w, a);
      && !v.process.RollbackOnDisk?
      && (v == w.(process := v.process)
          || (w.process == Starting(w.file.record.previousVersion) && a.Record?
              && v.file == Absent && v.history == w.history + [ClearedByPrevious(w.process.version)]))
  {
    if w.process.Starting? && a.Record? {
      RecordInRollback(site, w, w.process.version, a.io);
    } else if a.HealthWindow? {
      assert w.process.Watching? ==> Healthy(site, w.file, w.process.version, a.io).0 == w.file;
    }
  }

  lemma RecordInRollback(site: Site, w: World, version: string, io: Io)
    requires w.file.Stored? && w.file.record.phase == RollingBack
    ensures var v := AfterRecord(site, w, version, io);
      || v == w.(process := Up(version))
      || (version == w.file.record.previousVersion
          && v == World(Absent, Up(version), w.history + [ClearedByPrevious(version)]))
  {
  }

  /** While an update is being installed, a step of any other version neither counts a start, clears the
      record nor prepares another update. */
  lemma WaitingStep(site: Site, w: World, a: Action)
    requires w.file.Stored? && w.file.record.phase == Installing
    requires w.process.Starting? || w.process.Watching? || w.process.Up?
    requires w.process.version != w.file.record.targetVersion
    ensures Next(site, w, a).file == w.file && Next(site, w, a).history == w.history
  {
    if a.PrepareUpdate? {
      assert Prepared(site, a.disk, w.file, a.request, a.io).0 == w.file;
    }
  }

  /** How many more unhealthy starts a readable record allows. */
  function StartsLeft(w: World): int {
    if w.file.Stored? && w.file.record.phase == Installing then MAX_ATTEMPTS - w.file.record.attempts else 0
  }

  /** Each recorded start uses one up, and the one that leaves none orders the rollback. */
  lemma EveryStartCounts(site: Site, w: World, a: Action)
    requires Consistent(site, w) && Next(site, w, a).history == w.history + [StartRecorded]
    ensures var v := Next(site, w, a);
      && StartsLeft(v) == StartsLeft(w) - 1
      && (StartsLeft(v) <= 0 <==> v.process.MustRollBack?)
      && (StartsLeft(v) > 0 <==> v.process.Watching?)
  {
    assert (w.history + [StartRecorded])[|w.history|] == StartRecorded;
  }
}
