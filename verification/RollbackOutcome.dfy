/**
 What becomes of an unhealthy update (internal/managerupdate/coordinator.go and state.go): when the
 promised rollback happens, and the runs in which it never does.
 */
module RollbackOutcome {
  import opened Wrappers
  import opened Text
  import opened Runs
  import opened Decimal
  import opened ManagerVersions
  import R = Rollout
  import opened UpdateManifest
  import opened UpdateRecovery
  import opened RecoveryProtocol

  // ---- For good --------------------------------------------------------------------------

  /** Nothing but verified rollback installers in the history since. */
  predicate OnlyVerifiedSince(before: seq<Event>, after: seq<Event>) {
    before <= after && forall i :: |before| <= i < |after| ==> after[i] == RollbackVerified
  }

  /** From a fourth recorded start on, over every continuation of every run: the record stays as it is,
      and nothing is ever recorded, rolled back, cleared or prepared again. */
  lemma {:induction false} FourthAttemptIsFinal(site: Site, actions: seq<Action>, worlds: seq<World>, m: nat, n: nat)
    requires IsHistory(site, actions, worlds) && m <= n < |worlds| && !WithinLimit(worlds[m])
    ensures worlds[n].file == worlds[m].file && OnlyVerifiedSince(worlds[m].history, worlds[n].history)
  {
    if m < n {
      FourthAttemptIsFinal(site, actions, worlds, m, n - 1);
      FinalStep(site, actions, worlds, n - 1);
      Joined(worlds[m].history, worlds[n - 1].history, worlds[n].history);
    }
  }

  lemma FinalStep(site: Site, actions: seq<Action>, worlds: seq<World>, k: nat)
    requires IsHistory(site, actions, worlds) && k < |actions| && !WithinLimit(worlds[k])
    ensures worlds[k + 1].file == worlds[k].file && OnlyVerifiedSince(worlds[k].history, worlds[k + 1].history)
  {
    HistoryConsistent(site, actions, worlds, k);
    UnreadableStep(site, worlds[k], actions[k]);
  }

  lemma Joined(a: seq<Event>, b: seq<Event>, c: seq<Event>)
    requires OnlyVerifiedSince(a, b) && OnlyVerifiedSince(b, c)
    ensures OnlyVerifiedSince(a, c)
  {
  }

  /** The previous version has started and clears the rollback it finds. */
  predicate ClearsRollback(w: World, a: Action, v: World) {
    && a.Record? && w.file.Stored? && w.process == Starting(w.file.record.previousVersion)
    && v.file == Absent && v.history == w.history + [ClearedByPrevious(w.process.version)]
  }

  predicate Unmoved(w: World, v: World) {
    v.file == w.file && v.history == w.history && !v.process.RollbackOnDisk?
  }

  /** A rollback on disk that its process did not launch is never launched: over every continuation of
      every run nothing changes, up to the step, if any, in which the previous version clears it. */
  lemma {:induction false} InterruptedRollbackStays(
      site: Site, actions: seq<Action>, worlds: seq<World>, m: nat, n: nat) returns (k: nat)
    requires IsHistory(site, actions, worlds) && m <= n < |worlds|
    requires worlds[m].file.Stored? && worlds[m].file.record.phase == RollingBack && !worlds[m].process.RollbackOnDisk?
    ensures m <= k <= n
    ensures forall j :: m <= j <= k ==> Unmoved(worlds[m], worlds[j])
    ensures k < n ==> ClearsRollback(worlds[k], actions[k], worlds[k + 1])
  {
    if m == n {
      k := n;
    } else {
      k := InterruptedRollbackStays(site, actions, worlds, m, n - 1);
      if k == n - 1 {
        StayingStep(site, actions, worlds, n - 1);
        if Unmoved(worlds[n - 1], worlds[n]) {
          k := n;
        }
      }
    }
  }

  lemma StayingStep(site: Site, actions: seq<Action>, worlds: seq<World>, k: nat)
    requires IsHistory(site, actions, worlds) && k < |actions|
    requires worlds[k].file.Stored? && worlds[k].file.record.phase == RollingBack && !worlds[k].process.RollbackOnDisk?
    ensures Unmoved(worlds[k], worlds[k + 1]) || ClearsRollback(worlds[k], actions[k], worlds[k + 1])
  {
    HistoryConsistent(site, actions, worlds, k);
    assert worlds[k + 1] == Next(site, worlds[k], actions[k]);
    InterruptedStep(site, worlds[k], actions[k]);
  }

  /** No process of this version is running. */
  predicate NotRunning(p: Process, version: string) {
    p.Down? || ((p.Starting? || p.Watching? || p.Up?) && p.version != version)
  }

  /** Until its target is booted, an update on record stays exactly as it is, over every run. */
  lemma {:induction false} InstallingWaitsForTarget(
      site: Site, actions: seq<Action>, worlds: seq<World>, m: nat, n: nat)
    requires IsHistory(site, actions, worlds) && m <= n < |worlds|
    requires worlds[m].file.Stored? && worlds[m].file.record.phase == Installing
    requires NotRunning(worlds[m].process, worlds[m].file.record.targetVersion)
    requires forall k :: m <= k < n ==> actions[k] != Boot(worlds[m].file.record.targetVersion)
    ensures worlds[n].file == worlds[m].file && worlds[n].history == worlds[m].history
    ensures NotRunning(worlds[n].process, worlds[m].file.record.targetVersion)
  {
    if m < n {
      InstallingWaitsForTarget(site, actions, worlds, m, n - 1);
      WaitingKeepsOthers(site, worlds[n - 1], actions[n - 1]);
      assert worlds[n] == Next(site, worlds[n - 1], actions[n - 1]);
    }
  }

  lemma WaitingKeepsOthers(site: Site, w: World, a: Action)
    requires w.file.Stored? && w.file.record.phase == Installing
    requires NotRunning(w.process, w.file.record.targetVersion) && a != Boot(w.file.record.targetVersion)
    ensures var v := Next(site, w, a);
      v.file == w.file && v.history == w.history && NotRunning(v.process, w.file.record.targetVersion)
  {
    if !w.process.Down? {
      WaitingStep(site, w, a);
    }
  }

  // ---- Exactly when the rollback happens -------------------------------------------------

  /** How far the process of a third start has come with the rollback it owes. */
  datatype Rescue = Due | Checked | OnDisk | Launched | Lost

  function Advance(site: Site, record: Pending, r: Rescue, a: Action): Rescue {
    match r
    case Due =>
      if a.Crash? then Lost
      else if !a.VerifyRollback? then Due
      else if InstallerMatches(site.trust, a.disk, record.rollbackInstaller, record.rollbackMetadata.manifest)
      then Checked else Lost
    case Checked =>
      if a.Crash? then Lost
      else if !a.BeginRollback? then Checked
      else if a.io.read && a.io.write then OnDisk else Lost
    case OnDisk =>
      if a.Crash? then Lost else if !a.LaunchRollback? then OnDisk else if a.launches then Launched else Lost
    case Launched => Launched
    case Lost => Lost
  }

  /** The same over the actions from `m` up to `n`. */
  function Progress(site: Site, record: Pending, actions: seq<Action>, m: nat, n: nat): Rescue
    requires m <= n <= |actions|
    decreases n
  {
    if n == m then Due else Advance(site, record, Progress(site, record, actions, m, n - 1), actions[n - 1])
  }

  predicate Has(history: seq<Event>, from: nat, kind: Event -> bool) {
    exists i :: from <= i < |history| && kind(history[i])
  }

  predicate IsLaunch(e: Event) {
    e.RollbackLaunched?
  }

  predicate IsCleared(e: Event) {
    e.ClearedByPrevious?
  }

  lemma HasOneMore(history: seq<Event>, from: nat, e: Event, kind: Event -> bool)
    requires from <= |history|
    ensures Has(history + [e], from, kind) <==> Has(history, from, kind) || kind(e)
  {
    if kind(e) {
      assert (history + [e])[|history|] == e;
    }
    if Has(history, from, kind) {
      var i :| from <= i < |history| && kind(history[i]);
      assert (history + [e])[i] == history[i];
    }
  }

  /** No process can launch a rollback of this record any more. */
  predicate Hopeless(w: World) {
    && w.file.Stored? && !w.process.RollbackOnDisk?
    && (|| w.file.record.attempts > MAX_ATTEMPTS
        || w.file.record.phase == RollingBack
        || (w.file.record.attempts == MAX_ATTEMPTS && (w.process.Down? || w.process.Starting? || w.process.Up?)))
  }

  predicate QuietStep(w: World, v: World) {
    || v.history == w.history || v.history == w.history + [StartRecorded] || v.history == w.history + [RollbackVerified]
  }

  ghost predicate StaysHopeless(w: World, v: World) {
    || (Hopeless(v) && QuietStep(w, v))
    || exists version :: v.history == w.history + [ClearedByPrevious(version)]
  }

  /** A hopeless record stays hopeless and is not launched, unless the previous version clears it. */
  lemma HopelessStep(site: Site, w: World, a: Action)
    requires Consistent(site, w) && Hopeless(w)
    ensures StaysHopeless(w, Next(site, w, a))
  {
    var v := Next(site, w, a);
    if w.file.record.attempts > MAX_ATTEMPTS {
      UnreadableStays(site, w, a, v);
    } else if w.file.record.phase == RollingBack {
      RollingBackStays(site, w, a, v);
    } else {
      OverdueStep(site, w, a);
    }
  }

  lemma UnreadableStays(site: Site, w: World, a: Action, v: World)
    requires ProcessAgrees(w) && Hopeless(w) && w.file.record.attempts > MAX_ATTEMPTS && v == Next(site, w, a)
    ensures StaysHopeless(w, v)
  {
    UnreadableStep(site, w, a);
  }

  lemma RollingBackStays(site: Site, w: World, a: Action, v: World)
    requires ProcessAgrees(w) && Hopeless(w) && w.file.record.phase == RollingBack && v == Next(site, w, a)
    ensures StaysHopeless(w, v)
  {
    InterruptedStep(site, w, a);
  }

  lemma OverdueStep(site: Site, w: World, a: Action)
    requires w.file.Stored? && w.file.record.attempts == MAX_ATTEMPTS && w.file.record.phase == Installing
    requires w.process.Down? || w.process.Starting? || w.process.Up?
    ensures Hopeless(Next(site, w, a)) && QuietStep(w, Next(site, w, a))
  {
    if w.process.Up? && a.PrepareUpdate? {
      assert Prepared(site, a.disk, w.file, a.request, a.io).0 == w.file;
    } else if w.process.Starting? && a.Record? {
      OverdueRecord(site, w, w.process.version, a.io);
    }
  }

  lemma OverdueRecord(site: Site, w: World, version: string, io: Io)
    requires w.file.Stored? && w.file.record.attempts == MAX_ATTEMPTS && w.file.record.phase == Installing
    ensures var v := AfterRecord(site, w, version, io);
      Hopeless(v) && QuietStep(w, v)
  {
  }

  /** Where a run that began with a third start's owed rollback is, for each stage of it. */
  predicate Follows(r: Rescue, history: seq<Event>, record: Pending, w: World) {
    match r
    case Due => w.process.MustRollBack? && w.process.record == record && w.file == Stored(record) && w.history == history
    case Checked =>
      && w.process.RollbackChecked? && w.process.record == record && w.file == Stored(record)
      && w.history == history + [RollbackVerified]
    case OnDisk =>
      && w.process.RollbackOnDisk? && w.process.record == record
      && w.file == Stored(record.(phase := RollingBack, reason := REASON))
      && w.history == history + [RollbackVerified, RollbackPersisted(REASON)]
    case Launched =>
      history + [RollbackVerified, RollbackPersisted(REASON), RollbackLaunched(record.rollbackInstaller)] <= w.history
    case Lost =>
      && history <= w.history
      && (Has(w.history, |history|, IsCleared) || (Hopeless(w) && !Has(w.history, |history|, IsLaunch)))
  }

  lemma DueStep(site: Site, history: seq<Event>, record: Pending, w: World, a: Action)
    requires Consistent(site, w) && Follows(Due, history, record, w) && record.attempts == MAX_ATTEMPTS
    ensures Follows(Advance(site, record, Due, a), history, record, Next(site, w, a))
  {
  }

  lemma CheckedStep(site: Site, history: seq<Event>, record: Pending, w: World, a: Action)
    requires Consistent(site, w) && Follows(Checked, history, record, w) && record.attempts == MAX_ATTEMPTS
    ensures Follows(Advance(site, record, Checked, a), history, record, Next(site, w, a))
  {
    if a.BeginRollback? {
      BeginSucceeds(site, w.file, record, a.io);
    }
    assert history + [RollbackVerified] + [RollbackPersisted(REASON)] ==
           history + [RollbackVerified, RollbackPersisted(REASON)];
  }

  lemma BeginSucceeds(site: Site, file: PendingFile, record: Pending, io: Io)
    requires file == Stored(record) && WellFormed(site, record)
    ensures var (after, result) := RollbackBegun(site, file, REASON, io);
      && (result.Ok? <==> io.read && io.write)
      && after == if result.Ok? then Stored(record.(phase := RollingBack, reason := REASON)) else file
  {
  }

  lemma OnDiskStep(site: Site, history: seq<Event>, record: Pending, w: World, a: Action)
    requires Follows(OnDisk, history, record, w)
    ensures Follows(Advance(site, record, OnDisk, a), history, record, Next(site, w, a))
  {
    var launch := RollbackLaunched(record.rollbackInstaller);
    assert history + [RollbackVerified, RollbackPersisted(REASON)] + [launch] ==
           history + [RollbackVerified, RollbackPersisted(REASON), launch];
    var so := history + [RollbackVerified, RollbackPersisted(REASON)];
    assert so[|history|] == RollbackVerified && so[|history| + 1] == RollbackPersisted(REASON);
  }

  lemma LostStep(site: Site, history: seq<Event>, record: Pending, w: World, a: Action)
    requires Consistent(site, w) && Follows(Lost, history, record, w)
    ensures Follows(Lost, history, record, Next(site, w, a))
  {
    var v := Next(site, w, a);
    HistoryGrows(site, w, a);
    if Has(w.history, |history|, IsCleared) {
      var i :| |history| <= i < |w.history| && IsCleared(w.history[i]);
      assert v.history[i] == w.history[i];
    } else {
      HopelessStep(site, w, a);
      if Hopeless(v) && QuietStep(w, v) {
        HasOneMore(w.history, |history|, StartRecorded, IsLaunch);
        HasOneMore(w.history, |history|, RollbackVerified, IsLaunch);
      } else {
        var version :| v.history == w.history + [ClearedByPrevious(version)];
        HasOneMore(w.history, |history|, ClearedByPrevious(version), IsCleared);
      }
    }
  }

  lemma HistoryGrows(site: Site, w: World, a: Action)
    ensures w.history <= Next(site, w, a).history
  {
  }

  lemma FollowsStep(site: Site, history: seq<Event>, record: Pending, r: Rescue, w: World, a: Action)
    requires Consistent(site, w) && Follows(r, history, record, w) && record.attempts == MAX_ATTEMPTS
    ensures Follows(Advance(site, record, r, a), history, record, Next(site, w, a))
  {
    match r {
      case Due => DueStep(site, history, record, w, a);
      case Checked => CheckedStep(site, history, record, w, a);
      case OnDisk => OnDiskStep(site, history, record, w, a);
      case Launched => HistoryGrows(site, w, a);
      case Lost => LostStep(site, history, record, w, a);
    }
  }

  lemma FollowsAt(
      site: Site, history: seq<Event>, record: Pending, r: Rescue, actions: seq<Action>, worlds: seq<World>, k: nat)
    requires IsHistory(site, actions, worlds) && k < |actions|
    requires Follows(r, history, record, worlds[k]) && record.attempts == MAX_ATTEMPTS
    ensures Follows(Advance(site, record, r, actions[k]), history, record, worlds[k + 1])
  {
    HistoryConsistent(site, actions, worlds, k);
    FollowsStep(site, history, record, r, worlds[k], actions[k]);
  }

  lemma FollowsFirst(site: Site, actions: seq<Action>, worlds: seq<World>, m: nat)
    requires IsHistory(site, actions, worlds) && m < |worlds| && worlds[m].process.MustRollBack?
    ensures Follows(Due, worlds[m].history, worlds[m].process.record, worlds[m])
  {
    HistoryConsistent(site, actions, worlds, m);
  }

  type Stage = (Rescue, World) -> bool

  predicate StageKept(site: Site, record: Pending, actions: seq<Action>, worlds: seq<World>, follows: Stage, r: Rescue, k: nat) {
    k < |actions| && |worlds| == |actions| + 1
    && (follows(r, worlds[k]) ==> follows(Advance(site, record, r, actions[k]), worlds[k + 1]))
  }

  /** What is kept stage by stage holds all along; said of anything, so that nothing is unfolded. */
  lemma {:induction false} ProgressKeeps(
      site: Site, record: Pending, actions: seq<Action>, worlds: seq<World>, m: nat, n: nat, follows: Stage)
    requires |worlds| == |actions| + 1 && m <= n < |worlds| && follows(Due, worlds[m])
    requires forall r, k: nat :: m <= k < n ==> StageKept(site, record, actions, worlds, follows, r, k)
    ensures follows(Progress(site, record, actions, m, n), worlds[n])
  {
    if m < n {
      ProgressKeeps(site, record, actions, worlds, m, n - 1, follows);
      assert StageKept(site, record, actions, worlds, follows, Progress(site, record, actions, m, n - 1), n - 1);
    }
  }

  lemma ProgressFollows(site: Site, actions: seq<Action>, worlds: seq<World>, m: nat, n: nat)
    requires IsHistory(site, actions, worlds) && m <= n < |worlds|
    requires worlds[m].process.MustRollBack? && worlds[m].process.record.attempts == MAX_ATTEMPTS
    ensures var record := worlds[m].process.record;
      Follows(Progress(site, record, actions, m, n), worlds[m].history, record, worlds[n])
  {
    var record, history := worlds[m].process.record, worlds[m].history;
    var follows := (r: Rescue, w: World) => Follows(r, history, record, w);
    FollowsFirst(site, actions, worlds, m);
    forall r, k: nat | m <= k < n
      ensures StageKept(site, record, actions, worlds, follows, r, k)
    {
      if follows(r, worlds[k]) {
        FollowsAt(site, history, record, r, actions, worlds, k);
      }
    }
    ProgressKeeps(site, record, actions, worlds, m, n, follows);
  }

  /** From a third recorded start on, over every run: until the previous version has cleared the record,
      the rollback installer has been launched exactly if the process of that very start verified it,
      wrote the phase and launched it, without crashing or failing in between. */
  lemma RolledBackExactlyWhen(site: Site, actions: seq<Action>, worlds: seq<World>, m: nat, n: nat)
    requires IsHistory(site, actions, worlds) && m <= n < |worlds|
    requires worlds[m].process.MustRollBack? && worlds[m].process.record.attempts == MAX_ATTEMPTS
    ensures var record, from := worlds[m].process.record, |worlds[m].history|;
      && (Progress(site, record, actions, m, n) == Launched ==> Has(worlds[n].history, from, IsLaunch))
      && (!Has(worlds[n].history, from, IsCleared) ==>
            (Has(worlds[n].history, from, IsLaunch) <==> Progress(site, record, actions, m, n) == Launched))
  {
    ProgressFollows(site, actions, worlds, m, n);
    var history, record := worlds[m].history, worlds[m].process.record;
    if Progress(site, record, actions, m, n) == Launched {
      var launch := RollbackLaunched(record.rollbackInstaller);
      var so := history + [RollbackVerified, RollbackPersisted(REASON), launch];
      assert so[|history| + 2] == launch && worlds[n].history[|history| + 2] == launch;
      assert IsLaunch(worlds[n].history[|history| + 2]);
    }
  }

  // ---- Such runs exist -------------------------------------------------------------------

  /** Some run of the protocol ends here. */
  ghost predicate Reached(site: Site, w: World) {
    Ends(FRESH, (w, a) => Next(site, w, a), w)
  }

  lemma ReachedNext(site: Site, w: World, a: Action)
    requires Reached(site, w)
    ensures Reached(site, Next(site, w, a))
  {
    EndsAtNext(FRESH, (w: World, a: Action) => Next(site, w, a), w, a);
  }

  const WORKING := Io(true, true, true)

  /** The previous version has started, and has prepared the requested update. */
  lemma PreparedReached(site: Site, q: PrepareRequest, disk: Disk)
    requires RequestError(site, disk, q).None?
    ensures Reached(site, World(Stored(NewRecord(q)), Up(q.previousVersion), [WasPrepared(NewRecord(q))]))
  {
    var up := World(Absent, Up(q.previousVersion), []);
    UpReached(site, q.previousVersion);
    PrepareSucceeds(site, disk, q);
    ReachedNext(site, up, PrepareUpdate(q, disk, WORKING));
    assert [] + [WasPrepared(NewRecord(q))] == [WasPrepared(NewRecord(q))];
  }

  lemma UpReached(site: Site, version: string)
    ensures Reached(site, World(Absent, Up(version), []))
  {
    EndsAtFirst(FRESH, (w: World, a: Action) => Next(site, w, a));
    ReachedNext(site, FRESH, Boot(version));
    ReachedNext(site, World(Absent, Starting(version), []), Record(WORKING));
  }

  lemma PrepareSucceeds(site: Site, disk: Disk, q: PrepareRequest)
    requires RequestError(site, disk, q).None?
    ensures Prepared(site, disk, Absent, q, WORKING) == (Stored(NewRecord(q)), Ok(NewRecord(q)))
  {
  }

  function Counted(p: Pending, n: int): Pending {
    p.(attempts := p.attempts + n)
  }

  function AfterStart(p: Pending): Process {
    if p.attempts >= MAX_ATTEMPTS then MustRollBack(p.targetVersion, p) else Watching(p.targetVersion)
  }

  /** Whatever was running ends, and the target is started and recorded. */
  lemma StartReached(site: Site, p: Pending, process: Process, history: seq<Event>)
    requires WellFormed(site, p) && p.phase == Installing && Reached(site, World(Stored(p), process, history))
    ensures Reached(site, World(Stored(Counted(p, 1)), AfterStart(Counted(p, 1)), history + [StartRecorded]))
  {
    ReachedNext(site, World(Stored(p), process, history), Crash);
    ReachedNext(site, World(Stored(p), Down, history), Boot(p.targetVersion));
    var starting := World(Stored(p), Starting(p.targetVersion), history);
    StartCounts(site, p, starting);
    ReachedNext(site, starting, Record(WORKING));
  }

  lemma StartCounts(site: Site, p: Pending, w: World)
    requires WellFormed(site, p) && p.phase == Installing && w.file == Stored(p)
    ensures AfterRecord(site, w, p.targetVersion, WORKING) ==
            World(Stored(Counted(p, 1)), AfterStart(Counted(p, 1)), w.history + [StartRecorded])
  {
  }

  lemma RequestIsWellFormed(site: Site, q: PrepareRequest, disk: Disk, n: int)
    requires RequestError(site, disk, q).None? && 0 <= n <= MAX_ATTEMPTS
    ensures WellFormed(site, Counted(NewRecord(q), n))
  {
  }

  /** The third start of a prepared target. */
  function ThirdStart(q: PrepareRequest): World {
    var p := Counted(NewRecord(q), 3);
    World(Stored(p), MustRollBack(p.targetVersion, p),
          [WasPrepared(NewRecord(q)), StartRecorded, StartRecorded, StartRecorded])
  }

  lemma ThirdStartReached(site: Site, q: PrepareRequest, disk: Disk)
    requires RequestError(site, disk, q).None?
    ensures Reached(site, ThirdStart(q))
  {
    var p := NewRecord(q);
    var h := [WasPrepared(p)];
    PreparedReached(site, q, disk);
    RequestIsWellFormed(site, q, disk, 0);
    StartReached(site, p, Up(q.previousVersion), h);
    RequestIsWellFormed(site, q, disk, 1);
    StartReached(site, Counted(p, 1), AfterStart(Counted(p, 1)), h + [StartRecorded]);
    RequestIsWellFormed(site, q, disk, 2);
    StartReached(site, Counted(p, 2), AfterStart(Counted(p, 2)), h + [StartRecorded] + [StartRecorded]);
    assert h + [StartRecorded] + [StartRecorded] + [StartRecorded] == ThirdStart(q).history;
  }

  /** The ways in which a third start misses its rollback before the phase is on disk. */
  datatype Miss = Crashes | VerifyFails(disk: Disk) | WriteFails(disk: Disk, io: Io)

  predicate Misses(site: Site, q: PrepareRequest, miss: Miss) {
    match miss
    case Crashes => true
    case VerifyFails(disk) => !InstallerMatches(site.trust, disk, q.rollbackInstaller, q.rollback.manifest)
    case WriteFails(disk, io) =>
      InstallerMatches(site.trust, disk, q.rollbackInstaller, q.rollback.manifest) && !(io.read && io.write)
  }

  /** Whichever way the third start misses, the fourth can be recorded: three is passed. */
  lemma FourthAttemptReached(site: Site, q: PrepareRequest, disk: Disk, miss: Miss) returns (w: World)
    requires RequestError(site, disk, q).None? && Misses(site, q, miss)
    ensures Reached(site, w) && w.file == Stored(Counted(NewRecord(q), 4)) && !WithinLimit(w)
  {
    ThirdStartReached(site, q, disk);
    RequestIsWellFormed(site, q, disk, 3);
    var third := ThirdStart(q);
    var missed := third;
    match miss {
      case Crashes =>
      case VerifyFails(bad) =>
        ReachedNext(site, third, VerifyRollback(bad));
        missed := third.(process := Up(third.process.version));
      case WriteFails(good, io) =>
        ReachedNext(site, third, VerifyRollback(good));
        var checked := World(third.file, RollbackChecked(third.process.version, third.process.record),
                             third.history + [RollbackVerified]);
        ReachedNext(site, checked, BeginRollback(io));
        missed := checked.(process := Up(third.process.version));
    }
    StartReached(site, third.file.record, missed.process, missed.history);
    var p := Counted(third.file.record, 1);
    w := World(Stored(p), AfterStart(p), missed.history + [StartRecorded]);
  }

  /** And a third start that dies between writing the phase and launching leaves a rollback on disk that
      nobody launches. */
  lemma InterruptedRollbackReached(site: Site, q: PrepareRequest, disk: Disk) returns (w: World)
    requires RequestError(site, disk, q).None?
    ensures Reached(site, w) && w.process == Down
    ensures w.file.Stored? && w.file.record.phase == RollingBack && w.file.record.targetInstaller == q.targetInstaller
  {
    ThirdStartReached(site, q, disk);
    RequestIsWellFormed(site, q, disk, 3);
    var third := ThirdStart(q);
    var record, version := third.process.record, third.process.version;
    ReachedNext(site, third, VerifyRollback(disk));
    var checked := World(third.file, RollbackChecked(version, record), third.history + [RollbackVerified]);
    ReachedNext(site, checked, BeginRollback(WORKING));
    BeginSucceeds(site, checked.file, record, WORKING);
    var written := World(Stored(record.(phase := RollingBack, reason := REASON)), RollbackOnDisk(version, record),
                         checked.history + [RollbackPersisted(REASON)]);
    ReachedNext(site, written, Crash);
    w := written.(process := Down);
  }

  /** The previous version is started again while its update is being installed: after a launch that came
      to nothing, say. */
  lemma WaitingReached(site: Site, q: PrepareRequest, disk: Disk) returns (w: World)
    requires RequestError(site, disk, q).None?
    ensures Reached(site, w) && w.file == Stored(NewRecord(q)) && w.process == Starting(q.previousVersion)
    ensures NotRunning(w.process, NewRecord(q).targetVersion)
  {
    PreparedReached(site, q, disk);
    var up := World(Stored(NewRecord(q)), Up(q.previousVersion), [WasPrepared(NewRecord(q))]);
    ReachedNext(site, up, Crash);
    ReachedNext(site, up.(process := Down), Boot(q.previousVersion));
    w := up.(process := Starting(q.previousVersion));
  }

  /** A digest by length only, a signature check that always holds, and two releases. */
  function SampleDigest(): string {
    seq(64, i => 'a')
  }

  const SAMPLE_TRUST := Trust(s => true, e => true, b => SampleDigest())

  function SampleManifest(version: string, channel: string): Manifest {
    Manifest("longhub/client-update/v2", "longhub-manager", 1, version, channel, "win32", "x64",
             InstallerName(version), 1, SampleDigest(), "/downloads/" + InstallerName(version), "", "snapshot_required",
             "active", R.Rollout(true, 1, SampleDigest()), "")
  }

  function SampleEnvelope(version: string, channel: string): Envelope {
    Envelope(SampleManifest(version, channel), "", "")
  }

  lemma SampleIsVerified(version: string, channel: string)
    requires IsVersion(version) && channel in {"stable", "beta"}
    ensures Verified(SAMPLE_TRUST, SampleEnvelope(version, channel))
  {
  }

  /** Prepare does accept requests, so the runs above are not about nothing. */
  lemma AcceptedRequestExists(channel: string) returns (site: Site, disk: Disk, q: PrepareRequest)
    requires channel in {"stable", "beta"}
    ensures RequestError(site, disk, q).None?
  {
    site := Site(SAMPLE_TRUST, path => true);
    disk := map["target" := [0], "recovery" := [0]];
    q := PrepareRequest("1.0.0", SampleEnvelope("1.0.1", channel), "target", SampleEnvelope("1.0.0", channel), "recovery");
    SampleVersions();
    SampleIsVerified("1.0.1", channel);
    SampleIsVerified("1.0.0", channel);
  }

  lemma SampleVersions()
    ensures IsVersion("1.0.0") && IsVersion("1.0.1") && Newer("1.0.1", "1.0.0")
  {
  }
}
