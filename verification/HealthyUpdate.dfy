/**
 What each operation on the recovery record does, by what is on disk (internal/managerupdate/state.go), and
 what follows over runs: a target whose health window passes is cleared, and is never rolled back.
 */
module HealthyUpdate {
  import opened Wrappers
  import opened Runs
  import opened ManagerVersions
  import opened UpdateManifest
  import opened UpdateRecovery
  import opened RecoveryProtocol

  // ---- The operations --------------------------------------------------------------------

  /** A record that a read gives back. */
  predicate Good(site: Site, file: PendingFile) {
    file.Stored? && WellFormed(site, file.record)
  }

  /** Exactly a healthy target in the middle of its installation is cleared; without a record there is
      nothing to do, and in every other case the file stays and the caller is told. */
  lemma HealthyExactly(site: Site, file: PendingFile, version: string, io: Io)
    ensures var (after, error) := Healthy(site, file, version, io);
      if io.read && file == Absent then after == Absent && error.None?
      else if io.read && io.remove && Good(site, file) && file.record.phase == Installing
              && file.record.targetVersion == version
      then after == Absent && error.None?
      else after == file && error.Some?
  {
  }

  /** A start by the target of an installation counts; one by the previous version ends a rollback. */
  lemma StartExactly(site: Site, file: PendingFile, version: string, io: Io)
    ensures var (after, r) := Recorded(site, file, version, io);
      if io.read && file == Absent then after == Absent && r == Ok(NothingPending)
      else if io.read && io.write && Good(site, file) && file.record.phase == Installing
              && file.record.targetVersion == version then
        && after == Stored(file.record.(attempts := file.record.attempts + 1))
        && r == Ok(Started(after.record, after.record.attempts >= 3))
      else if io.read && io.remove && Good(site, file) && file.record.phase == RollingBack
              && file.record.previousVersion == version
      then after == Absent && r == Ok(RollbackDone(file.record))
      else after == file && r.Err?
  {
  }

  lemma BeginExactly(site: Site, file: PendingFile, reason: string, io: Io)
    ensures var (after, r) := RollbackBegun(site, file, reason, io);
      if io.read && io.write && Good(site, file) then
        after == Stored(file.record.(phase := RollingBack, reason := reason)) && r == Ok(after.record)
      else after == file && r.Err?
  {
  }

  /** What may be prepared: an update and the way back, both signed, on one channel, the target newer, each
      with the very installer its manifest describes, and the target's where it may be launched from. */
  predicate MayPrepare(site: Site, disk: Disk, q: PrepareRequest) {
    var target, back := q.target.manifest, q.rollback.manifest;
    && Verified(site.trust, q.target) && Verified(site.trust, q.rollback)
    && back.version == q.previousVersion != target.version && target.channel == back.channel
    && LexLess(Parts(back.version), Parts(target.version))
    && InstallerMatches(site.trust, disk, q.targetInstaller, target)
    && InstallerMatches(site.trust, disk, q.rollbackInstaller, back) && site.within(q.targetInstaller)
  }

  lemma PrepareExactly(site: Site, disk: Disk, file: PendingFile, q: PrepareRequest, io: Io)
    ensures var (after, r) := Prepared(site, disk, file, q, io);
      if io.read && io.write && file == Absent && MayPrepare(site, disk, q) then
        && after.Stored? && r == Ok(after.record)
        && after.record == Pending(q.previousVersion, q.target.manifest.version, q.target.manifest.sequence,
                                   q.targetInstaller, q.rollbackInstaller, q.target, q.rollback, 0, Installing, "")
      else after == file && r.Err?
  {
  }

  // ---- Over runs -------------------------------------------------------------------------

  /** A process in its health window watches over the record of its own installation. */
  predicate WatchesItsOwn(site: Site, w: World) {
    w.process.Watching? ==>
      Good(site, w.file) && w.file.record.phase == Installing && w.file.record.targetVersion == w.process.version
  }

  lemma RecordWatches(site: Site, w: World, version: string, io: Io)
    requires w.process == Starting(version)
    ensures WatchesItsOwn(site, AfterRecord(site, w, version, io))
  {
    StartExactly(site, w.file, version, io);
  }

  lemma NextWatches(site: Site, w: World, a: Action)
    requires Consistent(site, w) && WatchesItsOwn(site, w)
    ensures WatchesItsOwn(site, Next(site, w, a))
  {
    if a.Record? && w.process.Starting? {
      RecordWatches(site, w, w.process.version, a.io);
    } else if a.PrepareUpdate? && w.process.Watching? {
      PrepareExactly(site, a.disk, w.file, a.request, a.io);
    }
  }

  lemma HistoryWatches(site: Site, actions: seq<Action>, worlds: seq<World>, n: nat)
    requires IsHistory(site, actions, worlds) && n < |worlds|
    ensures WatchesItsOwn(site, worlds[n])
  {
    var next := (w: World, a: Action) => Next(site, w, a);
    var inv := (w: World) => Consistent(site, w) && WatchesItsOwn(site, w);
    forall w, a | inv(w)
      ensures inv(next(w, a))
    {
      NextConsistent(site, w, a);
      NextWatches(site, w, a);
    }
    Invariant(FRESH, next, actions, worlds, inv, n);
  }

  /** In every run: when the health window of a watching target ends and its file operations work, the
      record is gone, and that is what the history says. */
  lemma HealthyTargetIsCleared(site: Site, actions: seq<Action>, worlds: seq<World>, n: nat)
    requires IsHistory(site, actions, worlds) && n < |actions|
    requires worlds[n].process.Watching? && actions[n].HealthWindow? && actions[n].io.read && actions[n].io.remove
    ensures worlds[n + 1].file == Absent && worlds[n + 1].process == Up(worlds[n].process.version)
    ensures worlds[n + 1].history == worlds[n].history + [ClearedHealthy(worlds[n].process.version)]
  {
    HistoryWatches(site, actions, worlds, n);
    HealthyExactly(site, worlds[n].file, worlds[n].process.version, actions[n].io);
    assert worlds[n + 1] == Next(site, worlds[n], actions[n]);
  }

  /** And when the previous version starts under a rollback, its record is gone, too. */
  lemma PreviousVersionEndsRollback(site: Site, actions: seq<Action>, worlds: seq<World>, n: nat)
    requires IsHistory(site, actions, worlds) && n < |actions|
    requires Good(site, worlds[n].file) && worlds[n].file.record.phase == RollingBack
    requires worlds[n].process == Starting(worlds[n].file.record.previousVersion)
    requires actions[n].Record? && actions[n].io.read && actions[n].io.remove
    ensures worlds[n + 1].file == Absent && worlds[n + 1].process == Up(worlds[n].process.version)
    ensures worlds[n + 1].history == worlds[n].history + [ClearedByPrevious(worlds[n].process.version)]
  {
    StartExactly(site, worlds[n].file, worlds[n].process.version, actions[n].io);
    assert worlds[n + 1] == Next(site, worlds[n], actions[n]);
  }

  /** Nothing but installations, and a counted start only while its window is open. */
  predicate Untroubled(w: World) {
    && (w.process.Down? || w.process.Starting? || w.process.Up? || w.process.Watching?)
    && (w.file.Stored? ==>
          && w.file.record.phase == Installing
          && w.file.record.attempts == if w.process.Watching? then 1 else 0)
    && forall i :: 0 <= i < |w.history| ==> !w.history[i].RollbackLaunched?
  }

  predicate WindowPasses(w: World, a: Action) {
    w.process.Watching? ==> a.HealthWindow? && a.io.read && a.io.remove
  }

  lemma UntroubledStep(site: Site, w: World, a: Action)
    requires WatchesItsOwn(site, w) && Untroubled(w) && WindowPasses(w, a)
    ensures Untroubled(Next(site, w, a))
  {
    if w.process.Watching? {
      HealthyExactly(site, w.file, w.process.version, a.io);
    } else if w.process.Starting? && a.Record? {
      StartExactly(site, w.file, w.process.version, a.io);
    } else if w.process.Up? && a.PrepareUpdate? {
      PrepareExactly(site, a.disk, w.file, a.request, a.io);
    }
  }

  /** A target whose health window passes on each of its starts is never rolled back, whatever else
      crashes or fails. */
  lemma {:induction false} HealthyIsNeverRolledBack(site: Site, actions: seq<Action>, worlds: seq<World>, n: nat)
    requires IsHistory(site, actions, worlds) && n < |worlds|
    requires forall k :: 0 <= k < n ==> WindowPasses(worlds[k], actions[k])
    ensures Untroubled(worlds[n])
  {
    if n > 0 {
      HealthyIsNeverRolledBack(site, actions, worlds, n - 1);
      HistoryWatches(site, actions, worlds, n - 1);
      UntroubledStep(site, worlds[n - 1], actions[n - 1]);
      assert worlds[n] == Next(site, worlds[n - 1], actions[n - 1]);
    }
  }
}
