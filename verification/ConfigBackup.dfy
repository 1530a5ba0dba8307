/**
 Backups of the native configuration (internal/configbackup/manager.go). Every change to the disk
 is one rename or one removal; a crash may fall between any two, and any file operation may fail.
 */
module ConfigBackup {
  import opened Wrappers
  import opened Text

  type Id = string

  predicate IsId(s: Id) {
    |s| == 32 && forall i :: 0 <= i < |s| ==> 'a' <= s[i] <= 'f' || '0' <= s[i] <= '9'
  }

  const SCHEMA := "longhub/native-config-backup/v1"

  /** What is at the configuration path. */
  datatype Entry = Missing | Regular(bytes: Bytes) | Special

  datatype Metadata = Metadata(schema: string, id: Id, digest: string, size: int)

  datatype MetaFile = Meta(value: Metadata) | Garbage

  /** The configuration and the backup directory: `<id>.json5` and `<id>.meta.json`. */
  datatype Disk = Disk(active: Entry, contents: map<Id, Bytes>, metas: map<Id, MetaFile>)

  /** What is not decided here: SHA-256, the random IDs, and at each step whether the file operation
      fails and what OpenClaw's validator says of a candidate. */
  datatype Env = Env(
    maxBytes: int, digest: Bytes -> string, newId: nat -> Id, fails: nat -> bool, accepts: (nat, Bytes) -> bool)

  datatype BackupError =
    | ConfigMissing | NotRegular | TooLarge | FileFailed | InvalidId | MetadataBroken | IntegrityFailed
    | Rejected | CheckpointBroken

  function MetadataOf(env: Env, id: Id, data: Bytes): Metadata {
    Metadata(SCHEMA, id, env.digest(data), |data|)
  }

  // ---- File steps ------------------------------------------------------------------------

  /** One step that changes the disk. `Mutated` is whatever runs between checkpoint and validation. */
  datatype FileStep =
    | WroteContent(id: Id, data: Bytes)
    | WroteMeta(value: Metadata)
    | DroppedContent(id: Id)
    | Activated(id: Id, verdictAt: nat)
    | Deactivated
    | Mutated(entry: Entry)

  predicate StoreStep(step: FileStep) {
    step.WroteContent? || step.WroteMeta? || step.DroppedContent?
  }

  predicate Activates(step: FileStep, id: Id) {
    step.Activated? && step.id == id
  }

  function Do(d: Disk, step: FileStep): Disk {
    match step
    case WroteContent(id, data) => d.(contents := d.contents[id := data])
    case WroteMeta(value) => d.(metas := d.metas[value.id := Meta(value)])
    case DroppedContent(id) => d.(contents := d.contents - {id})
    case Activated(id, _) => if id in d.contents then d.(active := Regular(d.contents[id])) else d
    case Deactivated => d.(active := Missing)
    case Mutated(entry) => d.(active := entry)
  }

  /** A backup that reads back: its metadata parses, names it, and matches its content. */
  predicate Intact(env: Env, d: Disk, id: Id) {
    && IsId(id) && id in d.metas && d.metas[id].Meta? && id in d.contents
    && |d.contents[id]| <= env.maxBytes
    && d.metas[id].value == MetadataOf(env, id, d.contents[id])
  }

  /** The same by its parts: 32 hexadecimal digits, and metadata of this schema that has the ID, and the
      length and the digest of the content there is. */
  predicate Matches(env: Env, d: Disk, id: Id) {
    && |id| == 32 && (forall i :: 0 <= i < 32 ==> '0' <= id[i] <= '9' || 'a' <= id[i] <= 'f')
    && id in d.metas && id in d.contents && |d.contents[id]| <= env.maxBytes
    && d.metas[id].Meta? && d.metas[id].value.schema == "longhub/native-config-backup/v1" && d.metas[id].value.id == id
    && d.metas[id].value.size == |d.contents[id]| && d.metas[id].value.digest == env.digest(d.contents[id])
  }

  /** When each step may be taken. */
  predicate May(env: Env, d: Disk, step: FileStep) {
    match step
    case WroteContent(id, data) =>
      IsId(id) && id !in d.contents && id !in d.metas && |data| <= env.maxBytes && d.active == Regular(data)
    case WroteMeta(value) =>
      value.id !in d.metas && value.id in d.contents && value == MetadataOf(env, value.id, d.contents[value.id])
    case DroppedContent(id) => id !in d.metas
    case Activated(id, verdictAt) => Intact(env, d, id) && env.accepts(verdictAt, d.contents[id])
    case Deactivated => d.active.Regular?
    case Mutated(_) => true
  }

  function After(start: Disk, steps: seq<FileStep>): Disk {
    if steps == [] then start else Do(After(start, steps[..|steps| - 1]), steps[|steps| - 1])
  }

  /** Closed under prefixes, so under a crash after any step; what follows a restart goes on from there. */
  predicate Lawful(env: Env, start: Disk, steps: seq<FileStep>) {
    steps == [] ||
    (Lawful(env, start, steps[..|steps| - 1]) && May(env, After(start, steps[..|steps| - 1]), steps[|steps| - 1]))
  }

  lemma OneMore(env: Env, start: Disk, steps: seq<FileStep>, step: FileStep)
    requires Lawful(env, start, steps) && May(env, After(start, steps), step)
    ensures Lawful(env, start, steps + [step])
    ensures After(start, steps + [step]) == Do(After(start, steps), step)
  {
    assert (steps + [step])[..|steps|] == steps;
  }

  // ---- What every run keeps --------------------------------------------------------------

  /** A backup with metadata stays as it is. */
  predicate Keeps(d: Disk, e: Disk) {
    forall id :: id in d.metas ==>
      && id in e.metas && e.metas[id] == d.metas[id]
      && (id in d.contents ==> id in e.contents && e.contents[id] == d.contents[id])
  }

  lemma KeepsIntact(env: Env, d: Disk, e: Disk, id: Id)
    requires Keeps(d, e) && Intact(env, d, id)
    ensures Intact(env, e, id) && e.contents[id] == d.contents[id] && e.metas[id] == d.metas[id]
  {
  }

  lemma StepKeeps(env: Env, d: Disk, step: FileStep)
    requires May(env, d, step)
    ensures Keeps(d, Do(d, step))
  {
  }

  /** What unused IDs are for: content written under any ID leaves the earlier backups as they were exactly
      when none of them has that ID and other bytes. */
  lemma KeptExactlyWhenUnused(d: Disk, id: Id, data: Bytes)
    ensures Keeps(d, Do(d, WroteContent(id, data))) <==> (id in d.metas && id in d.contents ==> d.contents[id] == data)
  {
  }

  /** Over any run from any point, with crashes anywhere: no earlier snapshot is removed or changed. */
  lemma {:induction false} SnapshotsAreKept(env: Env, start: Disk, steps: seq<FileStep>, n: nat)
    requires Lawful(env, start, steps) && n <= |steps|
    ensures Keeps(After(start, steps[..n]), After(start, steps))
  {
    if n < |steps| {
      var front := steps[..|steps| - 1];
      SnapshotsAreKept(env, start, front, n);
      assert front[..n] == steps[..n];
      StepKeeps(env, After(start, front), steps[|steps| - 1]);
    } else {
      assert steps[..n] == steps;
    }
  }

  /** Every metadata file written since the start names content that is there, with its length and digest. */
  lemma {:induction false} MetadataIsNeverAlone(env: Env, start: Disk, steps: seq<FileStep>, id: Id)
    requires Lawful(env, start, steps)
    requires id in After(start, steps).metas && id !in start.metas
    ensures After(start, steps).metas[id].Meta? && id in After(start, steps).contents
    ensures After(start, steps).metas[id].value == MetadataOf(env, id, After(start, steps).contents[id])
  {
    if steps != [] {
      var front := steps[..|steps| - 1];
      if id in After(start, front).metas {
        MetadataIsNeverAlone(env, start, front, id);
      }
    }
  }

  /** What the configuration is: the last mutation, an intact validated backup put back, or nothing. */
  lemma {:induction false} ActiveComesFrom(env: Env, start: Disk, steps: seq<FileStep>) returns (n: nat)
    requires Lawful(env, start, steps) && After(start, steps).active != start.active
    ensures n < |steps|
    ensures var d, step, now := After(start, steps[..n]), steps[n], After(start, steps).active;
      || (step == Mutated(now))
      || (step == Deactivated && now == Missing)
      || (step.Activated? && Intact(env, d, step.id) && now == Regular(d.contents[step.id])
          && env.accepts(step.verdictAt, now.bytes))
  {
    var front, step := steps[..|steps| - 1], steps[|steps| - 1];
    if After(start, front).active == After(start, steps).active {
      n := ActiveComesFrom(env, start, front);
      assert front[..n] == steps[..n];
    } else {
      n := |steps| - 1;
    }
  }

  lemma {:induction false} StoreStepsKeepActive(env: Env, start: Disk, steps: seq<FileStep>, n: nat)
    requires Lawful(env, start, steps) && n <= |steps|
    requires forall i :: n <= i < |steps| ==> StoreStep(steps[i])
    ensures After(start, steps).active == After(start, steps[..n]).active
  {
    if n < |steps| {
      var front := steps[..|steps| - 1];
      StoreStepsKeepActive(env, start, front, n);
      assert front[..n] == steps[..n];
    } else {
      assert steps[..n] == steps;
    }
  }

  /** A restore of `id` begins after `n` steps. Cut short anywhere, it leaves the configuration it found
      or the whole of the backup. */
  lemma CrashDuringRestore(env: Env, start: Disk, steps: seq<FileStep>, n: nat, id: Id, crash: nat)
    requires Lawful(env, start, steps) && n <= crash <= |steps|
    requires forall i :: n <= i < |steps| ==> StoreStep(steps[i]) || (i == |steps| - 1 && Activates(steps[i], id))
    requires Intact(env, After(start, steps[..n]), id)
    ensures var found := After(start, steps[..n]);
      After(start, steps[..crash]).active in {found.active, Regular(found.contents[id])}
  {
    LawfulPrefix(env, start, steps, crash);
    var cut := steps[..crash];
    if crash == |steps| && n < crash && Activates(steps[crash - 1], id) {
      var front := steps[..crash - 1];
      assert cut == steps;
      StoreStepsKeepActive(env, start, front, n);
      SnapshotsAreKept(env, start, front, n);
      assert front[..n] == steps[..n];
    } else {
      StoreStepsKeepActive(env, start, cut, n);
      assert cut[..n] == steps[..n];
    }
  }

  lemma {:induction false} LawfulPrefix(env: Env, start: Disk, steps: seq<FileStep>, n: nat)
    requires Lawful(env, start, steps) && n <= |steps|
    ensures Lawful(env, start, steps[..n])
  {
    if n < |steps| {
      LawfulPrefix(env, start, steps[..|steps| - 1], n);
      assert steps[..|steps| - 1][..n] == steps[..n];
    } else {
      assert steps[..n] == steps;
    }
  }

  // ---- The manager -----------------------------------------------------------------------

  datatype Snapshot = Snapshot(id: Id, digest: string, size: int)

  function ToSnapshot(m: Metadata): Snapshot {
    Snapshot(m.id, m.digest, m.size)
  }

  datatype RestoreResult = RestoreResult(restored: Snapshot, safety: Option<Snapshot>)

  datatype Checkpoint = Checkpoint(existed: bool, backup: Option<Snapshot>)

  /** IDs are 128 random bits: that the draws up to `to` are unused and differ is assumed. */
  ghost predicate FreshIds(env: Env, d: Disk, from: nat, to: nat) {
    && (forall k :: from <= k < to ==> IsId(env.newId(k)) && env.newId(k) !in d.contents && env.newId(k) !in d.metas)
    && (forall j, k :: from <= j < k < to ==> env.newId(j) != env.newId(k))
  }

  /** The bytes of a configuration that can be backed up. */
  predicate Readable(env: Env, e: Entry) {
    e.Regular? && |e.bytes| <= env.maxBytes
  }

  predicate Holds(env: Env, d: Disk, s: Snapshot, data: Bytes) {
    Intact(env, d, s.id) && d.contents[s.id] == data && s == ToSnapshot(MetadataOf(env, s.id, data))
  }

  /** Everything a restore needs is in the store: the candidate, and what it replaces. */
  predicate Replaceable(env: Env, before: Disk, after: Disk, id: Id, r: RestoreResult) {
    && Intact(env, before, id)
    && r.restored == ToSnapshot(MetadataOf(env, id, before.contents[id]))
    && (r.safety.None? <==> before.active == Missing)
    && (r.safety.Some? ==>
          && Readable(env, before.active) && r.safety.value.id !in before.metas
          && Holds(env, after, r.safety.value, before.active.bytes))
  }

  /** What a successful restore did. */
  predicate RestoreDone(env: Env, before: Disk, after: Disk, id: Id, r: RestoreResult) {
    Replaceable(env, before, after, id, r) && after.active == Regular(before.contents[id])
  }

  // How many steps each operation takes at most.
  const BACKUP_STEPS := 6
  const CHECKPOINT_STEPS := 1 + BACKUP_STEPS
  const VALIDATE_STEPS := 4
  const READY_STEPS := 2 + CHECKPOINT_STEPS + 1 + 2
  const RESTORE_STEPS := READY_STEPS + 1

  class Manager {
    const env: Env
    ghost const start: Disk
    /** Draws before this step give fresh IDs. */
    ghost const horizon: nat
    var active: Entry
    var contents: map<Id, Bytes>
    var metas: map<Id, MetaFile>
    var step: nat
    ghost var steps: seq<FileStep>

    function View(): Disk
      reads this
    {
      Disk(active, contents, metas)
    }

    ghost predicate Valid()
      reads this
    {
      Lawful(env, start, steps) && After(start, steps) == View() && FreshIds(env, View(), step, horizon)
    }

    /** What every method keeps: earlier snapshots, and the record of the steps so far. */
    twostate predicate Extends()
      reads this
    {
      Keeps(old(View()), View()) && old(steps) <= steps && old(step) <= step
    }

    /** Up to `until`, every step taken since is one of the backup store. */
    twostate predicate StoreSteps(until: int)
      reads this
    {
      forall i :: |old(steps)| <= i < until && i < |steps| ==> StoreStep(steps[i])
    }

    ghost predicate NoFaults()
      reads this
    {
      forall k :: k >= step ==> !env.fails(k)
    }

    /** The next `n` steps may draw IDs. */
    ghost predicate Ahead(n: nat)
      reads this
    {
      step + n <= horizon
    }

    constructor (env: Env, disk: Disk, ghost horizon: nat)
      requires FreshIds(env, disk, 0, horizon)
      ensures this.env == env && start == disk && View() == disk && Valid()
      ensures step == 0 && this.horizon == horizon
    {
      this.horizon := horizon;
      this.env := env;
      start := disk;
      active, contents, metas := disk.active, disk.contents, disk.metas;
      step := 0;
      steps := [];
    }

    method Try() returns (ok: bool)
      requires Valid()
      modifies this`step
      ensures Valid() && step == old(step) + 1 && ok == !env.fails(old(step))
    {
      ok := !env.fails(step);
      step := step + 1;
    }

    method ReadActive() returns (r: Result<Bytes, BackupError>)
      requires Valid()
      modifies this`step
      ensures Valid() && Extends() && step <= old(step) + 2
      ensures r.Ok? ==> Readable(env, active) && r.value == active.bytes
      ensures old(NoFaults()) && Readable(env, active) ==> r.Ok?
      ensures old(NoFaults()) ==>
        r == match active
             case Missing => Err(ConfigMissing)
             case Special => Err(NotRegular)
             case Regular(bytes) => if |bytes| <= env.maxBytes then Ok(bytes) else Err(TooLarge)
    {
      var ok := Try();
      if !ok {
        return Err(FileFailed);
      }
      if active.Missing? {
        return Err(ConfigMissing);
      }
      if !active.Regular? {
        return Err(NotRegular);
      }
      ok := Try();
      if !ok {
        return Err(FileFailed);
      }
      if |active.bytes| > env.maxBytes {
        return Err(TooLarge);
      }
      return Ok(active.bytes);
    }

    /** Takes a file step that is due; the rename or removal itself may fail. */
    method Commit(fileStep: FileStep) returns (ok: bool)
      requires Valid() && May(env, View(), fileStep)
      requires fileStep.WroteContent? ==> forall k :: step < k < horizon ==> env.newId(k) != fileStep.id
      modifies this
      ensures Valid() && Extends() && step == old(step) + 1 && ok == !env.fails(old(step))
      ensures View() == if ok then Do(old(View()), fileStep) else old(View())
      ensures steps == if ok then old(steps) + [fileStep] else old(steps)
    {
      ok := Try();
      if ok {
        OneMore(env, start, steps, fileStep);
        StepKeeps(env, View(), fileStep);
        steps := steps + [fileStep];
        match fileStep {
          case WroteContent(id, data) => contents := contents[id := data];
          case WroteMeta(value) => metas := metas[value.id := Meta(value)];
          case DroppedContent(id) => contents := contents - {id};
          case Activated(id, _) => active := Regular(contents[id]);
          case Deactivated => active := Missing;
          case Mutated(entry) => active := entry;
        }
      }
    }

    /** Metadata is written only after its content is in place; without metadata the content is taken back. */
    method WriteBackup(data: Bytes) returns (r: Result<Snapshot, BackupError>)
      requires Valid() && Ahead(4) && active == Regular(data)
      modifies this
      ensures Valid() && Extends() && step <= old(step) + 4 && active == old(active) && StoreSteps(|steps|)
      ensures r.Ok? ==> Holds(env, View(), r.value, data) && r.value.id !in old(metas)
      ensures r.Err? ==> metas == old(metas)
      ensures old(NoFaults()) && |data| <= env.maxBytes ==> r.Ok?
    {
      if |data| > env.maxBytes {
        return Err(TooLarge);
      }
      var id := env.newId(step);
      var ok := Try();
      if !ok {
        return Err(FileFailed);
      }
      ok := Commit(WroteContent(id, data));
      if !ok {
        return Err(FileFailed);
      }
      var value := MetadataOf(env, id, data);
      ok := Commit(WroteMeta(value));
      if !ok {
        var _ := Commit(DroppedContent(id));
        return Err(FileFailed);
      }
      return Ok(ToSnapshot(value));
    }

    method Backup() returns (r: Result<Snapshot, BackupError>)
      requires Valid() && Ahead(BACKUP_STEPS)
      modifies this
      ensures Valid() && Extends() && step <= old(step) + BACKUP_STEPS && active == old(active) && StoreSteps(|steps|)
      ensures r.Ok? ==>
        Readable(env, active) && Holds(env, View(), r.value, active.bytes) && r.value.id !in old(metas)
      ensures r.Err? ==> metas == old(metas)
      ensures old(NoFaults()) && Readable(env, old(active)) ==> r.Ok?
    {
      var data := ReadActive();
      if data.Err? {
        return Err(data.error);
      }
      r := WriteBackup(data.value);
    }

    method ReadBackup(id: Id) returns (r: Result<(Bytes, Snapshot), BackupError>)
      requires Valid()
      modifies this`step
      ensures Valid() && Extends() && step <= old(step) + 2
      ensures r.Ok? ==>
        Intact(env, View(), id) && r.value.0 == contents[id] && Holds(env, View(), r.value.1, contents[id])
        && r.value.1.id == id
      ensures old(NoFaults()) ==> (r.Ok? <==> Intact(env, View(), id))
      ensures old(NoFaults()) ==> (r.Ok? <==> Matches(env, View(), id))
    {
      if !IsId(id) {
        return Err(InvalidId);
      }
      var ok := Try();
      if !ok || id !in metas {
        return Err(FileFailed);
      }
      if metas[id].Garbage? {
        return Err(MetadataBroken);
      }
      var meta := metas[id].value;
      if meta.schema != SCHEMA || meta.id != id || meta.size < 0 || meta.size > env.maxBytes {
        return Err(MetadataBroken);
      }
      ok := Try();
      if !ok || id !in contents || |contents[id]| > env.maxBytes {
        return Err(FileFailed);
      }
      if |contents[id]| != meta.size || env.digest(contents[id]) != meta.digest {
        return Err(IntegrityFailed);
      }
      return Ok((contents[id], ToSnapshot(meta)));
    }

    /** Writes the candidate beside the configuration and asks the validator. */
    method Validate(data: Bytes) returns (r: Result<nat, BackupError>)
      requires Valid()
      modifies this`step
      ensures Valid() && Extends() && step <= old(step) + 2
      ensures r.Ok? ==> env.accepts(r.value, data)
      ensures old(NoFaults()) && (forall k :: env.accepts(k, data)) ==> r.Ok?
      ensures (forall k :: !env.accepts(k, data)) ==> r.Err?
    {
      var ok := Try();
      if !ok {
        return Err(FileFailed);
      }
      var at := step;
      var _ := Try();
      r := if env.accepts(at, data) then Ok(at) else Err(Rejected);
    }

    method ValidateActive() returns (r: Result<nat, BackupError>)
      requires Valid()
      modifies this`step
      ensures Valid() && Extends() && step <= old(step) + VALIDATE_STEPS
      ensures r.Ok? ==> Readable(env, active) && env.accepts(r.value, active.bytes)
      ensures old(NoFaults()) && Readable(env, active) && (forall k :: env.accepts(k, active.bytes)) ==> r.Ok?
    {
      var data := ReadActive();
      if data.Err? {
        return Err(data.error);
      }
      r := Validate(data.value);
    }

    method BeginMutation() returns (r: Result<Checkpoint, BackupError>)
      requires Valid() && Ahead(CHECKPOINT_STEPS)
      modifies this
      ensures Valid() && Extends() && step <= old(step) + CHECKPOINT_STEPS && active == old(active) && StoreSteps(|steps|)
      ensures r.Ok? ==> Recoverable(r.value, env, View(), active)
      ensures old(NoFaults()) ==> (r.Ok? <==> active.Missing? || Readable(env, active))
    {
      var ok := Try();
      if !ok {
        return Err(FileFailed);
      }
      if active.Missing? {
        return Ok(Checkpoint(false, None));
      }
      var backup := Backup();
      if backup.Err? {
        return Err(backup.error);
      }
      return Ok(Checkpoint(true, Some(backup.value)));
    }

    /** The backup of whatever a restore is about to replace. */
    method SaveActive() returns (r: Result<Option<Snapshot>, BackupError>)
      requires Valid() && Ahead(CHECKPOINT_STEPS)
      modifies this
      ensures Valid() && Extends() && step <= old(step) + CHECKPOINT_STEPS && active == old(active) && StoreSteps(|steps|)
      ensures r.Ok? ==> (r.value.None? <==> active == Missing)
      ensures r.Ok? && r.value.Some? ==>
        Readable(env, active) && Holds(env, View(), r.value.value, active.bytes) && r.value.value.id !in old(metas)
      ensures old(NoFaults()) && (active.Missing? || Readable(env, active)) ==> r.Ok?
    {
      var ok := Try();
      if !ok {
        return Err(FileFailed);
      }
      if active.Missing? {
        return Ok(None);
      }
      var saved := Backup();
      return if saved.Ok? then Ok(Some(saved.value)) else Err(saved.error);
    }

    /** A restore up to its rename: the backup read, what it replaces saved, the candidate validated. */
    method ReadyToRestore(id: Id) returns (r: Result<(RestoreResult, nat), BackupError>)
      requires Valid() && Ahead(READY_STEPS)
      modifies this
      ensures Valid() && Extends() && step <= old(step) + READY_STEPS && active == old(active) && StoreSteps(|steps|)
      ensures r.Ok? ==> Replaceable(env, old(View()), View(), id, r.value.0)
      ensures r.Ok? ==> env.accepts(r.value.1, old(contents)[id])
      ensures old(NoFaults()) && CanRestore(env, old(View()), id) && (forall k :: env.accepts(k, old(contents)[id]))
              ==> r.Ok?
    {
      var backup := ReadBackup(id);
      if backup.Err? {
        return Err(backup.error);
      }
      var (data, snapshot) := backup.value;
      var safety := SaveActive();
      if safety.Err? {
        return Err(safety.error);
      }
      var ok := Try();
      if !ok {
        return Err(FileFailed);
      }
      var verdict := Validate(data);
      if verdict.Err? {
        return Err(verdict.error);
      }
      return Ok((RestoreResult(snapshot, safety.value), verdict.value));
    }

    /** The safety backup comes first, the validator next, and one rename last. */
    method Restore(id: Id) returns (r: Result<RestoreResult, BackupError>)
      requires Valid() && Ahead(RESTORE_STEPS)
      modifies this
      ensures Valid() && Extends() && step <= old(step) + RESTORE_STEPS
      // Whatever the point of a crash, the configuration is the old bytes or all of the validated backup.
      ensures r.Err? ==> active == old(active) && StoreSteps(|steps|)
      ensures r.Ok? ==> StoreSteps(|steps| - 1) && |old(steps)| < |steps| && Activates(steps[|steps| - 1], id)
      ensures r.Ok? ==> RestoreDone(env, old(View()), View(), id, r.value)
      ensures r.Ok? ==> exists k :: env.accepts(k, old(contents)[id])
      ensures old(NoFaults()) && CanRestore(env, old(View()), id) && (forall k :: env.accepts(k, old(contents)[id]))
              ==> r.Ok?
    {
      var ready := ReadyToRestore(id);
      if ready.Err? {
        return Err(ready.error);
      }
      KeepsIntact(env, old(View()), View(), id);
      var ok := Commit(Activated(id, ready.value.1));
      return if ok then Ok(ready.value.0) else Err(FileFailed);
    }

    /** A configuration that was absent is removed again; one that existed is restored. */
    method RollbackMutation(checkpoint: Checkpoint) returns (r: Result<Option<RestoreResult>, BackupError>)
      requires Valid() && Ahead(RESTORE_STEPS)
      modifies this
      ensures Valid() && Extends() && step <= old(step) + RESTORE_STEPS
      ensures r.Ok? ==> CanRollBack(env, old(View()), checkpoint)
      ensures r.Ok? ==> active == RolledBackTo(old(View()), checkpoint)
      ensures r.Ok? && checkpoint.existed ==> exists k :: env.accepts(k, old(contents)[checkpoint.backup.value.id])
      ensures r.Err? ==> active == old(active)
      ensures old(NoFaults()) && CanRollBack(env, old(View()), checkpoint)
              && (checkpoint.existed ==> forall k :: env.accepts(k, old(contents)[checkpoint.backup.value.id]))
              ==> r.Ok?
    {
      if checkpoint.existed {
        if checkpoint.backup.None? {
          return Err(CheckpointBroken);
        }
        var restored := Restore(checkpoint.backup.value.id);
        return if restored.Ok? then Ok(Some(restored.value)) else Err(restored.error);
      }
      var ok := Try();
      if !ok {
        return Err(FileFailed);
      }
      if active.Missing? {
        return Ok(None);
      }
      if !active.Regular? {
        return Err(NotRegular);
      }
      ok := Commit(Deactivated);
      return if ok then Ok(None) else Err(FileFailed);
    }

    /** Whatever runs between the checkpoint and the validation: it may do anything to the configuration. */
    method Mutate(entry: Entry)
      requires Valid()
      modifies this
      ensures Valid() && Extends() && active == entry && contents == old(contents) && metas == old(metas)
      ensures step == old(step)
    {
      OneMore(env, start, steps, Mutated(entry));
      StepKeeps(env, View(), Mutated(entry));
      active, steps := entry, steps + [Mutated(entry)];
    }
  }

  predicate CanRestore(env: Env, d: Disk, id: Id) {
    Intact(env, d, id) && (d.active.Missing? || Readable(env, d.active))
  }

  predicate CanRollBack(env: Env, d: Disk, c: Checkpoint) {
    if c.existed then c.backup.Some? && CanRestore(env, d, c.backup.value.id) else !d.active.Special?
  }

  function RolledBackTo(d: Disk, c: Checkpoint): Entry
    requires c.existed ==> c.backup.Some? && c.backup.value.id in d.contents
  {
    if c.existed then Regular(d.contents[c.backup.value.id]) else Missing
  }

  /** A checkpoint from which `before` can be put back. */
  predicate Recoverable(c: Checkpoint, env: Env, d: Disk, before: Entry) {
    if c.existed then before.Regular? && c.backup.Some? && Holds(env, d, c.backup.value, before.bytes)
    else before == Missing && c.backup.None?
  }

  /** Restoring the safety backup of a restore, after anything else that happened, finds exactly the
      bytes the restore replaced. */
  lemma SafetyBackupHoldsReplaced(
      env: Env, before: Disk, after: Disk, later: Disk, id: Id, r: RestoreResult)
    requires RestoreDone(env, before, after, id, r) && r.safety.Some? && Keeps(after, later)
    ensures Intact(env, later, r.safety.value.id)
    ensures Regular(later.contents[r.safety.value.id]) == before.active
  {
    KeepsIntact(env, after, later, r.safety.value.id);
  }
}
