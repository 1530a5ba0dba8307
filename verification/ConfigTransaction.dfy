/**
 Changing the configuration: checkpoint, mutation, validation, and rollback if either fails
 (internal/httpapi/manage.go, runConfigMutation, and internal/httpapi/agent.go, runRepairTransaction).
 Both run under the server's configuration lock and meet one specification.
 */
module ConfigTransaction {
  import opened Wrappers
  import opened Text
  import opened ConfigBackup

  /** What the mutation leaves at the configuration path, and whether it reports success. */
  datatype Mutation = Mutation(entry: Entry -> Entry, succeeds: bool)

  datatype Outcome =
    | NotBegun(error: BackupError)
    | Changed(checkpoint: Checkpoint)
    | RolledBack(checkpoint: Checkpoint, validationFailed: bool)
    | RollbackFailed(checkpoint: Checkpoint)

  datatype Response = Response(status: int, code: string, rolledBack: bool)

  function BackupErrorCode(e: BackupError): string {
    match e
    case ConfigMissing => "NATIVE_CONFIG_NOT_FOUND"
    case Rejected => "CONFIG_VALIDATION_FAILED"
    case IntegrityFailed => "CONFIG_BACKUP_INTEGRITY_FAILED"
    case TooLarge => "CONFIG_TOO_LARGE"
    case _ => "CONFIG_BACKUP_FAILED"
  }

  /** What was wrong before anything was changed can be told from the code. */
  lemma CodesTellErrors(e: BackupError)
    ensures BackupErrorCode(e) == "NATIVE_CONFIG_NOT_FOUND" <==> e == ConfigMissing
    ensures BackupErrorCode(e) == "CONFIG_VALIDATION_FAILED" <==> e == Rejected
    ensures BackupErrorCode(e) == "CONFIG_BACKUP_INTEGRITY_FAILED" <==> e == IntegrityFailed
    ensures BackupErrorCode(e) == "CONFIG_TOO_LARGE" <==> e == TooLarge
    ensures e !in {ConfigMissing, Rejected, IntegrityFailed, TooLarge} ==> BackupErrorCode(e) == "CONFIG_BACKUP_FAILED"
  {
  }

  function MutationResponse(o: Outcome): (r: Response)
    ensures Tells(r, o)
  {
    match o
    case NotBegun(error) => Response(422, BackupErrorCode(error), false)
    case Changed(_) => Response(200, "", false)
    case RolledBack(_, validationFailed) =>
      Response(422, if validationFailed then "OPENCLAW_CONFIG_MUTATION_VALIDATION_FAILED"
                    else "OPENCLAW_MANAGEMENT_FAILED", true)
    case RollbackFailed(_) => Response(500, "OPENCLAW_CONFIG_MUTATION_ROLLBACK_FAILED", false)
  }

  function RepairResponse(o: Outcome): (r: Response)
    ensures Tells(r, o)
  {
    match o
    case NotBegun(error) => Response(422, BackupErrorCode(error), false)
    case Changed(_) => Response(200, "", false)
    case RolledBack(_, validationFailed) =>
      Response(422, if validationFailed then "OPENCLAW_REPAIR_VALIDATION_FAILED" else "OPENCLAW_REPAIR_FAILED", true)
    case RollbackFailed(_) => Response(500, "OPENCLAW_REPAIR_ROLLBACK_FAILED", false)
  }

  /** The status and the flag tell the outcomes apart; a rollback's code tells which stage failed. */
  predicate Tells(r: Response, o: Outcome) {
    && r.status in {200, 422, 500}
    && (r.status == 200 <==> o.Changed?)
    && (r.status == 500 <==> o.RollbackFailed?)
    && (r.rolledBack <==> o.RolledBack?)
    && (o.RolledBack? ==> (o.validationFailed <==>
          r.code in {"OPENCLAW_CONFIG_MUTATION_VALIDATION_FAILED", "OPENCLAW_REPAIR_VALIDATION_FAILED"}))
  }

  predicate Validated(env: Env, data: Bytes, at: nat) {
    env.accepts(at, data)
  }

  /** The specification both transactions meet, over the disk before and after and what the client sees. */
  ghost predicate Meets(env: Env, before: Disk, after: Disk, m: Mutation, o: Outcome) {
    && Keeps(before, after)
    && match o
       case NotBegun(_) => after.active == before.active
       case Changed(checkpoint) =>
         && Recoverable(checkpoint, env, after, before.active)
         && m.succeeds && after.active == m.entry(before.active)
         && Readable(env, after.active) && (exists at :: Validated(env, after.active.bytes, at))
       case RolledBack(checkpoint, validationFailed) =>
         && after.active == before.active && validationFailed == m.succeeds
         && Recoverable(checkpoint, env, after, before.active)
       case RollbackFailed(checkpoint) =>
         && after.active == m.entry(before.active)
         && Recoverable(checkpoint, env, after, before.active)
  }

  // ---- What the outcome is when no file operation fails ----------------------------------

  predicate Startable(env: Env, e: Entry) {
    e.Missing? || Readable(env, e)
  }

  /** The decision as a function of the three configurations involved and a validator that is steady. */
  datatype Decision = Refuse | Keep | PutBack | Stuck

  function Decide(env: Env, verdict: Bytes -> bool, before: Entry, m: Mutation): Decision {
    var changed := m.entry(before);
    if !Startable(env, before) then Refuse
    else if m.succeeds && Readable(env, changed) && verdict(changed.bytes) then Keep
    else if before.Missing? then (if changed.Special? then Stuck else PutBack)
    else if Startable(env, changed) && verdict(before.bytes) then PutBack
    else Stuck
  }

  function DecisionOf(o: Outcome): Decision {
    match o
    case NotBegun(_) => Refuse
    case Changed(_) => Keep
    case RolledBack(_, _) => PutBack
    case RollbackFailed(_) => Stuck
  }

  ghost predicate Steady(env: Env, verdict: Bytes -> bool) {
    forall k: nat, data :: env.accepts(k, data) == verdict(data)
  }

  lemma RecoverableKept(env: Env, d: Disk, e: Disk, c: Checkpoint, before: Entry)
    requires Keeps(d, e) && Recoverable(c, env, d, before)
    ensures Recoverable(c, env, e, before)
  {
    if c.existed {
      KeepsIntact(env, d, e, c.backup.value.id);
    }
  }

  /** A steady validator accepts some bytes always or never. */
  lemma SteadyVerdict(env: Env, verdict: Bytes -> bool, data: Bytes)
    requires Steady(env, verdict)
    ensures if verdict(data) then forall k: nat :: env.accepts(k, data) else forall k: nat :: !env.accepts(k, data)
  {
  }

  /** The last stage: what a rollback makes of a change that is not to be kept. */
  method RollBack(backups: Manager, checkpoint: Checkpoint, ghost before: Entry, ghost verdict: Bytes -> bool)
    returns (rolled: bool)
    requires backups.Valid() && backups.Ahead(RESTORE_STEPS) && Recoverable(checkpoint, backups.env, backups.View(), before)
    modifies backups
    ensures backups.Valid() && Keeps(old(backups.View()), backups.View())
    ensures old(backups.step) <= backups.step <= old(backups.step) + RESTORE_STEPS
    ensures Recoverable(checkpoint, backups.env, backups.View(), before)
    ensures backups.active == if rolled then before else old(backups.active)
    ensures old(backups.NoFaults()) && Steady(backups.env, verdict) ==>
      (rolled <==> if before.Missing? then !old(backups.active).Special?
                   else Startable(backups.env, old(backups.active)) && verdict(before.bytes))
  {
    ghost var start := backups.View();
    if before.Regular? && Steady(backups.env, verdict) {
      SteadyVerdict(backups.env, verdict, before.bytes);
    }
    var r := backups.RollbackMutation(checkpoint);
    RecoverableKept(backups.env, start, backups.View(), checkpoint, before);
    rolled := r.Ok?;
  }

  /** The middle stage: the mutation, and its validation if it reports success. */
  method MutateAndValidate(backups: Manager, m: Mutation, ghost verdict: Bytes -> bool)
    returns (failed: bool, validationFailed: bool)
    requires backups.Valid()
    modifies backups
    ensures backups.Valid() && Keeps(old(backups.View()), backups.View())
    ensures old(backups.step) <= backups.step <= old(backups.step) + VALIDATE_STEPS
    ensures backups.active == m.entry(old(backups.active))
    ensures failed ==> validationFailed == m.succeeds
    ensures !failed ==>
      m.succeeds && Readable(backups.env, backups.active)
      && exists at :: Validated(backups.env, backups.active.bytes, at)
    ensures old(backups.NoFaults()) ==> backups.NoFaults()
    ensures old(backups.NoFaults()) && Steady(backups.env, verdict) ==>
      (failed <==> !(m.succeeds && Readable(backups.env, backups.active) && verdict(backups.active.bytes)))
  {
    backups.Mutate(m.entry(backups.active));
    if !m.succeeds {
      return true, false;
    }
    if Readable(backups.env, backups.active) && Steady(backups.env, verdict) {
      SteadyVerdict(backups.env, verdict, backups.active.bytes);
    }
    var validated := backups.ValidateActive();
    assert validated.Ok? ==> Validated(backups.env, backups.active.bytes, validated.value);
    return validated.Err?, validated.Err?;
  }

  const TRANSACTION_STEPS := CHECKPOINT_STEPS + VALIDATE_STEPS + RESTORE_STEPS

  // ---- The two transactions --------------------------------------------------------------

  method RunConfigMutation(backups: Manager, m: Mutation, ghost verdict: Bytes -> bool)
    returns (response: Response, ghost o: Outcome)
    requires backups.Valid() && backups.Ahead(TRANSACTION_STEPS)
    modifies backups
    ensures backups.Valid() && Tells(response, o)
    ensures old(backups.step) <= backups.step <= old(backups.step) + TRANSACTION_STEPS
    ensures Meets(backups.env, old(backups.View()), backups.View(), m, o)
    ensures old(backups.NoFaults()) && Steady(backups.env, verdict) ==>
      DecisionOf(o) == Decide(backups.env, verdict, old(backups.active), m)
  {
    var begun := backups.BeginMutation();
    if begun.Err? {
      var refused := NotBegun(begun.error);
      return MutationResponse(refused), refused;
    }
    var checkpoint := begun.value;
    ghost var begunDisk := backups.View();
    var failed, validationFailed := MutateAndValidate(backups, m, verdict);
    RecoverableKept(backups.env, begunDisk, backups.View(), checkpoint, begunDisk.active);
    if !failed {
      var changed := Changed(checkpoint);
      return MutationResponse(changed), changed;
    }
    var rolled := RollBack(backups, checkpoint, begunDisk.active, verdict);
    var outcome := if rolled then RolledBack(checkpoint, validationFailed) else RollbackFailed(checkpoint);
    return MutationResponse(outcome), outcome;
  }

  method RunRepairTransaction(backups: Manager, repair: Mutation, ghost verdict: Bytes -> bool)
    returns (response: Response, ghost o: Outcome)
    requires backups.Valid() && backups.Ahead(TRANSACTION_STEPS)
    modifies backups
    ensures backups.Valid() && Tells(response, o)
    ensures old(backups.step) <= backups.step <= old(backups.step) + TRANSACTION_STEPS
    ensures Meets(backups.env, old(backups.View()), backups.View(), repair, o)
    ensures old(backups.NoFaults()) && Steady(backups.env, verdict) ==>
      DecisionOf(o) == Decide(backups.env, verdict, old(backups.active), repair)
  {
    var begun := backups.BeginMutation();
    if begun.Err? {
      var refused := NotBegun(begun.error);
      return RepairResponse(refused), refused;
    }
    var checkpoint := begun.value;
    ghost var begunDisk := backups.View();
    var failed, validationFailed := MutateAndValidate(backups, repair, verdict);
    RecoverableKept(backups.env, begunDisk, backups.View(), checkpoint, begunDisk.active);
    if !failed {
      var changed := Changed(checkpoint);
      return RepairResponse(changed), changed;
    }
    var rolled := RollBack(backups, checkpoint, begunDisk.active, verdict);
    var outcome := if rolled then RolledBack(checkpoint, validationFailed) else RollbackFailed(checkpoint);
    return RepairResponse(outcome), outcome;
  }

  /** What a client may conclude from the response of either transaction. */
  lemma ResponseMeans(env: Env, before: Disk, after: Disk, m: Mutation, o: Outcome, r: Response)
    requires Meets(env, before, after, m, o) && Tells(r, o)
    ensures r.status == 200 ==>
      after.active.Regular? && exists at :: Validated(env, after.active.bytes, at)
    ensures r.rolledBack ==> after.active == before.active
    ensures r.status == 500 && before.active.Regular? ==>
      exists id :: Intact(env, after, id) && Regular(after.contents[id]) == before.active
    ensures before.active.Special? ==> r.status == 422 && !r.rolledBack && after.active == before.active
  {
    if r.status == 500 && before.active.Regular? {
      assert Intact(env, after, o.checkpoint.backup.value.id);
    }
  }

  /** The mutation did its work, and what it left is accepted. */
  predicate Accepted(env: Env, verdict: Bytes -> bool, before: Entry, m: Mutation) {
    m.succeeds && Readable(env, m.entry(before)) && verdict(m.entry(before).bytes)
  }

  /** When nothing fails on disk and the validator is steady: a change that began and is not accepted is
      put back, unless the configuration it started from is itself no longer acceptable, or it left
      something that can be neither saved nor removed. Then the client sees 500, the change stays where
      the configuration was, and the store still holds the configuration it started from. */
  lemma StuckExactlyWhen(
      env: Env, verdict: Bytes -> bool, before: Disk, after: Disk, m: Mutation, o: Outcome, r: Response)
    requires Meets(env, before, after, m, o) && Tells(r, o)
    requires DecisionOf(o) == Decide(env, verdict, before.active, m)
    ensures r.status == 200 <==> Startable(env, before.active) && Accepted(env, verdict, before.active, m)
    ensures r.status == 500 <==>
      var changed := m.entry(before.active);
      && Startable(env, before.active) && !Accepted(env, verdict, before.active, m)
      && (if before.active.Regular? then !verdict(before.active.bytes) || !Startable(env, changed) else changed.Special?)
    ensures r.status == 500 ==>
      && after.active == m.entry(before.active)
      && (before.active.Regular? ==> exists id :: Intact(env, after, id) && Regular(after.contents[id]) == before.active)
  {
    if r.status == 500 && before.active.Regular? {
      assert Intact(env, after, o.checkpoint.backup.value.id);
    }
  }
}
