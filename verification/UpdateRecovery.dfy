/**
 The pending-update record (internal/managerupdate/state.go) and the start-up protocol that
 reads it (internal/managerupdate/coordinator.go): three recorded starts of an unhealthy
 target, then the previous installer.
 */
module UpdateRecovery {
  import opened Wrappers
  import opened Text
  import opened ManagerVersions
  import opened UpdateManifest

  const MAX_ATTEMPTS := 3

  datatype Phase = Installing | RollingBack

  datatype Pending = Pending(
    previousVersion: string, targetVersion: string, targetSequence: int,
    targetInstaller: Path, rollbackInstaller: Path,
    targetMetadata: Envelope, rollbackMetadata: Envelope,
    attempts: int, phase: Phase, reason: string)

  /** pending-update.json: written by renaming a complete file over it, so never half a record. */
  datatype PendingFile = Absent | Stored(record: Pending) | Unparsable

  datatype StoreError =
    NotExist | Unreadable | RecordInvalid | AlreadyPending | InstallerInvalid | UnsafePath | WriteFailed

  /** Which file operations of a call succeed. An unreadable file also stands for envelopes the
      running version's keys no longer trust. */
  datatype Io = Io(read: bool, write: bool, remove: bool)

  /** The update directory and what the running executable trusts. */
  datatype Site = Site(trust: Trust, within: Path -> bool)

  predicate WellFormed(site: Site, p: Pending) {
    && IsVersion(p.previousVersion) && IsVersion(p.targetVersion)
    && p.targetSequence > 0
    && 0 <= p.attempts <= MAX_ATTEMPTS
    && Verified(site.trust, p.targetMetadata) && Verified(site.trust, p.rollbackMetadata)
    && p.targetMetadata.manifest.version == p.targetVersion
    && p.rollbackMetadata.manifest.version == p.previousVersion
    && p.targetMetadata.manifest.sequence == p.targetSequence
    && site.within(p.targetInstaller)
  }

  function ReadRecord(site: Site, file: PendingFile, io: Io): Result<Pending, StoreError> {
    if !io.read then Err(Unreadable)
    else
      match file
      case Absent => Err(NotExist)
      case Unparsable => Err(RecordInvalid)
      case Stored(p) => if WellFormed(site, p) then Ok(p) else Err(RecordInvalid)
  }

  function Write(file: PendingFile, p: Pending, io: Io): PendingFile {
    if io.write then Stored(p) else file
  }

  function Remove(file: PendingFile, io: Io): PendingFile {
    if io.remove then Absent else file
  }

  // ---- Prepare ---------------------------------------------------------------------------

  datatype PrepareRequest = PrepareRequest(
    previousVersion: string, target: Envelope, targetInstaller: Path,
    rollback: Envelope, rollbackInstaller: Path)

  /** What the request must satisfy, in the order it is checked. */
  function RequestError(site: Site, disk: Disk, q: PrepareRequest): Option<StoreError> {
    if || q.target.manifest.version == q.previousVersion
       || q.rollback.manifest.version != q.previousVersion
       || q.target.manifest.channel != q.rollback.manifest.channel
       || !Verified(site.trust, q.target) || !Verified(site.trust, q.rollback)
       || !Newer(q.target.manifest.version, q.rollback.manifest.version)
    then Some(RecordInvalid)
    else if || !InstallerMatches(site.trust, disk, q.targetInstaller, q.target.manifest)
            || !InstallerMatches(site.trust, disk, q.rollbackInstaller, q.rollback.manifest)
    then Some(InstallerInvalid)
    else if !site.within(q.targetInstaller) then Some(UnsafePath)
    else None
  }

  function NewRecord(q: PrepareRequest): Pending {
    Pending(q.previousVersion, q.target.manifest.version, q.target.manifest.sequence,
            q.targetInstaller, q.rollbackInstaller, q.target, q.rollback, 0, Installing, "")
  }

  function Prepared(site: Site, disk: Disk, file: PendingFile, q: PrepareRequest, io: Io)
    : (PendingFile, Result<Pending, StoreError>)
  {
    match RequestError(site, disk, q)
    case Some(error) => (file, Err(error))
    case None =>
      match ReadRecord(site, file, io)
      case Ok(_) => (file, Err(AlreadyPending))
      case Err(NotExist) =>
        var p := NewRecord(q);
        (Write(file, p, io), if io.write then Ok(p) else Err(WriteFailed))
      case Err(error) => (file, Err(error))
  }

  // ---- Start-up --------------------------------------------------------------------------

  /** What a recorded start asks of the caller. */
  datatype Startup = NothingPending | RollbackDone(record: Pending) | Started(record: Pending, rollBack: bool)

  function Recorded(site: Site, file: PendingFile, currentVersion: string, io: Io)
    : (PendingFile, Result<Startup, StoreError>)
  {
    match ReadRecord(site, file, io)
    case Err(NotExist) => (file, Ok(NothingPending))
    case Err(error) => (file, Err(error))
    case Ok(p) =>
      if p.phase == RollingBack && currentVersion == p.previousVersion then
        (Remove(file, io), if io.remove then Ok(RollbackDone(p)) else Err(UnsafePath))
      else if p.phase != Installing || currentVersion != p.targetVersion then (file, Err(RecordInvalid))
      else
        var counted := p.(attempts := p.attempts + 1);
        (Write(file, counted, io),
         if io.write then Ok(Started(counted, counted.attempts >= MAX_ATTEMPTS)) else Err(WriteFailed))
  }

  function RollbackBegun(site: Site, file: PendingFile, reason: string, io: Io)
    : (PendingFile, Result<Pending, StoreError>)
  {
    match ReadRecord(site, file, io)
    case Err(error) => (file, Err(error))
    case Ok(p) =>
      var rolling := p.(phase := RollingBack, reason := reason);
      (Write(file, rolling, io), if io.write then Ok(rolling) else Err(WriteFailed))
  }

  function Healthy(site: Site, file: PendingFile, currentVersion: string, io: Io)
    : (PendingFile, Option<StoreError>)
  {
    match ReadRecord(site, file, io)
    case Err(NotExist) => (file, None)
    case Err(error) => (file, Some(error))
    case Ok(p) =>
      if p.phase != Installing || p.targetVersion != currentVersion then (file, Some(RecordInvalid))
      else (Remove(file, io), if io.remove then None else Some(UnsafePath))
  }

  // ---- The store -------------------------------------------------------------------------

  class RecoveryStore {
    const site: Site
    var file: PendingFile

    constructor (site: Site, file: PendingFile)
      ensures this.site == site && this.file == file
    {
      this.site := site;
      this.file := file;
    }

    method Read(io: Io) returns (r: Result<Pending, StoreError>)
      ensures r == ReadRecord(site, file, io)
    {
      if !io.read {
        return Err(Unreadable);
      }
      match file {
        case Absent => r := Err(NotExist);
        case Unparsable => r := Err(RecordInvalid);
        case Stored(p) => r := if WellFormed(site, p) then Ok(p) else Err(RecordInvalid);
      }
    }

    method WriteRecord(p: Pending, io: Io) returns (failed: bool)
      modifies this
      ensures file == Write(old(file), p, io) && failed == !io.write
    {
      failed := !io.write;
      if io.write {
        file := Stored(p);
      }
    }

    method Prepare(q: PrepareRequest, disk: Disk, io: Io) returns (r: Result<Pending, StoreError>)
      modifies this
      ensures (file, r) == Prepared(site, disk, old(file), q, io)
    {
      var error := RequestError(site, disk, q);
      if error.Some? {
        return Err(error.value);
      }
      var existing := Read(io);
      if existing.Ok? {
        return Err(AlreadyPending);
      }
      if existing.error != NotExist {
        return Err(existing.error);
      }
      var p := NewRecord(q);
      var failed := WriteRecord(p, io);
      r := if failed then Err(WriteFailed) else Ok(p);
    }

    method RecordTargetStartup(currentVersion: string, io: Io) returns (r: Result<Startup, StoreError>)
      modifies this
      ensures (file, r) == Recorded(site, old(file), currentVersion, io)
    {
      var existing := Read(io);
      if existing == Err(NotExist) {
        return Ok(NothingPending);
      }
      if existing.Err? {
        return Err(existing.error);
      }
      var p := existing.value;
      if p.phase == RollingBack && currentVersion == p.previousVersion {
        if !io.remove {
          return Err(UnsafePath);
        }
        file := Absent;
        return Ok(RollbackDone(p));
      }
      if p.phase != Installing || currentVersion != p.targetVersion {
        return Err(RecordInvalid);
      }
      p := p.(attempts := p.attempts + 1);
      var failed := WriteRecord(p, io);
      r := if failed then Err(WriteFailed) else Ok(Started(p, p.attempts >= MAX_ATTEMPTS));
    }

    method BeginRollback(reason: string, io: Io) returns (r: Result<Pending, StoreError>)
      modifies this
      ensures (file, r) == RollbackBegun(site, old(file), reason, io)
    {
      var existing := Read(io);
      if existing.Err? {
        return existing;
      }
      var p := existing.value.(phase := RollingBack, reason := reason);
      var failed := WriteRecord(p, io);
      r := if failed then Err(WriteFailed) else Ok(p);
    }

    method MarkHealthy(currentVersion: string, io: Io) returns (error: Option<StoreError>)
      modifies this
      ensures (file, error) == Healthy(site, old(file), currentVersion, io)
    {
      var existing := Read(io);
      if existing == Err(NotExist) {
        return None;
      }
      if existing.Err? {
        return Some(existing.error);
      }
      if existing.value.phase != Installing || existing.value.targetVersion != currentVersion {
        return Some(RecordInvalid);
      }
      if !io.remove {
        return Some(UnsafePath);
      }
      file := Absent;
      return None;
    }
  }
}
