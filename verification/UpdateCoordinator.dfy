/**
 The update coordinator (internal/managerupdate/coordinator.go with client.go): Refresh, Download
 and Apply release their lock around network and disk work, so their lock regions interleave in
 any order, with the health timer of an earlier start and with other writers of the disk.
 */
module UpdateCoordinator {
  import opened Wrappers
  import opened Text
  import opened Runs
  import opened Rollout
  import opened ManagerVersions
  import opened UpdateManifest
  import opened UpdateRecovery

  datatype Candidate = NoCandidate | Candidate(envelope: Envelope, available: bool, eligible: bool)

  /** What NewCoordinator is given and never changes; `inRoot` joins a file name to the update directory. */
  datatype Setup = Setup(
    site: Site, current: string, channel: string, identity: string, hash: PrefixHash,
    inRoot: string -> Path, recoveryInstaller: Path)

  datatype CheckError = Unavailable | BadMetadata | BadDownload

  /** What the release server answered, before its signature is checked. */
  datatype Answer = Failed | NotFound | Found(envelope: Envelope)

  function Fetched(s: Setup, answer: Answer): Result<Option<Envelope>, CheckError> {
    match answer
    case Failed => Err(Unavailable)
    case NotFound => Ok(None)
    case Found(e) => if Verified(s.site.trust, e) then Ok(Some(e)) else Err(BadMetadata)
  }

  function Check(s: Setup, answer: Answer): Result<Candidate, CheckError> {
    if s.channel !in {"stable", "beta"} || !IsVersion(s.current) then Err(Unavailable)
    else
      var fetched := Fetched(s, answer);
      if fetched.Err? then Err(fetched.error)
      else if fetched.value.None? then Ok(NoCandidate)
      else
        var m := fetched.value.value.manifest;
        if m.channel != s.channel then Err(BadMetadata)
        else
          var selected := Eligible(m.rollout, s.identity, s.hash);
          if selected.Err? then Err(BadMetadata)
          else
            var newer := Newer(m.version, s.current);
            Ok(Candidate(fetched.value.value, newer, newer && selected.value))
  }

  function Exact(s: Setup, answer: Answer): Result<Envelope, CheckError> {
    var fetched := Fetched(s, answer);
    if s.channel !in {"stable", "beta"} || !IsVersion(s.current) then Err(Unavailable)
    else if fetched.Err? then Err(fetched.error)
    else if || fetched.value.None? || fetched.value.value.manifest.version != s.current
            || fetched.value.value.manifest.channel != s.channel
    then Err(Unavailable)
    else Ok(fetched.value.value)
  }

  // ---- The lock regions ------------------------------------------------------------------

  /** The fields the mutex guards. */
  datatype Shared = Shared(candidate: Candidate, downloadedPath: Path, state: string, errorCode: string)

  const UNTOUCHED := Shared(NoCandidate, "", "current", "")

  predicate Ready(c: Candidate) {
    c.Candidate? && c.available && c.eligible
  }

  function AfterRefresh(c: Shared, result: Result<Candidate, CheckError>): Shared {
    match result
    case Err(_) => c.(state := "unavailable", errorCode := "MANAGER_UPDATE_CHECK_FAILED")
    case Ok(found) =>
      Shared(found, "", if !(found.Candidate? && found.available) then "current"
                        else if !found.eligible then "rollout_pending" else "available", "")
  }

  function AfterDownload(c: Shared, result: Result<Path, CheckError>): Shared {
    match result
    case Err(_) => c.(state := "unavailable", errorCode := "MANAGER_UPDATE_DOWNLOAD_FAILED")
    case Ok(path) => c.(downloadedPath := path, state := "ready", errorCode := "")
  }

  function AfterFailure(c: Shared, code: string): Shared {
    c.(state := "unavailable", errorCode := code)
  }

  function AfterApply(c: Shared): Shared {
    c.(state := "applying", errorCode := "")
  }

  // ---- The interleaved machine -----------------------------------------------------------

  /** Where a call is, with what it took under the lock. */
  datatype Call =
    | DownloadTaken(candidate: Candidate)
    | DownloadProbed(candidate: Candidate, target: Path)
    | DownloadDone(result: Result<Path, CheckError>)
    | ApplyTaken(candidate: Candidate, target: Path)
    | ApplyChecked(candidate: Candidate, target: Path, rollback: Envelope)
    | ApplyPrepared(candidate: Candidate, target: Path)
    | ApplyFailed(code: string)
    | ApplyLaunched

  /** A hand-over to the installer, with the disk and the pending record as they were. */
  datatype Launch = Launch(path: Path, candidate: Candidate, file: PendingFile, disk: Disk, started: bool)

  datatype World = World(shared: Shared, file: PendingFile, disk: Disk, calls: map<nat, Call>, launches: seq<Launch>)

  datatype Action =
    | Refresh(answer: Answer)
    | StartDownload(id: nat, confirm: bool)
    | Probe(id: nat, blocked: bool)
    | Receive(id: nat, body: Option<Bytes>)
    | EndDownload(id: nat)
    | StartApply(id: nat, confirm: bool)
    | FetchRollback(id: nat, answer: Answer)
    | Prepare(id: nat, io: Io)
    | HandOver(id: nat, starts: bool)
    | EndApply(id: nat)
    | HealthTimer(io: Io)
    | Outside(path: Path, content: Option<Bytes>)

  function Put(w: World, id: nat, call: Call): World {
    w.(calls := w.calls[id := call])
  }

  function Drop(w: World, id: nat): World {
    w.(calls := w.calls - {id})
  }

  function InstallerPath(s: Setup, c: Candidate): Path
    requires c.Candidate?
  {
    s.inRoot(c.envelope.manifest.filename)
  }

  /** An installer already there is kept; anything else there, or an unreadable entry, stops the download. */
  function AfterProbe(s: Setup, w: World, id: nat, c: Candidate, blocked: bool): World
    requires c.Candidate?
  {
    var target := InstallerPath(s, c);
    if !blocked && InstallerMatches(s.site.trust, w.disk, target, c.envelope.manifest)
    then Put(w, id, DownloadDone(Ok(target)))
    else if blocked || target in w.disk then Put(w, id, DownloadDone(Err(Unavailable)))
    else Put(w, id, DownloadProbed(c, target))
  }

  predicate BodyMatches(s: Setup, body: Bytes, m: Manifest) {
    |body| == m.size && s.site.trust.digest(body) == m.sha256
  }

  /** The rename replaces whatever reached the target since it was probed. */
  function AfterReceive(s: Setup, w: World, id: nat, c: Candidate, target: Path, body: Option<Bytes>): World
    requires c.Candidate?
  {
    if body.Some? && BodyMatches(s, body.value, c.envelope.manifest)
    then Put(w, id, DownloadDone(Ok(target))).(disk := w.disk[target := body.value])
    else Put(w, id, DownloadDone(Err(BadDownload)))
  }

  function AfterFetchRollback(s: Setup, w: World, id: nat, c: Candidate, target: Path, answer: Answer): World {
    var rollback := Exact(s, answer);
    if rollback.Ok? && InstallerMatches(s.site.trust, w.disk, s.recoveryInstaller, rollback.value.manifest)
    then Put(w, id, ApplyChecked(c, target, rollback.value))
    else Put(w, id, ApplyFailed("MANAGER_UPDATE_ROLLBACK_UNAVAILABLE"))
  }

  function Request(s: Setup, c: Candidate, target: Path, rollback: Envelope): PrepareRequest
    requires c.Candidate?
  {
    PrepareRequest(s.current, c.envelope, target, rollback, s.recoveryInstaller)
  }

  function AfterPrepare(s: Setup, w: World, id: nat, c: Candidate, target: Path, rollback: Envelope, io: Io): World
    requires c.Candidate?
  {
    var (file, result) := Prepared(s.site, w.disk, w.file, Request(s, c, target, rollback), io);
    Put(w, id, if result.Ok? then ApplyPrepared(c, target) else ApplyFailed("MANAGER_UPDATE_PREPARE_FAILED"))
      .(file := file)
  }

  function AfterHandOver(w: World, id: nat, c: Candidate, target: Path, starts: bool): World {
    Put(w, id, if starts then ApplyLaunched else ApplyFailed("MANAGER_UPDATE_LAUNCH_FAILED"))
      .(launches := w.launches + [Launch(target, c, w.file, w.disk, starts)])
  }

  /** An action that fits no call in progress changes nothing. */
  function Next(s: Setup, w: World, a: Action): World {
    match a
    case Refresh(answer) => w.(shared := AfterRefresh(w.shared, Check(s, answer)))
    case StartDownload(id, confirm) =>
      if id in w.calls || !confirm || !Ready(w.shared.candidate) then w
      else Put(w, id, DownloadTaken(w.shared.candidate))
    case Probe(id, blocked) =>
      if id in w.calls && w.calls[id].DownloadTaken? && w.calls[id].candidate.Candidate?
      then AfterProbe(s, w, id, w.calls[id].candidate, blocked) else w
    case Receive(id, body) =>
      if id in w.calls && w.calls[id].DownloadProbed? && w.calls[id].candidate.Candidate?
      then AfterReceive(s, w, id, w.calls[id].candidate, w.calls[id].target, body) else w
    case EndDownload(id) =>
      if id in w.calls && w.calls[id].DownloadDone?
      then Drop(w, id).(shared := AfterDownload(w.shared, w.calls[id].result)) else w
    case StartApply(id, confirm) =>
      if id in w.calls || !confirm || w.shared.downloadedPath == "" || !Ready(w.shared.candidate) then w
      else Put(w, id, ApplyTaken(w.shared.candidate, w.shared.downloadedPath))
    case FetchRollback(id, answer) =>
      if id in w.calls && w.calls[id].ApplyTaken?
      then AfterFetchRollback(s, w, id, w.calls[id].candidate, w.calls[id].target, answer) else w
    case Prepare(id, io) =>
      if id in w.calls && w.calls[id].ApplyChecked? && w.calls[id].candidate.Candidate?
      then AfterPrepare(s, w, id, w.calls[id].candidate, w.calls[id].target, w.calls[id].rollback, io) else w
    case HandOver(id, starts) =>
      if id in w.calls && w.calls[id].ApplyPrepared?
      then AfterHandOver(w, id, w.calls[id].candidate, w.calls[id].target, starts) else w
    case EndApply(id) =>
      if id in w.calls && w.calls[id].ApplyLaunched? then Drop(w, id).(shared := AfterApply(w.shared))
      else if id in w.calls && w.calls[id].ApplyFailed?
      then Drop(w, id).(shared := AfterFailure(w.shared, w.calls[id].code)) else w
    case HealthTimer(io) => w.(file := Healthy(s.site, w.file, s.current, io).0)
    case Outside(path, content) =>
      w.(disk := if content.Some? then w.disk[path := content.value] else w.disk - {path})
  }

  // ---- The coordinator -------------------------------------------------------------------

  class Coordinator {
    var candidate: Candidate
    var downloadedPath: Path
    var state: string
    var errorCode: string

    function View(): Shared
      reads this
    {
      Shared(candidate, downloadedPath, state, errorCode)
    }

    constructor ()
      ensures View() == UNTOUCHED
    {
      candidate, downloadedPath, state, errorCode := NoCandidate, "", "current", "";
    }

    method CommitRefresh(result: Result<Candidate, CheckError>)
      modifies this
      ensures View() == AfterRefresh(old(View()), result)
    {
      if result.Err? {
        state, errorCode := "unavailable", "MANAGER_UPDATE_CHECK_FAILED";
        return;
      }
      candidate, downloadedPath, errorCode := result.value, "", "";
      if !(candidate.Candidate? && candidate.available) {
        state := "current";
      } else if !candidate.eligible {
        state := "rollout_pending";
      } else {
        state := "available";
      }
    }

    method CommitDownload(result: Result<Path, CheckError>)
      modifies this
      ensures View() == AfterDownload(old(View()), result)
    {
      if result.Err? {
        state, errorCode := "unavailable", "MANAGER_UPDATE_DOWNLOAD_FAILED";
        return;
      }
      downloadedPath, state, errorCode := result.value, "ready", "";
    }

    method Fail(code: string)
      modifies this
      ensures View() == AfterFailure(old(View()), code)
    {
      state, errorCode := "unavailable", code;
    }

    method CommitApply()
      modifies this
      ensures View() == AfterApply(old(View()))
    {
      state, errorCode := "applying", "";
    }

    /** Each call as a whole, when no other comes between, is its steps of the machine. */
    method Refresh(s: Setup, answer: Answer)
      modifies this
      ensures View() == AfterRefresh(old(View()), Check(s, answer))
    {
      CommitRefresh(Check(s, answer));
    }

    method Download(s: Setup, disk: Disk, confirm: bool, blocked: bool, body: Option<Bytes>) returns (after: Disk)
      modifies this
      ensures (View(), after) == Downloaded(s, old(View()), disk, confirm, blocked, body)
    {
      after := disk;
      if !confirm || !Ready(candidate) {
        return;
      }
      var fetched := FetchInstaller(s, disk, candidate, blocked, body);
      after := fetched.0;
      CommitDownload(fetched.1);
    }

    method Apply(s: Setup, recovery: RecoveryStore, disk: Disk, confirm: bool, answer: Answer, io: Io, starts: bool)
      returns (launches: seq<Launch>)
      requires recovery.site == s.site
      modifies this, recovery
      ensures World(View(), recovery.file, disk, map[], launches) ==
        Applied(s, World(old(View()), old(recovery.file), disk, map[], []), confirm, answer, io, starts)
    {
      launches := [];
      if !confirm || downloadedPath == "" || !Ready(candidate) {
        return;
      }
      var taken, target := candidate, downloadedPath;
      var rollback := Exact(s, answer);
      if rollback.Err? || !InstallerMatches(s.site.trust, disk, s.recoveryInstaller, rollback.value.manifest) {
        Fail("MANAGER_UPDATE_ROLLBACK_UNAVAILABLE");
        return;
      }
      launches := PrepareAndHandOver(s, recovery, disk, taken, target, rollback.value, io, starts);
    }

    method PrepareAndHandOver(s: Setup, recovery: RecoveryStore, disk: Disk, taken: Candidate, target: Path,
                              rollback: Envelope, io: Io, starts: bool)
      returns (launches: seq<Launch>)
      requires recovery.site == s.site && taken.Candidate?
      modifies this, recovery
      ensures World(View(), recovery.file, disk, map[], launches) ==
        PreparedAndHandedOver(s, World(old(View()), old(recovery.file), disk, map[], []), taken, target, rollback, io, starts)
    {
      var prepared := recovery.Prepare(Request(s, taken, target, rollback), disk, io);
      if prepared.Err? {
        Fail("MANAGER_UPDATE_PREPARE_FAILED");
        return [];
      }
      launches := [Launch(target, taken, recovery.file, disk, starts)];
      if !starts {
        Fail("MANAGER_UPDATE_LAUNCH_FAILED");
        return;
      }
      CommitApply();
    }
  }

  /** The client's download: an installer already there is kept, anything else there stops it. */
  method FetchInstaller(s: Setup, disk: Disk, c: Candidate, blocked: bool, body: Option<Bytes>)
    returns (r: (Disk, Result<Path, CheckError>))
    requires c.Candidate?
    ensures r == InstallerFetched(s, disk, c, blocked, body)
  {
    var target := InstallerPath(s, c);
    if !blocked && InstallerMatches(s.site.trust, disk, target, c.envelope.manifest) {
      return (disk, Ok(target));
    }
    if blocked || target in disk {
      return (disk, Err(Unavailable));
    }
    if body.None? || !BodyMatches(s, body.value, c.envelope.manifest) {
      return (disk, Err(BadDownload));
    }
    return (disk[target := body.value], Ok(target));
  }

  function InstallerFetched(s: Setup, disk: Disk, c: Candidate, blocked: bool, body: Option<Bytes>)
    : (r: (Disk, Result<Path, CheckError>))
    requires c.Candidate?
    // Success leaves the very file of the manifest at its path, and touches nothing else.
    ensures r.1.Ok? ==> r.1.value == InstallerPath(s, c)
    ensures r.1.Ok? ==> InstallerMatches(s.site.trust, r.0, r.1.value, c.envelope.manifest)
    ensures r.1.Err? ==> r.0 == disk
    ensures forall path :: path in disk ==> path in r.0 && r.0[path] == disk[path]
  {
    var target := InstallerPath(s, c);
    if !blocked && InstallerMatches(s.site.trust, disk, target, c.envelope.manifest) then (disk, Ok(target))
    else if blocked || target in disk then (disk, Err(Unavailable))
    else if body.None? || !BodyMatches(s, body.value, c.envelope.manifest) then (disk, Err(BadDownload))
    else (disk[target := body.value], Ok(target))
  }

  /** A Download with no other call between its regions. */
  function Downloaded(s: Setup, shared: Shared, disk: Disk, confirm: bool, blocked: bool, body: Option<Bytes>)
    : (Shared, Disk)
  {
    if !confirm || !Ready(shared.candidate) then (shared, disk)
    else
      var (after, result) := InstallerFetched(s, disk, shared.candidate, blocked, body);
      (AfterDownload(shared, result), after)
  }

  /** The steps of a Download after it took its candidate. */
  function Delivered(s: Setup, w: World, id: nat, blocked: bool, body: Option<Bytes>): World {
    Next(s, Next(s, Next(s, w, Probe(id, blocked)), Receive(id, body)), EndDownload(id))
  }

  lemma DoneAlone(s: Setup, w: World, id: nat, result: Result<Path, CheckError>)
    requires id !in w.calls
    ensures Next(s, Put(w, id, DownloadDone(result)), EndDownload(id)) == w.(shared := AfterDownload(w.shared, result))
  {
    PutAndDrop(w, id, DownloadDone(result));
  }

  lemma ProbedAlone(s: Setup, w: World, id: nat, c: Candidate, target: Path, body: Option<Bytes>)
    requires id !in w.calls && c.Candidate?
    ensures Next(s, Put(w, id, DownloadProbed(c, target)), Receive(id, body)) ==
      if body.Some? && BodyMatches(s, body.value, c.envelope.manifest)
      then Put(w.(disk := w.disk[target := body.value]), id, DownloadDone(Ok(target)))
      else Put(w, id, DownloadDone(Err(BadDownload)))
  {
    PutTwice(w, id, DownloadProbed(c, target), DownloadDone(Ok(target)));
    PutTwice(w, id, DownloadProbed(c, target), DownloadDone(Err(BadDownload)));
  }

  lemma TakenAlone(s: Setup, w: World, id: nat, c: Candidate, blocked: bool)
    requires c.Candidate?
    ensures Next(s, Put(w, id, DownloadTaken(c)), Probe(id, blocked)) == AfterProbe(s, w, id, c, blocked)
  {
    PutTwice(w, id, DownloadTaken(c), AfterProbe(s, w, id, c, blocked).calls[id]);
  }

  /** A whole Download is its steps of the machine. */
  lemma DownloadIsItsSteps(s: Setup, w: World, id: nat, confirm: bool, blocked: bool, body: Option<Bytes>)
    requires id !in w.calls
    ensures var (shared, disk) := Downloaded(s, w.shared, w.disk, confirm, blocked, body);
      w.(shared := shared, disk := disk) == Delivered(s, Next(s, w, StartDownload(id, confirm)), id, blocked, body)
  {
    var c := w.shared.candidate;
    if confirm && Ready(c) {
      TakenAlone(s, w, id, c, blocked);
      var target := InstallerPath(s, c);
      var (disk, result) := InstallerFetched(s, w.disk, c, blocked, body);
      ProbedAlone(s, w, id, c, target, body);
      DoneAlone(s, w.(disk := disk), id, result);
    }
  }

  /** From the verified rollback installer to the end of the call. */
  function PreparedAndHandedOver(s: Setup, w: World, c: Candidate, target: Path, rollback: Envelope, io: Io, starts: bool)
    : World
    requires c.Candidate?
  {
    var (file, prepared) := Prepared(s.site, w.disk, w.file, Request(s, c, target, rollback), io);
    if prepared.Err? then w.(file := file, shared := AfterFailure(w.shared, "MANAGER_UPDATE_PREPARE_FAILED"))
    else
      World(if starts then AfterApply(w.shared) else AfterFailure(w.shared, "MANAGER_UPDATE_LAUNCH_FAILED"),
            file, w.disk, w.calls, w.launches + [Launch(target, c, file, w.disk, starts)])
  }

  /** An Apply with no other call between its regions. */
  function Applied(s: Setup, w: World, confirm: bool, answer: Answer, io: Io, starts: bool): World {
    if !confirm || w.shared.downloadedPath == "" || !Ready(w.shared.candidate) then w
    else
      var rollback := Exact(s, answer);
      if rollback.Err? || !InstallerMatches(s.site.trust, w.disk, s.recoveryInstaller, rollback.value.manifest)
      then w.(shared := AfterFailure(w.shared, "MANAGER_UPDATE_ROLLBACK_UNAVAILABLE"))
      else PreparedAndHandedOver(s, w, w.shared.candidate, w.shared.downloadedPath, rollback.value, io, starts)
  }

  /** The last two steps of an Apply. */
  function HandedOver(s: Setup, w: World, id: nat, starts: bool): World {
    Next(s, Next(s, w, HandOver(id, starts)), EndApply(id))
  }

  lemma PutTwice(w: World, id: nat, first: Call, second: Call)
    ensures Put(Put(w, id, first), id, second) == Put(w, id, second)
  {
    assert w.calls[id := first][id := second] == w.calls[id := second];
  }

  lemma PutAndDrop(w: World, id: nat, call: Call)
    requires id !in w.calls
    ensures Drop(Put(w, id, call), id) == w
  {
    assert w.calls[id := call] - {id} == w.calls;
  }

  lemma HandOverAlone(s: Setup, w: World, id: nat, c: Candidate, target: Path, starts: bool)
    requires id !in w.calls
    ensures HandedOver(s, Put(w, id, ApplyPrepared(c, target)), id, starts) ==
      World(if starts then AfterApply(w.shared) else AfterFailure(w.shared, "MANAGER_UPDATE_LAUNCH_FAILED"),
            w.file, w.disk, w.calls, w.launches + [Launch(target, c, w.file, w.disk, starts)])
  {
    var after := if starts then ApplyLaunched else ApplyFailed("MANAGER_UPDATE_LAUNCH_FAILED");
    PutTwice(w, id, ApplyPrepared(c, target), after);
    PutAndDrop(w, id, after);
  }

  lemma FailureAlone(s: Setup, w: World, id: nat, code: string, starts: bool)
    requires id !in w.calls
    ensures HandedOver(s, Put(w, id, ApplyFailed(code)), id, starts) == w.(shared := AfterFailure(w.shared, code))
  {
    PutAndDrop(w, id, ApplyFailed(code));
  }

  lemma CheckedAlone(s: Setup, w: World, id: nat, c: Candidate, target: Path, rollback: Envelope, io: Io, starts: bool)
    requires id !in w.calls && c.Candidate?
    ensures HandedOver(s, Next(s, Put(w, id, ApplyChecked(c, target, rollback)), Prepare(id, io)), id, starts) ==
      PreparedAndHandedOver(s, w, c, target, rollback, io, starts)
  {
    var (file, prepared) := Prepared(s.site, w.disk, w.file, Request(s, c, target, rollback), io);
    var after := if prepared.Ok? then ApplyPrepared(c, target) else ApplyFailed("MANAGER_UPDATE_PREPARE_FAILED");
    PutTwice(w, id, ApplyChecked(c, target, rollback), after);
    if prepared.Ok? {
      HandOverAlone(s, w.(file := file), id, c, target, starts);
    } else {
      FailureAlone(s, w.(file := file), id, "MANAGER_UPDATE_PREPARE_FAILED", starts);
    }
  }

  lemma FetchAlone(s: Setup, w: World, id: nat, c: Candidate, target: Path, answer: Answer)
    ensures Next(s, Put(w, id, ApplyTaken(c, target)), FetchRollback(id, answer)) ==
      AfterFetchRollback(s, w, id, c, target, answer)
  {
    PutTwice(w, id, ApplyTaken(c, target), AfterFetchRollback(s, w, id, c, target, answer).calls[id]);
  }

  /** The last three steps of an Apply. */
  function Finished(s: Setup, w: World, id: nat, io: Io, starts: bool): World {
    HandedOver(s, Next(s, w, Prepare(id, io)), id, starts)
  }

  lemma FetchedAlone(s: Setup, w: World, id: nat, c: Candidate, target: Path, answer: Answer, io: Io, starts: bool)
    requires id !in w.calls && c.Candidate?
    ensures var rollback := Exact(s, answer);
      Finished(s, AfterFetchRollback(s, w, id, c, target, answer), id, io, starts) ==
        if rollback.Ok? && InstallerMatches(s.site.trust, w.disk, s.recoveryInstaller, rollback.value.manifest)
        then PreparedAndHandedOver(s, w, c, target, rollback.value, io, starts)
        else w.(shared := AfterFailure(w.shared, "MANAGER_UPDATE_ROLLBACK_UNAVAILABLE"))
  {
    var rollback := Exact(s, answer);
    if rollback.Ok? && InstallerMatches(s.site.trust, w.disk, s.recoveryInstaller, rollback.value.manifest) {
      CheckedAlone(s, w, id, c, target, rollback.value, io, starts);
    } else {
      FailureAlone(s, w, id, "MANAGER_UPDATE_ROLLBACK_UNAVAILABLE", starts);
    }
  }

  lemma NotStarted(s: Setup, w: World, id: nat, answer: Answer, io: Io, starts: bool)
    requires id !in w.calls
    ensures Finished(s, Next(s, w, FetchRollback(id, answer)), id, io, starts) == w
  {
  }

  /** The method, whose regions release the lock in between, is those steps of the machine. */
  lemma ApplyIsItsSteps(s: Setup, w: World, id: nat, confirm: bool, answer: Answer, io: Io, starts: bool)
    requires id !in w.calls
    ensures Applied(s, w, confirm, answer, io, starts) ==
      Finished(s, Next(s, Next(s, w, StartApply(id, confirm)), FetchRollback(id, answer)), id, io, starts)
  {
    if confirm && w.shared.downloadedPath != "" && Ready(w.shared.candidate) {
      FetchAlone(s, w, id, w.shared.candidate, w.shared.downloadedPath, answer);
      FetchedAlone(s, w, id, w.shared.candidate, w.shared.downloadedPath, answer, io, starts);
    } else {
      NotStarted(s, w, id, answer, io, starts);
    }
  }

  // ---- Runs ------------------------------------------------------------------------------

  function Begin(file: PendingFile, disk: Disk): World {
    World(UNTOUCHED, file, disk, map[], [])
  }

  predicate IsSession(s: Setup, file: PendingFile, disk: Disk, actions: seq<Action>, worlds: seq<World>) {
    IsRun(Begin(file, disk), (w, a) => Next(s, w, a), actions, worlds)
  }

  // ---- What a launch is worth ------------------------------------------------------------

  /** A candidate a call may act on: signed, for this channel, strictly newer, and selected. */
  predicate Offered(s: Setup, c: Candidate) {
    && Ready(c)
    && Verified(s.site.trust, c.envelope)
    && c.envelope.manifest.channel == s.channel
    && IsVersion(s.current) && Newer(c.envelope.manifest.version, s.current)
    && Eligible(c.envelope.manifest.rollout, s.identity, s.hash) == Ok(true)
  }

  lemma CheckOffers(s: Setup, answer: Answer)
    requires Check(s, answer).Ok? && Ready(Check(s, answer).value)
    ensures Offered(s, Check(s, answer).value)
  {
  }

  /** The record an Apply leaves for the next start: from this version to the candidate's, by this file. */
  predicate RecordNames(s: Setup, file: PendingFile, c: Candidate, target: Path)
    requires c.Candidate?
  {
    && file.Stored?
    && file.record.previousVersion == s.current
    && file.record.targetVersion == c.envelope.manifest.version
    && file.record.targetMetadata == c.envelope
    && file.record.targetInstaller == target
    && file.record.rollbackInstaller == s.recoveryInstaller
    && file.record.attempts == 0 && file.record.phase == Installing
  }

  /** What a call may rely on of a candidate; the lemmas below hold for any such notion. */
  type Offer = Candidate -> bool

  function Checked(s: Setup): Offer {
    c => Offered(s, c)
  }

  /** Everything Check lets through, and nothing of the current version. */
  ghost predicate Sensible(s: Setup, offers: Offer) {
    && (forall answer :: Check(s, answer).Ok? && Ready(Check(s, answer).value) ==> offers(Check(s, answer).value))
    && (forall c: Candidate :: offers(c) ==> Ready(c) && c.envelope.manifest.version != s.current)
  }

  predicate CallSound(s: Setup, offers: Offer, w: World, call: Call) {
    match call
    case DownloadTaken(c) => offers(c)
    case DownloadProbed(c, target) => c.Candidate? && offers(c) && target == InstallerPath(s, c)
    case ApplyTaken(c, target) => offers(c)
    case ApplyChecked(c, target, _) => offers(c)
    case ApplyPrepared(c, target) => c.Candidate? && offers(c) && RecordNames(s, w.file, c, target) && w.launches == []
    case _ => true
  }

  /** Another version's update is on record: Prepare refuses, and the health timer leaves it. */
  predicate Occupied(s: Setup, file: PendingFile) {
    file.Stored? && file.record.targetVersion != s.current
  }

  predicate LaunchSound(s: Setup, offers: Offer, l: Launch) {
    l.candidate.Candidate? && offers(l.candidate) && RecordNames(s, l.file, l.candidate, l.path)
  }

  predicate OnlyOnePrepared(w: World) {
    forall i, j :: i in w.calls && j in w.calls && w.calls[i].ApplyPrepared? && w.calls[j].ApplyPrepared? ==> i == j
  }

  predicate CallsSound(s: Setup, offers: Offer, w: World) {
    forall i :: i in w.calls ==> CallSound(s, offers, w, w.calls[i])
  }

  predicate LaunchesSound(s: Setup, offers: Offer, w: World) {
    |w.launches| <= 1 && (w.launches != [] ==> LaunchSound(s, offers, w.launches[0]) && w.launches[0].file == w.file)
  }

  predicate Sound(s: Setup, offers: Offer, w: World) {
    && (Ready(w.shared.candidate) ==> offers(w.shared.candidate))
    && CallsSound(s, offers, w) && OnlyOnePrepared(w) && LaunchesSound(s, offers, w)
  }

  lemma CheckedOffersAreSensible(s: Setup)
    ensures Sensible(s, Checked(s))
  {
    forall answer | Check(s, answer).Ok? && Ready(Check(s, answer).value)
      ensures Checked(s)(Check(s, answer).value)
    {
      CheckOffers(s, answer);
    }
  }

  /** Prepare writes only over no record, and then the record names the request. */
  lemma PrepareWrites(s: Setup, disk: Disk, file: PendingFile, c: Candidate, target: Path, rollback: Envelope, io: Io)
    requires c.Candidate?
    ensures var (after, result) := Prepared(s.site, disk, file, Request(s, c, target, rollback), io);
      if result.Ok? then
        && file == Absent && RecordNames(s, after, c, target)
        && InstallerMatches(s.site.trust, disk, target, c.envelope.manifest)
      else after == file
  {
  }

  lemma ArmSound(s: Setup, offers: Offer, w: World, id: nat, c: Candidate, target: Path, file: PendingFile)
    requires Sound(s, offers, w) && c.Candidate? && offers(c) && w.file == Absent && RecordNames(s, file, c, target)
    ensures Sound(s, offers, Put(w, id, ApplyPrepared(c, target)).(file := file))
  {
    var v := Put(w, id, ApplyPrepared(c, target)).(file := file);
    forall i | i in v.calls
      ensures CallSound(s, offers, v, v.calls[i])
    {
      if i != id {
        assert CallSound(s, offers, w, w.calls[i]);
      }
    }
  }

  lemma PrepareSound(s: Setup, offers: Offer, w: World, id: nat, c: Candidate, target: Path, rollback: Envelope, io: Io)
    requires Sound(s, offers, w) && c.Candidate? && offers(c)
    ensures Sound(s, offers, AfterPrepare(s, w, id, c, target, rollback, io))
  {
    PrepareWrites(s, w.disk, w.file, c, target, rollback, io);
    var (file, result) := Prepared(s.site, w.disk, w.file, Request(s, c, target, rollback), io);
    if result.Ok? {
      ArmSound(s, offers, w, id, c, target, file);
    } else {
      PutSound(s, offers, w, id, ApplyFailed("MANAGER_UPDATE_PREPARE_FAILED"));
    }
  }

  lemma PutSound(s: Setup, offers: Offer, w: World, id: nat, call: Call)
    requires Sound(s, offers, w) && CallSound(s, offers, w, call) && !call.ApplyPrepared?
    ensures Sound(s, offers, Put(w, id, call))
  {
    var v := Put(w, id, call);
    forall i | i in v.calls
      ensures CallSound(s, offers, v, v.calls[i])
    {
      assert i == id || CallSound(s, offers, w, w.calls[i]);
    }
  }

  /** Changes to the disk, to the shared fields and the end of a call leave the rest as it was. */
  lemma AroundSound(s: Setup, offers: Offer, w: World, v: World)
    requires Sound(s, offers, w)
    requires v.file == w.file && v.launches == w.launches
    requires forall i :: i in v.calls ==> i in w.calls && v.calls[i] == w.calls[i]
    requires v.shared.candidate == w.shared.candidate
             || (Ready(v.shared.candidate) ==> offers(v.shared.candidate))
    ensures Sound(s, offers, v)
  {
    forall i | i in v.calls
      ensures CallSound(s, offers, v, v.calls[i])
    {
      assert CallSound(s, offers, w, w.calls[i]);
    }
  }

  lemma HandOverSound(s: Setup, offers: Offer, w: World, id: nat, c: Candidate, target: Path, starts: bool)
    requires Sensible(s, offers) && Sound(s, offers, w) && id in w.calls && w.calls[id] == ApplyPrepared(c, target)
    ensures Sound(s, offers, AfterHandOver(w, id, c, target, starts))
  {
    var v := AfterHandOver(w, id, c, target, starts);
    assert CallSound(s, offers, w, w.calls[id]);
    forall i | i in v.calls
      ensures CallSound(s, offers, v, v.calls[i])
    {
      if i != id {
        assert CallSound(s, offers, w, w.calls[i]);
      }
    }
  }

  lemma HealthKeeps(s: Setup, file: PendingFile, io: Io)
    requires Occupied(s, file)
    ensures Healthy(s.site, file, s.current, io).0 == file
  {
  }

  lemma HealthSound(s: Setup, offers: Offer, w: World, io: Io)
    requires Sensible(s, offers) && Sound(s, offers, w)
    ensures Sound(s, offers, w.(file := Healthy(s.site, w.file, s.current, io).0))
  {
    var v := w.(file := Healthy(s.site, w.file, s.current, io).0);
    forall i | i in v.calls
      ensures CallSound(s, offers, v, v.calls[i])
    {
      assert CallSound(s, offers, w, w.calls[i]);
      if w.calls[i].ApplyPrepared? {
        assert offers(w.calls[i].candidate);
        HealthKeeps(s, w.file, io);
      }
    }
    if w.launches != [] {
      assert offers(w.launches[0].candidate);
      HealthKeeps(s, w.file, io);
    }
  }

  lemma DownloadSound(s: Setup, offers: Offer, w: World, a: Action)
    requires Sensible(s, offers) && Sound(s, offers, w) && (a.StartDownload? || a.Probe? || a.Receive? || a.EndDownload?)
    ensures Sound(s, offers, Next(s, w, a))
  {
    if a.EndDownload? {
      AroundSound(s, offers, w, Next(s, w, a));
    } else if a.StartDownload? {
      if Ready(w.shared.candidate) {
        PutSound(s, offers, w, a.id, DownloadTaken(w.shared.candidate));
      }
    } else if a.id in w.calls {
      assert CallSound(s, offers, w, w.calls[a.id]);
      if a.Probe? && w.calls[a.id].DownloadTaken? {
        ProbeSound(s, offers, w, a.id, a.blocked);
      } else if a.Receive? && w.calls[a.id].DownloadProbed? {
        ReceiveSound(s, offers, w, a.id, a.body);
      }
    }
  }

  lemma ApplySound(s: Setup, offers: Offer, w: World, a: Action)
    requires Sensible(s, offers) && Sound(s, offers, w)
    requires a.StartApply? || a.FetchRollback? || a.Prepare? || a.HandOver? || a.EndApply?
    ensures Sound(s, offers, Next(s, w, a))
  {
    if a.EndApply? {
      AroundSound(s, offers, w, Next(s, w, a));
    } else if a.StartApply? {
      if Ready(w.shared.candidate) {
        PutSound(s, offers, w, a.id, ApplyTaken(w.shared.candidate, w.shared.downloadedPath));
      }
    } else if a.id in w.calls {
      var call := w.calls[a.id];
      assert CallSound(s, offers, w, call);
      if a.FetchRollback? && call.ApplyTaken? {
        FetchSound(s, offers, w, a.id, a.answer);
      } else if a.Prepare? && call.ApplyChecked? {
        PrepareSound(s, offers, w, a.id, call.candidate, call.target, call.rollback, a.io);
      } else if a.HandOver? && call.ApplyPrepared? {
        HandOverSound(s, offers, w, a.id, call.candidate, call.target, a.starts);
      }
    }
  }

  lemma NextSound(s: Setup, offers: Offer, w: World, a: Action)
    requires Sensible(s, offers) && Sound(s, offers, w)
    ensures Sound(s, offers, Next(s, w, a))
  {
    if a.Refresh? {
      AroundSound(s, offers, w, Next(s, w, a));
    } else if a.HealthTimer? {
      HealthSound(s, offers, w, a.io);
    } else if a.Outside? {
      AroundSound(s, offers, w, Next(s, w, a));
    } else if a.StartDownload? || a.Probe? || a.Receive? || a.EndDownload? {
      DownloadSound(s, offers, w, a);
    } else {
      ApplySound(s, offers, w, a);
    }
  }

  lemma ProbeSound(s: Setup, offers: Offer, w: World, id: nat, blocked: bool)
    requires Sensible(s, offers) && Sound(s, offers, w) && id in w.calls && w.calls[id].DownloadTaken? && w.calls[id].candidate.Candidate?
    ensures Sound(s, offers, AfterProbe(s, w, id, w.calls[id].candidate, blocked))
  {
    assert CallSound(s, offers, w, w.calls[id]);
    PutSound(s, offers, w, id, AfterProbe(s, w, id, w.calls[id].candidate, blocked).calls[id]);
  }

  lemma ReceiveSound(s: Setup, offers: Offer, w: World, id: nat, body: Option<Bytes>)
    requires Sensible(s, offers) && Sound(s, offers, w) && id in w.calls && w.calls[id].DownloadProbed? && w.calls[id].candidate.Candidate?
    ensures Sound(s, offers, AfterReceive(s, w, id, w.calls[id].candidate, w.calls[id].target, body))
  {
    var v := AfterReceive(s, w, id, w.calls[id].candidate, w.calls[id].target, body);
    PutSound(s, offers, w, id, v.calls[id]);
    AroundSound(s, offers, Put(w, id, v.calls[id]), v);
  }

  lemma FetchSound(s: Setup, offers: Offer, w: World, id: nat, answer: Answer)
    requires Sensible(s, offers) && Sound(s, offers, w) && id in w.calls && w.calls[id].ApplyTaken?
    ensures Sound(s, offers, AfterFetchRollback(s, w, id, w.calls[id].candidate, w.calls[id].target, answer))
  {
    assert CallSound(s, offers, w, w.calls[id]);
    PutSound(s, offers, w, id,
      AfterFetchRollback(s, w, id, w.calls[id].candidate, w.calls[id].target, answer).calls[id]);
  }

  /** Under every interleaving: at most one installer is handed over in the life of a process, the
      candidate its Apply took is signed, selected and strictly newer, and the pending record, then
      and ever after, names that candidate and that file. */
  lemma LaunchesAreSound(s: Setup, file: PendingFile, disk: Disk, actions: seq<Action>, worlds: seq<World>, n: nat)
    requires IsSession(s, file, disk, actions, worlds) && n < |worlds|
    ensures |worlds[n].launches| <= 1
    ensures worlds[n].launches != [] ==>
      var l := worlds[n].launches[0];
      && Offered(s, l.candidate) && RecordNames(s, l.file, l.candidate, l.path)
      && RecordNames(s, worlds[n].file, l.candidate, l.path)
  {
    SessionSound(s, file, disk, actions, worlds, n);
    if worlds[n].launches != [] {
      assert LaunchSound(s, Checked(s), worlds[n].launches[0]);
    }
  }

  lemma SessionSound(s: Setup, file: PendingFile, disk: Disk, actions: seq<Action>, worlds: seq<World>, n: nat)
    requires IsSession(s, file, disk, actions, worlds) && n < |worlds|
    ensures Sound(s, Checked(s), worlds[n])
  {
    CheckedOffersAreSensible(s);
    SoundThroughout(s, Checked(s), file, disk, actions, worlds, n);
  }

  lemma SoundThroughout(
      s: Setup, offers: Offer, file: PendingFile, disk: Disk, actions: seq<Action>, worlds: seq<World>, n: nat)
    requires Sensible(s, offers) && IsSession(s, file, disk, actions, worlds) && n < |worlds|
    ensures Sound(s, offers, worlds[n])
  {
    var next := (w: World, a: Action) => Next(s, w, a);
    var inv := (w: World) => Sound(s, offers, w);
    forall w, a | inv(w)
      ensures inv(next(w, a))
    {
      NextSound(s, offers, w, a);
    }
    Invariant(Begin(file, disk), next, actions, worlds, inv, n);
  }

  /** If an update to another version is already on record, this process hands over nothing. */
  lemma RecordBlocksApply(s: Setup, file: PendingFile, disk: Disk, actions: seq<Action>, worlds: seq<World>, n: nat)
    requires IsSession(s, file, disk, actions, worlds) && n < |worlds| && Occupied(s, file)
    ensures worlds[n].file == file && worlds[n].launches == []
  {
    var next := (w: World, a: Action) => Next(s, w, a);
    var inv := (w: World) => Idle(s, w, file);
    forall w, a | inv(w)
      ensures inv(next(w, a))
    {
      IdleStays(s, w, file, a);
    }
    Invariant(Begin(file, disk), next, actions, worlds, inv, n);
  }

  predicate Idle(s: Setup, w: World, file: PendingFile) {
    w.file == file && w.launches == [] && forall i :: i in w.calls ==> !w.calls[i].ApplyPrepared?
  }

  lemma OccupiedStays(s: Setup, w: World, a: Action)
    requires Occupied(s, w.file)
    ensures Next(s, w, a).file == w.file
  {
    if a.HealthTimer? {
      HealthKeeps(s, w.file, a.io);
    } else if a.Prepare? && a.id in w.calls && w.calls[a.id].ApplyChecked? && w.calls[a.id].candidate.Candidate? {
      PrepareWrites(s, w.disk, w.file, w.calls[a.id].candidate, w.calls[a.id].target, w.calls[a.id].rollback, a.io);
    }
  }

  lemma IdleStays(s: Setup, w: World, file: PendingFile, a: Action)
    requires Occupied(s, file) && Idle(s, w, file)
    ensures Idle(s, Next(s, w, a), file)
  {
    OccupiedStays(s, w, a);
    if a.Prepare? && a.id in w.calls && w.calls[a.id].ApplyChecked? && w.calls[a.id].candidate.Candidate? {
      PrepareWrites(s, w.disk, w.file, w.calls[a.id].candidate, w.calls[a.id].target, w.calls[a.id].rollback, a.io);
    }
  }

  lemma SecondChanceStep(s: Setup, offers: Offer, w: World, a: Action)
    requires Sensible(s, offers) && Sound(s, offers, w) && w.launches != []
    ensures Next(s, w, a).launches == w.launches && Next(s, w, a).file == w.file
  {
    assert LaunchSound(s, offers, w.launches[0]);
    OccupiedStays(s, w, a);
    if a.HandOver? && a.id in w.calls {
      assert CallSound(s, offers, w, w.calls[a.id]);
    }
  }

  /** After one hand-over, whether the installer started or not, no later call of the process hands over
      anything or changes the record, under every continuation of every interleaving. */
  lemma {:induction false} NoSecondChance(
      s: Setup, file: PendingFile, disk: Disk, actions: seq<Action>, worlds: seq<World>, m: nat, n: nat)
    requires IsSession(s, file, disk, actions, worlds) && m <= n < |worlds| && worlds[m].launches != []
    ensures worlds[n].launches == worlds[m].launches && worlds[n].file == worlds[m].file
  {
    if m < n {
      NoSecondChance(s, file, disk, actions, worlds, m, n - 1);
      CheckedOffersAreSensible(s);
      SessionSound(s, file, disk, actions, worlds, n - 1);
      SecondChanceStep(s, Checked(s), worlds[n - 1], actions[n - 1]);
      assert worlds[n] == Next(s, worlds[n - 1], actions[n - 1]);
    }
  }

  // ---- The file between Prepare and the launch --------------------------------------------

  /** The file a prepared Apply is about to hand over is the one its signed manifest describes. */
  predicate ArmedGenuine(s: Setup, w: World, id: nat)
    requires id in w.calls && w.calls[id].ApplyPrepared?
  {
    w.calls[id].candidate.Candidate?
    && InstallerMatches(s.site.trust, w.disk, w.calls[id].target, w.calls[id].candidate.envelope.manifest)
  }

  /** The two ways the file can stop matching: another program writes it, or a download renames the
      installer of a different release with the same file name over it. */
  predicate Replaces(s: Setup, w: World, a: Action, target: Path, m: Manifest) {
    || (a.Outside? && a.path == target && !(a.content.Some? && BodyMatches(s, a.content.value, m)))
    || (a.Receive? && a.id in w.calls && w.calls[a.id].DownloadProbed? && w.calls[a.id].candidate.Candidate?
        && w.calls[a.id].target == target && a.body.Some?
        && BodyMatches(s, a.body.value, w.calls[a.id].candidate.envelope.manifest)
        && !BodyMatches(s, a.body.value, m))
  }

  /** Exactly those steps spoil a prepared file. */
  lemma SpoiledOnlyByReplacing(s: Setup, w: World, a: Action, target: Path, m: Manifest)
    requires InstallerMatches(s.site.trust, w.disk, target, m)
    ensures InstallerMatches(s.site.trust, Next(s, w, a).disk, target, m) <==> !Replaces(s, w, a, target, m)
  {
  }

  predicate Undisturbed(s: Setup, w: World, a: Action) {
    forall i :: i in w.calls && w.calls[i].ApplyPrepared? && w.calls[i].candidate.Candidate? ==>
      !Replaces(s, w, a, w.calls[i].target, w.calls[i].candidate.envelope.manifest)
  }

  predicate LaunchGenuine(s: Setup, l: Launch) {
    l.candidate.Candidate? && InstallerMatches(s.site.trust, l.disk, l.path, l.candidate.envelope.manifest)
  }

  predicate Genuine(s: Setup, w: World) {
    && (forall i :: i in w.calls && w.calls[i].ApplyPrepared? ==> ArmedGenuine(s, w, i))
    && (forall l :: l in w.launches ==> LaunchGenuine(s, l))
  }

  lemma ArmedStays(s: Setup, w: World, a: Action, i: nat)
    requires i in w.calls && w.calls[i].ApplyPrepared? && ArmedGenuine(s, w, i) && Undisturbed(s, w, a)
    requires i in Next(s, w, a).calls && Next(s, w, a).calls[i] == w.calls[i]
    ensures ArmedGenuine(s, Next(s, w, a), i)
  {
    SpoiledOnlyByReplacing(s, w, a, w.calls[i].target, w.calls[i].candidate.envelope.manifest);
  }

  /** A call becomes prepared only by the Prepare that verified its file. */
  lemma ArmedByPrepare(s: Setup, w: World, a: Action, i: nat)
    requires i in Next(s, w, a).calls && Next(s, w, a).calls[i].ApplyPrepared?
    requires !(i in w.calls && w.calls[i] == Next(s, w, a).calls[i])
    ensures ArmedGenuine(s, Next(s, w, a), i)
  {
    if a.Prepare? && i in w.calls && w.calls[i].ApplyChecked? && w.calls[i].candidate.Candidate? {
      PrepareWrites(s, w.disk, w.file, w.calls[i].candidate, w.calls[i].target, w.calls[i].rollback, a.io);
    }
  }

  lemma LaunchesStayGenuine(s: Setup, w: World, a: Action)
    requires Genuine(s, w)
    ensures forall l :: l in Next(s, w, a).launches ==> LaunchGenuine(s, l)
  {
    if a.HandOver? && a.id in w.calls && w.calls[a.id].ApplyPrepared? {
      assert ArmedGenuine(s, w, a.id);
    }
  }

  lemma GenuineStays(s: Setup, w: World, a: Action)
    requires Genuine(s, w) && Undisturbed(s, w, a)
    ensures Genuine(s, Next(s, w, a))
  {
    var v := Next(s, w, a);
    LaunchesStayGenuine(s, w, a);
    forall i | i in v.calls && v.calls[i].ApplyPrepared?
      ensures ArmedGenuine(s, v, i)
    {
      if i in w.calls && w.calls[i] == v.calls[i] {
        ArmedStays(s, w, a, i);
      } else {
        ArmedByPrepare(s, w, a, i);
      }
    }
  }

  /** So in every run in which nothing replaces a prepared file before its launch, what is handed over
      is byte for byte what the signed manifest of the taken candidate describes. */
  lemma {:induction false} LaunchesAreGenuine(
      s: Setup, file: PendingFile, disk: Disk, actions: seq<Action>, worlds: seq<World>, n: nat)
    requires IsSession(s, file, disk, actions, worlds) && n < |worlds|
    requires forall k :: 0 <= k < n ==> Undisturbed(s, worlds[k], actions[k])
    ensures Genuine(s, worlds[n])
  {
    if n > 0 {
      LaunchesAreGenuine(s, file, disk, actions, worlds, n - 1);
      GenuineStays(s, worlds[n - 1], actions[n - 1]);
    }
  }

  /** The stored path may belong to a candidate Refresh has since replaced: a download that ends after
      the refresh reports the new candidate as ready with the old one's file. */
  lemma ReadyWithAnotherFile(s: Setup, w: World, id: nat, answer: Answer, path: Path)
    requires id in w.calls && w.calls[id] == DownloadDone(Ok(path)) && path != ""
    requires Check(s, answer).Ok? && Ready(Check(s, answer).value)
    ensures var v := Next(s, Next(s, w, Refresh(answer)), EndDownload(id));
      && v.shared.state == "ready" && v.shared.downloadedPath == path
      && v.shared.candidate == Check(s, answer).value
  {
  }

  /** Apply then prepares nothing unless that file happens to be the new candidate's own installer. */
  lemma AnotherFileIsRefused(s: Setup, w: World, id: nat, c: Candidate, target: Path, rollback: Envelope, io: Io)
    requires id in w.calls && w.calls[id] == ApplyChecked(c, target, rollback) && c.Candidate?
    requires !InstallerMatches(s.site.trust, w.disk, target, c.envelope.manifest)
    ensures var v := Next(s, w, Prepare(id, io));
      v.calls[id] == ApplyFailed("MANAGER_UPDATE_PREPARE_FAILED") && v.file == w.file
  {
    PrepareWrites(s, w.disk, w.file, c, target, rollback, io);
  }
}
