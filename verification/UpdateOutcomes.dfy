/**
 What Refresh, Download and Apply come to, by what the server answered and what is on disk
 (internal/managerupdate/coordinator.go and client.go): every outcome and exactly when it happens, and a
 whole update from the first check to the hand-over.
 */
module UpdateOutcomes {
  import opened Wrappers
  import opened Text
  import R = Rollout
  import opened ManagerVersions
  import opened UpdateManifest
  import opened UpdateRecovery
  import opened UpdateCoordinator
  import opened HealthyUpdate
  import RollbackOutcome

  // ---- Refresh ---------------------------------------------------------------------------

  /** Whether a release is for this machine can be told at all. */
  predicate Tellable(s: Setup, r: R.Rollout) {
    r.active && r.basisPoints > 0 ==> R.IsIdentity(s.identity) && R.IsHexDigest(r.seed)
  }

  predicate SelectedHere(s: Setup, r: R.Rollout) {
    r.active && r.basisPoints > 0 && s.hash(r.seed, s.identity) % 10_000 < r.basisPoints
  }

  predicate NewerHere(s: Setup, e: Envelope)
    requires IsVersion(s.current) && IsVersion(e.manifest.version)
  {
    LexLess(Parts(s.current), Parts(e.manifest.version))
  }

  predicate GoodSetup(s: Setup) {
    s.channel in {"stable", "beta"} && IsVersion(s.current)
  }

  /** A signed release on the channel that was asked for. */
  predicate GoodRelease(s: Setup, e: Envelope) {
    Verified(s.site.trust, e) && e.manifest.channel == s.channel && Tellable(s, e.manifest.rollout)
  }

  /** What a refresh leaves, by the answer alone: "available" exactly when the release is newer and this
      machine is selected, "rollout_pending" exactly when it is newer and not selected, "current" for any
      other good answer, and after any other answer the candidate and the download stay. */
  lemma RefreshExactly(s: Setup, c: Shared, answer: Answer)
    ensures var v := AfterRefresh(c, Check(s, answer));
      if GoodSetup(s) && answer == NotFound then v == Shared(NoCandidate, "", "current", "")
      else if GoodSetup(s) && answer.Found? && GoodRelease(s, answer.envelope) then
        var newer, selected := NewerHere(s, answer.envelope), SelectedHere(s, answer.envelope.manifest.rollout);
        && v.candidate == Candidate(answer.envelope, newer, newer && selected)
        && v.downloadedPath == "" && v.errorCode == ""
        && v.state == (if newer && selected then "available" else if newer then "rollout_pending" else "current")
      else v == c.(state := "unavailable", errorCode := "MANAGER_UPDATE_CHECK_FAILED")
  {
  }

  /** A release that is newer, and whose rollout has reached this machine, is ready to be downloaded. */
  lemma SelectedReleaseIsOffered(s: Setup, c: Shared, e: Envelope)
    requires GoodSetup(s) && Verified(s.site.trust, e) && e.manifest.channel == s.channel
    requires Newer(e.manifest.version, s.current)
    requires R.Eligible(e.manifest.rollout, s.identity, s.hash) == Ok(true)
    ensures var v := AfterRefresh(c, Check(s, Found(e)));
      Ready(v.candidate) && v.candidate.envelope == e && v.state == "available"
  {
  }

  // ---- Download --------------------------------------------------------------------------

  /** A confirmed download of a ready candidate ends with its installer in place exactly when it was there
      already, or nothing was and the very bytes came; otherwise it changes no file and says so. */
  lemma DownloadExactly(s: Setup, c: Shared, disk: Disk, confirm: bool, blocked: bool, body: Option<Bytes>)
    ensures var (v, after) := Downloaded(s, c, disk, confirm, blocked, body);
      if !confirm || !Ready(c.candidate) then v == c && after == disk
      else
        var m, target := c.candidate.envelope.manifest, s.inRoot(c.candidate.envelope.manifest.filename);
        var there := !blocked && InstallerMatches(s.site.trust, disk, target, m);
        var comes := !blocked && target !in disk && body.Some? && |body.value| == m.size
          && s.site.trust.digest(body.value) == m.sha256;
        if there || comes then
          && v == c.(downloadedPath := target, state := "ready", errorCode := "")
          && after == if there then disk else disk[target := body.value]
        else v == c.(state := "unavailable", errorCode := "MANAGER_UPDATE_DOWNLOAD_FAILED") && after == disk
  {
  }

  // ---- Apply -----------------------------------------------------------------------------

  /** The way back: the signed release of the running version, and its installer kept on disk. */
  predicate WayBack(s: Setup, disk: Disk, answer: Answer) {
    && GoodSetup(s) && answer.Found? && Verified(s.site.trust, answer.envelope)
    && answer.envelope.manifest.version == s.current && answer.envelope.manifest.channel == s.channel
    && InstallerMatches(s.site.trust, disk, s.recoveryInstaller, answer.envelope.manifest)
  }

  predicate Asked(shared: Shared, confirm: bool) {
    confirm && shared.downloadedPath != "" && Ready(shared.candidate)
  }

  /** What an Apply writes down for the next start. */
  function RecordFor(s: Setup, shared: Shared, back: Envelope): Pending
    requires Ready(shared.candidate)
  {
    var e := shared.candidate.envelope;
    Pending(s.current, e.manifest.version, e.manifest.sequence, shared.downloadedPath, s.recoveryInstaller, e, back,
            0, Installing, "")
  }

  /** An Apply hands the installer over exactly when it was asked to, the way back is there, the update may be
      prepared and nothing was on record; and in every other case it says where it stopped. */
  lemma ApplyExactly(s: Setup, w: World, confirm: bool, answer: Answer, io: Io, starts: bool)
    ensures var v := Applied(s, w, confirm, answer, io, starts);
      if !Asked(w.shared, confirm) then v == w
      else if !WayBack(s, w.disk, answer) then
        v == w.(shared := w.shared.(state := "unavailable", errorCode := "MANAGER_UPDATE_ROLLBACK_UNAVAILABLE"))
      else
        var q := PrepareRequest(s.current, w.shared.candidate.envelope, w.shared.downloadedPath, answer.envelope,
                                s.recoveryInstaller);
        if !(io.read && io.write && w.file == Absent && MayPrepare(s.site, w.disk, q)) then
          v == w.(shared := w.shared.(state := "unavailable", errorCode := "MANAGER_UPDATE_PREPARE_FAILED"))
        else
          var file := Stored(RecordFor(s, w.shared, answer.envelope));
          && v.file == file && v.disk == w.disk && v.calls == w.calls
          && v.launches == w.launches + [Launch(w.shared.downloadedPath, w.shared.candidate, file, w.disk, starts)]
          && v.shared == if starts then w.shared.(state := "applying", errorCode := "")
                         else w.shared.(state := "unavailable", errorCode := "MANAGER_UPDATE_LAUNCH_FAILED")
  {
    if Asked(w.shared, confirm) && WayBack(s, w.disk, answer) {
      PrepareExactly(s.site, w.disk, w.file, Request(s, w.shared.candidate, w.shared.downloadedPath, answer.envelope), io);
    }
  }

  // ---- A whole update --------------------------------------------------------------------

  const WORKING := Io(true, true, true)

  /** What must be so for an update to go through. */
  predicate MayUpdate(s: Setup, disk: Disk, e: Envelope, back: Envelope, body: Bytes) {
    && GoodSetup(s) && GoodRelease(s, e) && NewerHere(s, e) && SelectedHere(s, e.manifest.rollout)
    && InstallerPath(s, Candidate(e, true, true)) !in disk && InstallerPath(s, Candidate(e, true, true)) != ""
    && |body| == e.manifest.size && s.site.trust.digest(body) == e.manifest.sha256
    && WayBack(s, disk, Found(back)) && s.site.within(InstallerPath(s, Candidate(e, true, true)))
  }

  function Target(s: Setup, e: Envelope): Path {
    s.inRoot(e.manifest.filename)
  }

  /** Refresh, Download and Apply, one after the other. */
  function Updated(s: Setup, disk: Disk, e: Envelope, back: Envelope, body: Bytes): World {
    var refreshed := AfterRefresh(UNTOUCHED, Check(s, Found(e)));
    var (downloaded, after) := Downloaded(s, refreshed, disk, true, false, Some(body));
    Applied(s, World(downloaded, Absent, after, map[], []), true, Found(back), WORKING, true)
  }

  /** With nothing in the way, an update is found, downloaded and handed over, its record on disk. */
  lemma UpdateGoesThrough(s: Setup, disk: Disk, e: Envelope, back: Envelope, body: Bytes)
    requires MayUpdate(s, disk, e, back, body)
    ensures var v := Updated(s, disk, e, back, body);
      && v.disk == disk[Target(s, e) := body] && v.shared.state == "applying"
      && v.file == Stored(Pending(s.current, e.manifest.version, e.manifest.sequence, Target(s, e), s.recoveryInstaller,
                                  e, back, 0, Installing, ""))
      && v.launches == [Launch(Target(s, e), Candidate(e, true, true), v.file, v.disk, true)]
  {
    var refreshed := AfterRefresh(UNTOUCHED, Check(s, Found(e)));
    RefreshExactly(s, UNTOUCHED, Found(e));
    var (downloaded, after) := Downloaded(s, refreshed, disk, true, false, Some(body));
    DownloadExactly(s, refreshed, disk, true, false, Some(body));
    assert WayBack(s, after, Found(back));
    ApplyExactly(s, World(downloaded, Absent, after, map[], []), true, Found(back), WORKING, true);
  }

  /** Such an update there is. */
  lemma UpdateExists(channel: string) returns (s: Setup, disk: Disk, e: Envelope, back: Envelope, body: Bytes)
    requires channel in {"stable", "beta"}
    ensures MayUpdate(s, disk, e, back, body)
  {
    RollbackOutcome.SampleVersions();
    RollbackOutcome.SampleIsVerified("1.0.1", channel);
    RollbackOutcome.SampleIsVerified("1.0.0", channel);
    var site := Site(RollbackOutcome.SAMPLE_TRUST, path => true);
    s := Setup(site, "1.0.0", channel, "machine", (seed, identity) => 0, name => "target", "recovery");
    disk, body := map["recovery" := [0]], [0];
    e, back := RollbackOutcome.SampleEnvelope("1.0.1", channel), RollbackOutcome.SampleEnvelope("1.0.0", channel);
  }
}
