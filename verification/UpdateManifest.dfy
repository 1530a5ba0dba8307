/** Signed release metadata (internal/managerupdate/manifest.go) and installers on disk. */
module UpdateManifest {
  import opened Wrappers
  import opened Text
  import opened Rollout
  import opened ManagerVersions

  const MAX_SAFE_INTEGER := 9_007_199_254_740_991
  const MAX_INSTALLER_BYTES := 1024 * 1024 * 1024

  datatype Manifest = Manifest(
    schemaVersion: string, productSurface: string, sequence: int, version: string, channel: string,
    platform: string, arch: string, filename: string, size: int, sha256: string, urlPath: string,
    publishedAt: string, rollbackDataStrategy: string, rolloutStatus: string, rollout: Rollout,
    rolloutUpdatedAt: string)

  datatype Envelope = Envelope(manifest: Manifest, signatureKeyId: string, signature: string)

  /** What the model does not look into: timestamps, the signature check under the keys built into
      the executable, and SHA-256 with its hexadecimal form. */
  datatype Trust = Trust(
    isTimestamp: string -> bool,
    signatureHolds: Envelope -> bool,
    digest: Bytes -> string)

  function InstallerName(version: string): string {
    "LongHub-Manager-Setup-" + version + ".exe"
  }

  predicate ValidManifest(trust: Trust, m: Manifest) {
    && m.schemaVersion == "longhub/client-update/v2"
    && m.productSurface == "longhub-manager"
    && m.platform == "win32" && m.arch == "x64"
    && 0 < m.sequence <= MAX_SAFE_INTEGER
    && IsVersion(m.version)
    && m.channel in {"stable", "beta"}
    && m.filename == InstallerName(m.version)
    && m.urlPath == "/downloads/" + InstallerName(m.version)
    && 0 < m.size <= MAX_INSTALLER_BYTES && IsHexDigest(m.sha256)
    && trust.isTimestamp(m.publishedAt)
    && m.rollbackDataStrategy in {"snapshot_required", "backward_compatible"}
    && m.rolloutStatus in {"active", "paused"} && m.rollout.active == (m.rolloutStatus == "active")
    && 0 <= m.rollout.basisPoints <= BASIS && (m.rollout.active ==> m.rollout.basisPoints != 0)
    && IsHexDigest(m.rollout.seed)
    && trust.isTimestamp(m.rolloutUpdatedAt)
  }

  /** What an envelope must pass wherever it enters: its manifest, then its signature. */
  predicate Verified(trust: Trust, e: Envelope) {
    ValidManifest(trust, e.manifest) && trust.signatureHolds(e)
  }

  type Path = string

  /** The regular files the update touches. */
  type Disk = map<Path, Bytes>

  /** The installer at `path` is the very file the manifest describes. */
  predicate InstallerMatches(trust: Trust, disk: Disk, path: Path, m: Manifest) {
    && path in disk
    && |disk[path]| == m.size
    && trust.digest(disk[path]) == m.sha256
  }
}
