/** Staged rollout of a signed release (internal/managerupdate/manifest.go). */
module Rollout {
  import opened Wrappers

  const BASIS := 10_000
  const PREFIXES := 0x1_0000_0000

  datatype Rollout = Rollout(active: bool, basisPoints: int, seed: string)

  datatype RolloutError = MetadataInvalid

  predicate IsIdentity(s: string) {
    && 1 <= |s| <= 256
    && forall i :: 0 <= i < |s| ==>
         || 'A' <= s[i] <= 'Z' || 'a' <= s[i] <= 'z' || '0' <= s[i] <= '9' || s[i] in {'.', '_', ':', '-'}
  }

  predicate IsHexDigest(s: string) {
    |s| == 64 && forall i :: 0 <= i < |s| ==> 'a' <= s[i] <= 'f' || '0' <= s[i] <= '9'
  }

  /** A seed and an identity hash to the first four bytes of a digest, big-endian. */
  type PrefixHash = (string, string) -> nat

  /** The selection rule, before the shortcut at 10,000 basis points. */
  predicate Selected(prefix: nat, basisPoints: int) {
    prefix % BASIS < basisPoints
  }

  function Eligible(rollout: Rollout, identity: string, hash: PrefixHash): (r: Result<bool, RolloutError>)
    ensures !rollout.active || rollout.basisPoints <= 0 ==> r == Ok(false)
    ensures rollout.active && rollout.basisPoints > 0 ==>
              (r.Err? <==> !IsIdentity(identity) || !IsHexDigest(rollout.seed))
    // The shortcut at 10,000 changes nothing.
    ensures rollout.active && rollout.basisPoints > 0 && r.Ok? && rollout.basisPoints <= BASIS ==>
              r.value == Selected(hash(rollout.seed, identity), rollout.basisPoints)
  {
    if !rollout.active || rollout.basisPoints <= 0 then Ok(false)
    else if !IsIdentity(identity) || !IsHexDigest(rollout.seed) then Err(MetadataInvalid)
    else if rollout.basisPoints == BASIS then Ok(true)
    else Ok(hash(rollout.seed, identity) % BASIS < rollout.basisPoints)
  }

  /** Widening a rollout never takes the release away from anyone. */
  lemma WideningKeepsEveryone(narrow: Rollout, wide: Rollout, identity: string, hash: PrefixHash)
    requires wide == narrow.(basisPoints := wide.basisPoints)
    requires narrow.basisPoints <= wide.basisPoints <= BASIS
    requires Eligible(narrow, identity, hash) == Ok(true)
    ensures Eligible(wide, identity, hash) == Ok(true)
  {
    assert Selected(hash(narrow.seed, identity), narrow.basisPoints);
  }

  // ---- How many are selected -------------------------------------------------------------

  function SelectedBelow(n: nat, b: nat): set<nat> {
    set x: nat | x < n && Selected(x, b)
  }

  function Min(a: nat, b: nat): nat {
    if a < b then a else b
  }

  lemma OneMore(n: nat, b: nat)
    ensures |SelectedBelow(n + 1, b)| == |SelectedBelow(n, b)| + (if Selected(n, b) then 1 else 0)
  {
    if Selected(n, b) {
      assert SelectedBelow(n + 1, b) == SelectedBelow(n, b) + {n};
    } else {
      assert SelectedBelow(n + 1, b) == SelectedBelow(n, b);
    }
  }

  /** Within one block of 10,000 consecutive prefixes, the first b are selected. */
  lemma {:induction false} WithinBlock(q: nat, r: nat, b: nat)
    requires r <= BASIS && b <= BASIS
    ensures |SelectedBelow(q * BASIS + r, b)| == |SelectedBelow(q * BASIS, b)| + Min(r, b)
    decreases r
  {
    if r > 0 {
      WithinBlock(q, r - 1, b);
      OneMore(q * BASIS + r - 1, b);
    }
  }

  lemma {:induction false} WholeBlocks(q: nat, b: nat)
    requires b <= BASIS
    ensures |SelectedBelow(q * BASIS, b)| == q * b
    decreases q, b
  {
    if q > 0 {
      WholeBlocks(q - 1, b);
      WithinBlock(q - 1, BASIS, b);
      assert (q - 1) * BASIS + BASIS == q * BASIS;
      assert (q - 1) * b + b == q * b;
    } else {
      assert SelectedBelow(0, b) == {};
    }
  }

  /** Of all 2^32 hash prefixes, exactly this many are selected at b basis points. */
  lemma SelectedPrefixes(b: nat)
    requires b <= BASIS
    ensures |SelectedBelow(PREFIXES, b)| == b * 429_496 + Min(b, 7_296)
    ensures b == 0 ==> |SelectedBelow(PREFIXES, b)| == 0
    ensures b == BASIS ==> |SelectedBelow(PREFIXES, b)| == PREFIXES
  {
    WholeBlocks(429_496, b);
    WithinBlock(429_496, 7_296, b);
  }
}
