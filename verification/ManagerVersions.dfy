/** The Manager's own version order (internal/managerupdate/manifest.go). */
module ManagerVersions {
  import opened Wrappers
  import opened Decimal

  datatype VersionError = MetadataInvalid

  /** One of three dot-separated parts: a canonical numeral of at most nine digits. */
  predicate IsPart(s: string) {
    IsCanonical(s) && |s| <= 9
  }

  predicate IsVersion(s: string) {
    var parts := Split(s, '.');
    |parts| == 3 && IsPart(parts[0]) && IsPart(parts[1]) && IsPart(parts[2])
  }

  function Parts(s: string): (p: seq<nat>)
    requires IsVersion(s)
    ensures |p| == 3
  {
    var parts := Split(s, '.');
    [Value(parts[0]), Value(parts[1]), Value(parts[2])]
  }

  predicate LexLess(a: seq<nat>, b: seq<nat>)
    requires |a| == |b| == 3
  {
    || a[0] < b[0]
    || (a[0] == b[0] && a[1] < b[1])
    || (a[0] == b[0] && a[1] == b[1] && a[2] < b[2])
  }

  predicate Newer(a: string, b: string)
    requires IsVersion(a) && IsVersion(b)
  {
    LexLess(Parts(b), Parts(a))
  }

  /** Each part stays below 10^9, so it fits the machine integer it is scanned into. */
  lemma PartsAreSmall(s: string)
    requires IsVersion(s)
    ensures forall k :: 0 <= k < 3 ==> Parts(s)[k] < 1_000_000_000
  {
    var parts := Split(s, '.');
    PartIsSmall(parts[0]);
    PartIsSmall(parts[1]);
    PartIsSmall(parts[2]);
  }

  lemma PartIsSmall(s: string)
    requires IsPart(s)
    ensures Value(s) < 1_000_000_000
  {
    ValueBound(s);
    Pow10Monotone(|s|, 9);
    assert Pow10(9) == 1_000_000_000;
  }

  lemma {:induction false} Pow10Monotone(m: nat, n: nat)
    requires m <= n
    ensures Pow10(m) <= Pow10(n)
    decreases n
  {
    if m < n {
      Pow10Monotone(m, n - 1);
    }
  }

  /** A version as one number: its parts are digits to the base 10^9. */
  function Weight(s: string): nat
    requires IsVersion(s)
  {
    (Parts(s)[0] * 1_000_000_000 + Parts(s)[1]) * 1_000_000_000 + Parts(s)[2]
  }

  /** Newer is greater. */
  lemma NewerIsHeavier(a: string, b: string)
    requires IsVersion(a) && IsVersion(b)
    ensures Newer(a, b) <==> Weight(a) > Weight(b)
  {
    PartsAreSmall(a);
    PartsAreSmall(b);
  }

  /** A version is three canonical numerals of at most nine digits with dots between, and nothing else. */
  lemma VersionIsThreeNumerals(a: string, b: string, c: string)
    requires !Has(a, '.') && !Has(b, '.') && !Has(c, '.')
    ensures IsVersion(a + ['.'] + b + ['.'] + c) <==>
      IsCanonical(a) && IsCanonical(b) && IsCanonical(c) && |a| <= 9 && |b| <= 9 && |c| <= 9
    ensures IsVersion(a + ['.'] + b + ['.'] + c) ==>
      Parts(a + ['.'] + b + ['.'] + c) == [Value(a), Value(b), Value(c)]
  {
    assert a + ['.'] + b + ['.'] + c == a + ['.'] + (b + ['.'] + c);
    SplitAt(a, b + ['.'] + c, '.');
    SplitAt(b, c, '.');
    SplitWhole(c, '.');
    assert [a] + ([b] + [c]) == [a, b, c];
  }

  /** Equal parts come only from identical strings. */
  lemma SamePartsSameVersion(a: string, b: string)
    requires IsVersion(a) && IsVersion(b) && Parts(a) == Parts(b)
    ensures a == b
  {
    var pa, pb := Split(a, '.'), Split(b, '.');
    assert Parts(a)[0] == Parts(b)[0] && Parts(a)[1] == Parts(b)[1] && Parts(a)[2] == Parts(b)[2];
    CanonicalInjective(pa[0], pb[0]);
    CanonicalInjective(pa[1], pb[1]);
    CanonicalInjective(pa[2], pb[2]);
    assert pa == pb;
    JoinSplit(a, '.');
    JoinSplit(b, '.');
  }

  /** An error exactly for a string outside the pattern; otherwise the sign of the lexicographic
      order of the parts, and zero only for identical strings. */
  method CompareVersions(left: string, right: string) returns (r: Result<int, VersionError>)
    ensures r.Ok? <==> IsVersion(left) && IsVersion(right)
    ensures r.Ok? ==> r.value in {-1, 0, 1}
    ensures r.Ok? ==> (r.value == -1 <==> Newer(right, left))
    ensures r.Ok? ==> (r.value == 1 <==> Newer(left, right))
    ensures r.Ok? ==> (r.value == 0 <==> left == right)
  {
    if !IsVersion(left) || !IsVersion(right) {
      return Err(MetadataInvalid);
    }
    var leftParts, rightParts := Parts(left), Parts(right);
    for index := 0 to 3
      invariant forall k :: 0 <= k < index ==> leftParts[k] == rightParts[k]
    {
      if leftParts[index] < rightParts[index] {
        return Ok(-1);
      }
      if leftParts[index] > rightParts[index] {
        return Ok(1);
      }
    }
    SamePartsSameVersion(left, right);
    return Ok(0);
  }

  /** The version order is a strict total order: irreflexive, transitive, and deciding every two different versions. */
  lemma NewerIsStrictTotalOrder(a: string, b: string, c: string)
    requires IsVersion(a) && IsVersion(b) && IsVersion(c)
    ensures !Newer(a, a)
    ensures Newer(a, b) && Newer(b, c) ==> Newer(a, c)
    ensures a != b <==> Newer(a, b) || Newer(b, a)
    ensures !(Newer(a, b) && Newer(b, a))
  {
    if !Newer(a, b) && !Newer(b, a) {
      SamePartsSameVersion(a, b);
    }
  }
}
