/** The page's order on OpenClaw versions (internal/httpapi/web/index.html), section 11 of Semantic Versioning 2.0.0. */
module PageVersions {
  import opened Wrappers
  import opened Text
  import opened Decimal

  /** Number() on digits: a nondecreasing rounding that is exact up to 2^53 - 1. */
  type Rounding = nat -> nat

  const MAX_SAFE := 0x1F_FFFF_FFFF_FFFF

  ghost predicate IsRounding(number: Rounding) {
    && (forall n: nat :: n <= MAX_SAFE ==> number(n) == n)
    && (forall m: nat, n: nat :: m <= n ==> number(m) <= number(n))
  }

  /** A parsed version; build metadata is dropped. */
  datatype Version = Version(core: seq<string>, prerelease: seq<string>)

  predicate IsIdentifierChar(c: char) {
    'a' <= c <= 'z' || 'A' <= c <= 'Z' || IsDigit(c) || c == '-' || c == '.'
  }

  /** What may stand after '-' or '+'. */
  predicate IsSuffix(s: string) {
    s != "" && forall i :: 0 <= i < |s| ==> IsIdentifierChar(s[i])
  }

  predicate IsCore(parts: seq<string>) {
    |parts| == 3 && IsNumeral(parts[0]) && IsNumeral(parts[1]) && IsNumeral(parts[2])
  }

  /** Core and prerelease, without build metadata. */
  function ParseBody(body: string): Option<Version> {
    var k := IndexOf(body, '-');
    var core := Split(body[..k], '.');
    if !IsCore(core) then None
    else if k == |body| then Some(Version(core, []))
    else if !IsSuffix(body[k + 1..]) then None
    else Some(Version(core, Split(body[k + 1..], '.')))
  }

  function Parse(value: string): Option<Version> {
    var t := TrimSpace(value);
    var k := IndexOf(t, '+');
    if k < |t| && !IsSuffix(t[k + 1..]) then None else ParseBody(t[..k])
  }

  // ---- The comparison --------------------------------------------------------------------

  predicate Less(a: string, b: string) {
    b != "" && (a == "" || a[0] < b[0] || (a[0] == b[0] && Less(a[1..], b[1..])))
  }

  function Sign(greater: bool): int {
    if greater then 1 else -1
  }

  /** Two identifiers that are not the same string. */
  function CompareIdentifiers(number: Rounding, a: string, b: string): int {
    if IsNumeral(a) && IsNumeral(b) then Sign(number(Value(a)) > number(Value(b)))
    else if IsNumeral(a) != IsNumeral(b) then (if IsNumeral(a) then -1 else 1)
    else Sign(Less(b, a))
  }

  function CompareLists(number: Rounding, a: seq<string>, b: seq<string>): int
    decreases |a|
  {
    if a == [] && b == [] then 0
    else if a == [] then -1
    else if b == [] then 1
    else if a[0] == b[0] then CompareLists(number, a[1..], b[1..])
    else CompareIdentifiers(number, a[0], b[0])
  }

  function CompareCores(number: Rounding, a: seq<string>, b: seq<string>, from: nat): int
    requires IsCore(a) && IsCore(b)
    decreases 3 - from
  {
    if from >= 3 then 0
    else if number(Value(a[from])) != number(Value(b[from])) then Sign(number(Value(a[from])) > number(Value(b[from])))
    else CompareCores(number, a, b, from + 1)
  }

  function ComparePrereleases(number: Rounding, a: seq<string>, b: seq<string>): int {
    if a == [] && b == [] then 0
    else if a == [] then 1
    else if b == [] then -1
    else CompareLists(number, a, b)
  }

  function Compare(number: Rounding, a: Version, b: Version): int
    requires IsCore(a.core) && IsCore(b.core)
  {
    var core := CompareCores(number, a.core, b.core, 0);
    if core != 0 then core else ComparePrereleases(number, a.prerelease, b.prerelease)
  }

  // ---- The precedence itself -------------------------------------------------------------

  /** The first core number that differs is greater. */
  predicate CoreAbove(number: Rounding, a: seq<string>, b: seq<string>)
    requires IsCore(a) && IsCore(b)
  {
    exists i :: 0 <= i < 3 && number(Value(a[i])) > number(Value(b[i])) && CoreSameTo(number, a, b, i)
  }

  predicate CoreSameTo(number: Rounding, a: seq<string>, b: seq<string>, i: nat)
    requires IsCore(a) && IsCore(b) && i <= 3
  {
    forall j :: 0 <= j < i ==> number(Value(a[j])) == number(Value(b[j]))
  }

  /** The lists agree before `i`, and there one ends or they differ. */
  predicate DifferAt(a: seq<string>, b: seq<string>, i: nat) {
    i <= |a| && i <= |b| && a[..i] == b[..i] && a != b && (i == |a| || i == |b| || a[i] != b[i])
  }

  /** Character by character, a proper beginning first. */
  predicate Below(a: string, b: string) {
    exists k :: 0 <= k <= |a| && k < |b| && a[..k] == b[..k] && (k == |a| || a[k] < b[k])
  }

  /** Two identifiers, by section 11.4 of Semantic Versioning: numeric ones by value, numeric below the
      rest, the rest by character. */
  predicate IdentifierAbove(number: Rounding, a: string, b: string) {
    if IsNumeral(a) && IsNumeral(b) then number(Value(a)) > number(Value(b))
    else if IsNumeral(a) || IsNumeral(b) then IsNumeral(b)
    else Below(b, a)
  }

  predicate ListsAnswer(number: Rounding, a: seq<string>, b: seq<string>, answer: int) {
    && (a == b ==> answer == 0)
    && forall i :: 0 <= i <= |a| && DifferAt(a, b, i) ==>
         answer == if i < |a| && (i == |b| || IdentifierAbove(number, a[i], b[i])) then 1 else -1
  }

  /** The answer by precedence: the core first; with equal cores a release is above its prereleases, and
      otherwise the first identifiers that differ decide, or the list that goes on is above. */
  predicate Precedence(number: Rounding, a: Version, b: Version, answer: int)
    requires IsCore(a.core) && IsCore(b.core)
  {
    if CoreAbove(number, a.core, b.core) then answer == 1
    else if CoreAbove(number, b.core, a.core) then answer == -1
    else if a.prerelease == [] || b.prerelease == [] then
      answer == if a.prerelease == b.prerelease then 0 else if a.prerelease == [] then 1 else -1
    else ListsAnswer(number, a.prerelease, b.prerelease, answer)
  }

  /** Two lists that are not the same differ first in one place. */
  lemma {:induction false} FirstDifference(a: seq<string>, b: seq<string>) returns (i: nat)
    requires a != b
    ensures DifferAt(a, b, i) && forall j :: 0 <= j <= |a| && DifferAt(a, b, j) ==> j == i
    decreases |a|
  {
    if a != [] && b != [] && a[0] == b[0] {
      assert a == [a[0]] + a[1..] && b == [b[0]] + b[1..];
      var k := FirstDifference(a[1..], b[1..]);
      i := k + 1;
      assert a[..i] == [a[0]] + a[1..][..i - 1] && b[..i] == [b[0]] + b[1..][..i - 1];
    } else {
      i := 0;
    }
    forall j | 0 <= j <= |a| && DifferAt(a, b, j)
      ensures j == i
    {
      OneDifference(a, b, i, j);
      OneDifference(a, b, j, i);
    }
  }

  lemma OneDifference(a: seq<string>, b: seq<string>, i: nat, j: nat)
    requires DifferAt(a, b, i) && DifferAt(a, b, j)
    ensures j <= i
  {
    if i < j {
      SameAt(a, b, j, i);
    }
  }

  lemma SameAt(a: seq<string>, b: seq<string>, k: nat, i: nat)
    requires i < k && k <= |a| && k <= |b| && a[..k] == b[..k]
    ensures a[i] == b[i]
  {
    assert a[..k][i] == b[..k][i];
  }

  lemma SameFront<T>(a: seq<T>, b: seq<T>, k: nat)
    requires k <= |a| && k <= |b| && a[..k] == b[..k]
    ensures k > 0 ==> a[0] == b[0]
  {
    if k > 0 {
      assert a[..k][0] == b[..k][0];
    }
  }

  lemma {:induction false} LessIsBelow(a: string, b: string)
    ensures Less(a, b) <==> Below(a, b)
  {
    if a != "" && b != "" && a[0] == b[0] {
      LessIsBelow(a[1..], b[1..]);
      if Below(a[1..], b[1..]) {
        var k :| 0 <= k <= |a[1..]| && k < |b[1..]| && a[1..][..k] == b[1..][..k] && (k == |a[1..]| || a[1..][k] < b[1..][k]);
        assert a[..k + 1] == [a[0]] + a[1..][..k] && b[..k + 1] == [b[0]] + b[1..][..k];
      }
      if Below(a, b) {
        var k :| 0 <= k <= |a| && k < |b| && a[..k] == b[..k] && (k == |a| || a[k] < b[k]);
        assert k > 0 && a[1..][..k - 1] == a[..k][1..] && b[1..][..k - 1] == b[..k][1..];
      }
    } else if Less(a, b) {
      assert a[..0] == b[..0];
    } else if Below(a, b) {
      var k :| 0 <= k <= |a| && k < |b| && a[..k] == b[..k] && (k == |a| || a[k] < b[k]);
      SameFront(a, b, k);
    }
  }

  lemma {:induction false} CoresDecide(number: Rounding, a: seq<string>, b: seq<string>, from: nat)
    requires IsCore(a) && IsCore(b) && from <= 3 && CoreSameTo(number, a, b, from)
    ensures CompareCores(number, a, b, from) ==
      if CoreAbove(number, a, b) then 1 else if CoreAbove(number, b, a) then -1 else 0
    decreases 3 - from
  {
    if from < 3 && number(Value(a[from])) == number(Value(b[from])) {
      CoresDecide(number, a, b, from + 1);
    } else if from < 3 {
      assert CoreSameTo(number, b, a, from);
    }
  }

  lemma IdentifiersDecide(number: Rounding, a: string, b: string)
    requires a != b
    ensures CompareIdentifiers(number, a, b) == if IdentifierAbove(number, a, b) then 1 else -1
  {
    LessIsBelow(b, a);
  }

  lemma {:induction false} ListsDecide(number: Rounding, a: seq<string>, b: seq<string>)
    ensures ListsAnswer(number, a, b, CompareLists(number, a, b))
    decreases |a|
  {
    if a != [] && b != [] && a[0] == b[0] {
      ListsDecide(number, a[1..], b[1..]);
      forall i | 0 <= i <= |a| && DifferAt(a, b, i)
        ensures i > 0 && DifferAt(a[1..], b[1..], i - 1)
      {
        assert a[1..][..i - 1] == a[..i][1..] && b[1..][..i - 1] == b[..i][1..];
        assert a == [a[0]] + a[1..] && b == [b[0]] + b[1..];
      }
    } else {
      if a != [] && b != [] {
        IdentifiersDecide(number, a[0], b[0]);
      }
      forall i | 0 <= i <= |a| && DifferAt(a, b, i)
        ensures i == 0
      {
        SameFront(a, b, i);
      }
    }
  }

  /** What the comparison answers is the precedence of section 11 of Semantic Versioning 2.0.0. */
  lemma CompareIsPrecedence(number: Rounding, a: Version, b: Version)
    requires IsCore(a.core) && IsCore(b.core)
    ensures Precedence(number, a, b, Compare(number, a, b))
  {
    CoresDecide(number, a.core, b.core, 0);
    ListsDecide(number, a.prerelease, b.prerelease);
  }

  lemma ParsedCore(value: string)
    requires Parse(value).Some?
    ensures IsCore(Parse(value).value.core)
  {
  }

  method CompareOpenClawVersions(number: Rounding, leftValue: string, rightValue: string) returns (r: Option<int>)
    ensures r.None? <==> Parse(leftValue).None? || Parse(rightValue).None?
    ensures r.Some? ==> IsCore(Parse(leftValue).value.core) && IsCore(Parse(rightValue).value.core)
    ensures r.Some? ==> r.value == Compare(number, Parse(leftValue).value, Parse(rightValue).value)
    ensures r.Some? ==> Precedence(number, Parse(leftValue).value, Parse(rightValue).value, r.value)
  {
    var parsedLeft, parsedRight := Parse(leftValue), Parse(rightValue);
    if parsedLeft.None? || parsedRight.None? {
      return None;
    }
    ParsedCore(leftValue);
    ParsedCore(rightValue);
    CompareIsPrecedence(number, parsedLeft.value, parsedRight.value);
    var compared := CompareParsed(number, parsedLeft.value, parsedRight.value);
    return Some(compared);
  }

  method CompareParsed(number: Rounding, left: Version, right: Version) returns (r: int)
    requires IsCore(left.core) && IsCore(right.core)
    ensures r == Compare(number, left, right)
  {
    for index := 0 to 3
      invariant CompareCores(number, left.core, right.core, 0) == CompareCores(number, left.core, right.core, index)
    {
      var l, q := number(Value(left.core[index])), number(Value(right.core[index]));
      if l != q {
        return if l > q then 1 else -1;
      }
    }
    if left.prerelease == [] && right.prerelease == [] {
      return 0;
    }
    if left.prerelease == [] {
      return 1;
    }
    if right.prerelease == [] {
      return -1;
    }
    r := CompareLoop(number, left.prerelease, right.prerelease);
  }

  method CompareLoop(number: Rounding, left: seq<string>, right: seq<string>) returns (r: int)
    ensures r == CompareLists(number, left, right)
  {
    var count := if |left| > |right| then |left| else |right|;
    for index := 0 to count
      invariant index <= |left| && index <= |right|
      invariant CompareLists(number, left, right) == CompareLists(number, left[index..], right[index..])
    {
      if index >= |left| {
        return -1;
      }
      if index >= |right| {
        return 1;
      }
      assert left[index..][1..] == left[index + 1..] && right[index..][1..] == right[index + 1..];
      if left[index] != right[index] {
        if IsNumeral(left[index]) && IsNumeral(right[index]) {
          return if number(Value(left[index])) > number(Value(right[index])) then 1 else -1;
        }
        if IsNumeral(left[index]) != IsNumeral(right[index]) {
          return if IsNumeral(left[index]) then -1 else 1;
        }
        return if Less(right[index], left[index]) then 1 else -1;
      }
    }
    assert left[count..] == [] && right[count..] == [];
    return 0;
  }

  // ---- The order -------------------------------------------------------------------------

  lemma {:induction false} LessTotal(a: string, b: string)
    ensures !(Less(a, b) && Less(b, a)) && (a != b <==> Less(a, b) || Less(b, a))
    decreases |a|
  {
    if a != "" && b != "" && a[0] == b[0] {
      LessTotal(a[1..], b[1..]);
      assert a == [a[0]] + a[1..] && b == [b[0]] + b[1..];
    }
  }

  lemma {:induction false} LessTransitive(a: string, b: string, c: string)
    requires Less(a, b) && Less(b, c)
    ensures Less(a, c)
    decreases |a|
  {
    if a != "" && a[0] == b[0] == c[0] {
      LessTransitive(a[1..], b[1..], c[1..]);
    }
  }

  /** An identifier the order is exact on: digits without a leading zero, and a safe integer. */
  predicate IsSafe(identifier: string) {
    IsNumeral(identifier) ==> IsCanonical(identifier) && Value(identifier) <= MAX_SAFE
  }

  predicate AllSafe(list: seq<string>) {
    forall i :: 0 <= i < |list| ==> IsSafe(list[i])
  }

  /** Two different numerals that Number() does not tell apart. */
  predicate Confused(number: Rounding, a: string, b: string) {
    a != b && IsNumeral(a) && IsNumeral(b) && number(Value(a)) == number(Value(b))
  }

  lemma IdentifiersOpposite(number: Rounding, a: string, b: string)
    requires a != b
    ensures CompareIdentifiers(number, a, b) == -CompareIdentifiers(number, b, a) <==> !Confused(number, a, b)
    ensures Confused(number, a, b) ==> CompareIdentifiers(number, a, b) == CompareIdentifiers(number, b, a) == -1
  {
    LessTotal(a, b);
  }

  lemma SafeAreNotConfused(number: Rounding, a: string, b: string)
    requires IsRounding(number) && IsSafe(a) && IsSafe(b)
    ensures !Confused(number, a, b)
  {
    if IsNumeral(a) && IsNumeral(b) && Value(a) == Value(b) {
      CanonicalInjective(a, b);
    }
  }

  lemma IdentifiersTransitive(number: Rounding, a: string, b: string, c: string)
    requires IsRounding(number) && IsSafe(a) && IsSafe(b) && IsSafe(c) && a != b && b != c
    requires CompareIdentifiers(number, a, b) == -1 && CompareIdentifiers(number, b, c) == -1
    ensures a != c && CompareIdentifiers(number, a, c) == -1
  {
    SafeAreNotConfused(number, a, b);
    SafeAreNotConfused(number, b, c);
    LessTotal(a, b);
    LessTotal(b, c);
    LessTotal(a, c);
    if !IsNumeral(a) && !IsNumeral(b) && !IsNumeral(c) {
      LessTransitive(a, b, c);
    }
  }

  /** The first identifiers in which two lists differ are confused. */
  predicate ListsConfused(number: Rounding, a: seq<string>, b: seq<string>)
    decreases |a|
  {
    a != [] && b != [] &&
    (if a[0] == b[0] then ListsConfused(number, a[1..], b[1..]) else Confused(number, a[0], b[0]))
  }

  lemma {:induction false} ListsOpposite(number: Rounding, a: seq<string>, b: seq<string>)
    ensures CompareLists(number, a, b) == -CompareLists(number, b, a) <==> !ListsConfused(number, a, b)
    ensures ListsConfused(number, a, b) ==> CompareLists(number, a, b) == CompareLists(number, b, a) == -1
    ensures CompareLists(number, a, b) == 0 <==> a == b
    decreases |a|
  {
    if a != [] && b != [] {
      if a[0] == b[0] {
        ListsOpposite(number, a[1..], b[1..]);
        assert a == [a[0]] + a[1..] && b == [b[0]] + b[1..];
      } else {
        IdentifiersOpposite(number, a[0], b[0]);
      }
    }
  }

  lemma {:induction false} SafeListsNotConfused(number: Rounding, a: seq<string>, b: seq<string>)
    requires IsRounding(number) && AllSafe(a) && AllSafe(b)
    ensures !ListsConfused(number, a, b)
    decreases |a|
  {
    if a != [] && b != [] {
      if a[0] == b[0] {
        SafeListsNotConfused(number, a[1..], b[1..]);
      } else {
        SafeAreNotConfused(number, a[0], b[0]);
      }
    }
  }

  /** Transitive over identifier lists of any length. */
  lemma {:induction false} ListsTransitive(number: Rounding, a: seq<string>, b: seq<string>, c: seq<string>)
    requires IsRounding(number) && AllSafe(a) && AllSafe(b) && AllSafe(c)
    requires CompareLists(number, a, b) == -1 && CompareLists(number, b, c) == -1
    ensures CompareLists(number, a, c) == -1
    decreases |a|
  {
    if a != [] {
      if a[0] == b[0] && b[0] == c[0] {
        ListsTransitive(number, a[1..], b[1..], c[1..]);
      } else if a[0] != b[0] && b[0] != c[0] {
        IdentifiersTransitive(number, a[0], b[0], c[0]);
      }
    }
  }

  // ---- Whole versions --------------------------------------------------------------------

  predicate IsVersion(v: Version) {
    IsCore(v.core)
  }

  /** The numbers of the core as they are compared. */
  predicate SameCore(number: Rounding, a: Version, b: Version)
    requires IsVersion(a) && IsVersion(b)
  {
    forall i :: 0 <= i < 3 ==> number(Value(a.core[i])) == number(Value(b.core[i]))
  }

  lemma CoresOpposite(number: Rounding, a: Version, b: Version)
    requires IsVersion(a) && IsVersion(b)
    ensures CompareCores(number, a.core, b.core, 0) == -CompareCores(number, b.core, a.core, 0)
    ensures CompareCores(number, a.core, b.core, 0) == 0 <==> SameCore(number, a, b)
  {
    CoresFrom(number, a, b, 0);
  }

  lemma {:induction false} CoresFrom(number: Rounding, a: Version, b: Version, from: nat)
    requires IsVersion(a) && IsVersion(b) && from <= 3
    ensures CompareCores(number, a.core, b.core, from) == -CompareCores(number, b.core, a.core, from)
    ensures CompareCores(number, a.core, b.core, from) == 0 <==>
      forall i :: from <= i < 3 ==> number(Value(a.core[i])) == number(Value(b.core[i]))
    decreases 3 - from
  {
    if from < 3 {
      CoresFrom(number, a, b, from + 1);
    }
  }

  lemma {:induction false} CoresTransitive(number: Rounding, a: Version, b: Version, c: Version, from: nat)
    requires IsVersion(a) && IsVersion(b) && IsVersion(c) && from <= 3
    requires CompareCores(number, a.core, b.core, from) <= 0 && CompareCores(number, b.core, c.core, from) <= 0
    ensures CompareCores(number, a.core, c.core, from) <= 0
    ensures CompareCores(number, a.core, b.core, from) < 0 || CompareCores(number, b.core, c.core, from) < 0 ==>
      CompareCores(number, a.core, c.core, from) < 0
    decreases 3 - from
  {
    if from < 3 && number(Value(a.core[from])) == number(Value(b.core[from])) == number(Value(c.core[from])) {
      CoresTransitive(number, a, b, c, from + 1);
    }
  }

  /** Exactly when swapping two versions does not swap the answer. */
  predicate VersionsConfused(number: Rounding, a: Version, b: Version)
    requires IsVersion(a) && IsVersion(b)
  {
    SameCore(number, a, b) && ListsConfused(number, a.prerelease, b.prerelease)
  }

  /** For all versions: swapping negates the answer exactly when the first identifiers that differ are
      not two numerals Number() takes for the same; if they are, each version is below the other. */
  lemma AntisymmetricUnlessConfused(number: Rounding, a: Version, b: Version)
    requires IsVersion(a) && IsVersion(b)
    ensures Compare(number, a, b) == -Compare(number, b, a) <==> !VersionsConfused(number, a, b)
    ensures VersionsConfused(number, a, b) ==> Compare(number, a, b) == Compare(number, b, a) == -1
    ensures Compare(number, a, b) == 0 <==> SameCore(number, a, b) && a.prerelease == b.prerelease
  {
    CoresOpposite(number, a, b);
    ListsOpposite(number, a.prerelease, b.prerelease);
  }

  predicate SafeVersion(v: Version) {
    IsVersion(v) && AllSafe(v.prerelease)
    && forall i :: 0 <= i < 3 ==> IsCanonical(v.core[i]) && Value(v.core[i]) <= MAX_SAFE
  }

  lemma SafeCoresEqual(number: Rounding, a: Version, b: Version)
    requires IsRounding(number) && SafeVersion(a) && SafeVersion(b) && SameCore(number, a, b)
    ensures a.core == b.core
  {
    forall i | 0 <= i < 3
      ensures a.core[i] == b.core[i]
    {
      CanonicalInjective(a.core[i], b.core[i]);
    }
  }

  /** On versions without leading zeros or unsafe integers the comparison is a strict total order. */
  lemma StrictTotalOrder(number: Rounding, a: Version, b: Version)
    requires IsRounding(number) && SafeVersion(a) && SafeVersion(b)
    ensures Compare(number, a, b) == -Compare(number, b, a)
    ensures Compare(number, a, b) == 0 <==> a == b
  {
    AntisymmetricUnlessConfused(number, a, b);
    SafeListsNotConfused(number, a.prerelease, b.prerelease);
    if SameCore(number, a, b) {
      SafeCoresEqual(number, a, b);
    }
  }

  lemma PrereleasesTransitive(number: Rounding, a: seq<string>, b: seq<string>, c: seq<string>)
    requires IsRounding(number) && AllSafe(a) && AllSafe(b) && AllSafe(c)
    requires ComparePrereleases(number, a, b) == -1 && ComparePrereleases(number, b, c) == -1
    ensures ComparePrereleases(number, a, c) == -1
  {
    if a != [] && b != [] && c != [] {
      ListsTransitive(number, a, b, c);
    }
  }

  lemma CoreIsSign(number: Rounding, a: Version, b: Version)
    requires IsVersion(a) && IsVersion(b)
    ensures -1 <= CompareCores(number, a.core, b.core, 0) <= 1
  {
  }

  /** On every core the page parses; only the prerelease numerals must be free of leading zeros and safe. */
  lemma Transitive(number: Rounding, a: Version, b: Version, c: Version)
    requires IsRounding(number) && IsVersion(a) && IsVersion(b) && IsVersion(c)
    requires AllSafe(a.prerelease) && AllSafe(b.prerelease) && AllSafe(c.prerelease)
    requires Compare(number, a, b) == -1 && Compare(number, b, c) == -1
    ensures Compare(number, a, c) == -1
  {
    CoreIsSign(number, a, b);
    CoreIsSign(number, b, c);
    CoreIsSign(number, a, c);
    CoresTransitive(number, a, b, c, 0);
    if CompareCores(number, a.core, b.core, 0) == 0 && CompareCores(number, b.core, c.core, 0) == 0 {
      CoresOpposite(number, a, b);
      CoresOpposite(number, b, c);
      CoresOpposite(number, a, c);
      PrereleasesTransitive(number, a.prerelease, b.prerelease, c.prerelease);
    }
  }

  /** Digits and dots that make up a core. */
  predicate IsCoreText(s: string) {
    s != "" && (forall i :: 0 <= i < |s| ==> IsDigit(s[i]) || s[i] == '.') && IsCore(Split(s, '.'))
  }

  /** A core with a numeral behind it parses into just these. */
  lemma PrereleaseParsed(core: string, tag: string)
    requires IsCoreText(core) && IsNumeral(tag)
    ensures Parse(core + "-" + tag) == Some(Version(Split(core, '.'), [tag]))
  {
    var t := core + "-" + tag;
    assert t[0] == core[0] && t[|t| - 1] == tag[|tag| - 1];
    assert TrimLeft(t) == t && TrimRight(t) == t;
    assert forall i :: 0 <= i < |t| ==> t[i] != '+';
    assert IndexOf(t, '+') == |t| && t[..|t|] == t;
    assert t[|core|] == '-' && forall i :: 0 <= i < |core| ==> t[i] == core[i] && core[i] != '-';
    assert IndexOf(t, '-') == |core| && t[..|core|] == core && t[|core| + 1..] == tag;
    SplitWhole(tag, '.');
  }

  /** A leading zero is enough: whatever the core, of core-01 and core-1 each is taken for the older. */
  lemma LeadingZeroConfuses(number: Rounding, core: string)
    requires IsCoreText(core)
    ensures var a, b := Parse(core + "-01"), Parse(core + "-1");
      && a.Some? && b.Some? && IsCore(a.value.core) && IsCore(b.value.core)
      && Compare(number, a.value, b.value) == -1 && Compare(number, b.value, a.value) == -1
  {
    assert core + "-01" == core + "-" + "01" && core + "-1" == core + "-" + "1";
    PrereleaseParsed(core, "01");
    PrereleaseParsed(core, "1");
    var a, b := Version(Split(core, '.'), ["01"]), Version(Split(core, '.'), ["1"]);
    assert "01"[..1] == "0";
    assert Value("0") == 0 && Value("1") == 1 && Value("01") == 10 * Value("0") + 1;
    assert Confused(number, "01", "1");
    AntisymmetricUnlessConfused(number, a, b);
  }

  lemma OneIsCoreText()
    ensures IsCoreText("1.0.0")
  {
    SplitWhole("0", '.');
    SplitAt("0", "0", '.');
    SplitAt("1", "0.0", '.');
    assert "0" + "." + "0" == "0.0" && "1" + "." + "0.0" == "1.0.0";
  }

  /** So it is with 1.0.0-01 and 1.0.0-1. */
  lemma LeadingZeroExample(number: Rounding)
    ensures var a, b := Parse("1.0.0-01"), Parse("1.0.0-1");
      && a.Some? && b.Some? && IsCore(a.value.core) && IsCore(b.value.core)
      && Compare(number, a.value, b.value) == -1 && Compare(number, b.value, a.value) == -1
  {
    OneIsCoreText();
    LeadingZeroConfuses(number, "1.0.0");
    assert "1.0.0" + "-01" == "1.0.0-01" && "1.0.0" + "-1" == "1.0.0-1";
  }

  // ---- What parses -----------------------------------------------------------------------

  /** What stands behind a mark, if anything does. */
  function Tail(mark: char, s: string): string {
    if s == "" then "" else [mark] + s
  }

  function Dotted(list: seq<string>): string {
    if list == [] then "" else Join(list, '.')
  }

  /** A version as it is written, with its build metadata if there is any. */
  function Written(v: Version, build: string): string {
    Dotted(v.core) + Tail('-', Dotted(v.prerelease)) + Tail('+', build)
  }

  /** The parts make up a version the page can read. */
  predicate Readable(v: Version, build: string) {
    && IsCore(v.core)
    && (v.prerelease != [] ==> IsSuffix(Dotted(v.prerelease)))
    && (forall k :: 0 <= k < |v.prerelease| ==> !Has(v.prerelease[k], '.'))
    && (build != "" ==> IsSuffix(build))
  }

  lemma BodyIsWritten(body: string)
    requires ParseBody(body).Some?
    ensures Readable(ParseBody(body).value, "") && body == Written(ParseBody(body).value, "")
  {
    var j := IndexOf(body, '-');
    var v, core, tail := ParseBody(body).value, body[..j], if j < |body| then body[j + 1..] else "";
    JoinSplit(core, '.');
    assert Dotted(v.core) == core;
    if j < |body| {
      JoinSplit(tail, '.');
      PartsHaveNoSeparator(tail, '.');
      assert Dotted(v.prerelease) == tail;
    }
    CutAtMark(body, j, '-', tail);
    assert Written(v, "") == core + Tail('-', tail) + "";
  }

  /** What parses is written so, and its parts are what was written. */
  lemma ParsedIsWritten(value: string) returns (build: string)
    requires Parse(value).Some?
    ensures Readable(Parse(value).value, build) && TrimSpace(value) == Written(Parse(value).value, build)
  {
    var t := TrimSpace(value);
    var k := IndexOf(t, '+');
    build := if k < |t| then t[k + 1..] else "";
    var v := Parse(value).value;
    assert Parse(value) == ParseBody(t[..k]);
    BodyIsWritten(t[..k]);
    WithBuild(v, build);
    CutAtMark(t, k, '+', build);
  }

  lemma CutAtMark(t: string, k: nat, mark: char, tail: string)
    requires k <= |t| && (k < |t| ==> t[k] == mark) && tail == if k < |t| then t[k + 1..] else ""
    requires k < |t| ==> tail != ""
    ensures t == t[..k] + Tail(mark, tail)
  {
  }

  lemma WithBuild(v: Version, build: string)
    requires Readable(v, "") && (build != "" ==> IsSuffix(build))
    ensures Readable(v, build)
    ensures Written(v, build) == Written(v, "") + Tail('+', build)
  {
  }

  /** Digits and dots. */
  predicate IsDotted(s: string) {
    forall i :: 0 <= i < |s| ==> IsDigit(s[i]) || s[i] == '.'
  }

  lemma {:induction false} JoinIsDotted(parts: seq<string>)
    requires |parts| > 0 && forall k :: 0 <= k < |parts| ==> IsNumeral(parts[k])
    ensures IsDotted(Join(parts, '.')) && Join(parts, '.') != "" && IsDigit(Join(parts, '.')[0])
    ensures IsDigit(Join(parts, '.')[|Join(parts, '.')| - 1])
  {
    if |parts| > 1 {
      JoinIsDotted(parts[1..]);
    }
  }

  lemma ReleaseParses(v: Version, core: string)
    requires Readable(v, "") && v.prerelease == [] && core == Dotted(v.core) && IsDotted(core)
    ensures ParseBody(core) == Some(v)
  {
    SplitJoin(v.core, '.');
    assert IndexOf(core, '-') == |core| && core[..|core|] == core;
  }

  lemma PrereleaseParses(v: Version, core: string, tail: string)
    requires Readable(v, "") && v.prerelease != [] && core == Dotted(v.core) && tail == Dotted(v.prerelease)
    requires IsDotted(core)
    ensures ParseBody(core + ['-'] + tail) == Some(v)
  {
    var body := core + ['-'] + tail;
    SplitJoin(v.core, '.');
    SplitJoin(v.prerelease, '.');
    assert body[|core|] == '-' && forall i :: 0 <= i < |core| ==> body[i] == core[i] && core[i] != '-';
    assert IndexOf(body, '-') == |core| && body[..|core|] == core && body[|core| + 1..] == tail;
  }

  lemma BodyIsPlain(v: Version)
    requires Readable(v, "")
    ensures var body := Dotted(v.core) + Tail('-', Dotted(v.prerelease));
      '+' !in body && body != "" && TrimSpace(body) == body
  {
    JoinIsDotted(v.core);
    var body := Dotted(v.core) + Tail('-', Dotted(v.prerelease));
    assert body[0] == Dotted(v.core)[0];
    TrimmedDotted(body);
  }

  lemma BodyParses(v: Version, body: string)
    requires Readable(v, "") && body == Dotted(v.core) + Tail('-', Dotted(v.prerelease))
    ensures ParseBody(body) == Some(v)
  {
    var core, tail := Dotted(v.core), Dotted(v.prerelease);
    JoinIsDotted(v.core);
    if v.prerelease == [] {
      ReleaseParses(v, core);
      assert body == core;
    } else {
      PrereleaseParses(v, core, tail);
      assert body == core + ['-'] + tail;
    }
  }

  lemma TrimmedDotted(t: string)
    requires t != "" && IsDigit(t[0]) && IsIdentifierChar(t[|t| - 1])
    ensures TrimSpace(t) == t
  {
    assert TrimLeft(t) == t;
  }

  /** And everything written so parses into its parts: the two say exactly which strings are versions. */
  lemma WrittenParses(v: Version, build: string)
    requires Readable(v, build)
    ensures Parse(Written(v, build)) == Some(v)
  {
    var body := Dotted(v.core) + Tail('-', Dotted(v.prerelease));
    BodyIsPlain(v);
    BodyParses(v, body);
    assert IndexOf(body, '+') == |body| && body[..|body|] == body;
    if build == "" {
      assert Written(v, build) == body;
    } else {
      BuildIsIgnored(body, build);
      assert Written(v, build) == body + "+" + build;
    }
  }

  // ---- Build metadata --------------------------------------------------------------------

  /** Build metadata changes neither whether a version parses nor what it is compared as. */
  lemma BuildIsIgnored(body: string, build: string)
    requires TrimSpace(body) == body && IsSuffix(build) && '+' !in body && body != ""
    ensures Parse(body + "+" + build) == Parse(body)
  {
    var t := body + "+" + build;
    assert TrimSpace(t) == t by {
      TrimmedEnds(body, build);
    }
    assert t[..|body|] == body && t[|body| + 1..] == build;
    assert t[|body|] == '+' && forall i :: 0 <= i < |body| ==> t[i] == body[i] && body[i] != '+';
    assert IndexOf(t, '+') == |body|;
    assert IndexOf(body, '+') == |body| && body[..|body|] == body;
  }

  lemma TrimmedEnds(body: string, build: string)
    requires TrimSpace(body) == body && body != "" && IsSuffix(build)
    ensures TrimSpace(body + "+" + build) == body + "+" + build
  {
    var t := body + "+" + build;
    TrimLeftStarts(body);
    TrimRightEnds(TrimLeft(body));
    assert |TrimRight(TrimLeft(body))| <= |TrimLeft(body)|;
    TrimLeftShrinks(body);
    assert TrimLeft(body) == body;
    assert t[0] == body[0] && TrimLeft(t) == t;
    assert t[|t| - 1] == build[|build| - 1] && IsIdentifierChar(t[|t| - 1]);
    assert TrimRight(t) == t;
  }

  lemma {:induction false} TrimLeftShrinks(s: string)
    ensures |TrimLeft(s)| <= |s| && (|TrimLeft(s)| == |s| ==> TrimLeft(s) == s)
  {
    if s != "" && IsSpace(s[0]) {
      TrimLeftShrinks(s[1..]);
    }
  }
}
