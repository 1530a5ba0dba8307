/** Decimal numerals, and strings cut at a separator: what both version formats are made of. */
module Decimal {
  predicate IsDigit(c: char) {
    '0' <= c <= '9'
  }

  predicate IsNumeral(s: string) {
    s != "" && forall i :: 0 <= i < |s| ==> IsDigit(s[i])
  }

  /** No leading zero, but for zero itself. */
  predicate IsCanonical(s: string) {
    IsNumeral(s) && (s[0] == '0' ==> |s| == 1)
  }

  function DigitValue(c: char): (d: nat)
    requires IsDigit(c)
    ensures d < 10
  {
    c as int - '0' as int
  }

  function Value(s: string): nat
    requires IsNumeral(s)
  {
    var last := DigitValue(s[|s| - 1]);
    if |s| == 1 then last else 10 * Value(s[..|s| - 1]) + last
  }

  function Pow10(n: nat): (p: nat)
    ensures p > 0
  {
    if n == 0 then 1 else 10 * Pow10(n - 1)
  }

  lemma {:induction false} ValueBound(s: string)
    requires IsNumeral(s)
    ensures Value(s) < Pow10(|s|)
  {
    if |s| > 1 {
      ValueBound(s[..|s| - 1]);
    } else {
      assert Pow10(1) == 10 * Pow10(0);
    }
  }

  lemma {:induction false} LongNumeralIsLarge(s: string)
    requires IsCanonical(s) && |s| > 1
    ensures Value(s) >= 10
  {
    var front := s[..|s| - 1];
    if |front| > 1 {
      LongNumeralIsLarge(front);
    } else {
      assert front[0] == s[0];
    }
  }

  /** Reading canonical numerals is injective. */
  lemma {:induction false} CanonicalInjective(a: string, b: string)
    requires IsCanonical(a) && IsCanonical(b) && Value(a) == Value(b)
    ensures a == b
  {
    if |a| == 1 || |b| == 1 {
      if |a| > 1 {
        LongNumeralIsLarge(a);
      }
      if |b| > 1 {
        LongNumeralIsLarge(b);
      }
      assert a[0] == b[0];
    } else {
      var frontA, frontB := a[..|a| - 1], b[..|b| - 1];
      assert frontA[0] == a[0] && frontB[0] == b[0];
      CanonicalInjective(frontA, frontB);
      assert a == frontA + [a[|a| - 1]] && b == frontB + [b[|b| - 1]];
    }
  }

  // ---- Cutting at a separator ------------------------------------------------------------

  function Split(s: string, sep: char): (parts: seq<string>)
    ensures |parts| > 0
  {
    if s == "" then [""]
    else
      var rest := Split(s[1..], sep);
      if s[0] == sep then [""] + rest else [[s[0]] + rest[0]] + rest[1..]
  }

  function Join(parts: seq<string>, sep: char): string
    requires |parts| > 0
  {
    if |parts| == 1 then parts[0] else parts[0] + [sep] + Join(parts[1..], sep)
  }

  /** Nothing is lost by cutting. */
  lemma {:induction false} JoinSplit(s: string, sep: char)
    ensures Join(Split(s, sep), sep) == s
  {
    if s != "" {
      JoinSplit(s[1..], sep);
      var rest := Split(s[1..], sep);
      if s[0] == sep {
        assert ([""] + rest)[1..] == rest;
      } else {
        assert ([[s[0]] + rest[0]] + rest[1..])[1..] == rest[1..];
      }
    }
  }

  predicate Has(s: string, c: char) {
    exists i :: 0 <= i < |s| && s[i] == c
  }

  lemma {:induction false} SplitWhole(s: string, sep: char)
    requires !Has(s, sep)
    ensures Split(s, sep) == [s]
  {
    if s != "" {
      assert forall i :: 0 <= i < |s[1..]| ==> s[1..][i] == s[i + 1];
      SplitWhole(s[1..], sep);
      assert s == [s[0]] + s[1..];
    }
  }

  lemma {:induction false} SplitAt(s: string, rest: string, sep: char)
    requires !Has(s, sep)
    ensures Split(s + [sep] + rest, sep) == [s] + Split(rest, sep)
  {
    var t := s + [sep] + rest;
    if s == "" {
      assert t[1..] == rest;
    } else {
      assert forall i :: 0 <= i < |s[1..]| ==> s[1..][i] == s[i + 1];
      SplitAt(s[1..], rest, sep);
      assert t[1..] == s[1..] + [sep] + rest && s == [s[0]] + s[1..];
    }
  }

  /** And joining parts without the separator can be undone. */
  lemma {:induction false} SplitJoin(parts: seq<string>, sep: char)
    requires |parts| > 0 && forall k :: 0 <= k < |parts| ==> !Has(parts[k], sep)
    ensures Split(Join(parts, sep), sep) == parts
  {
    if |parts| == 1 {
      SplitWhole(parts[0], sep);
    } else {
      SplitJoin(parts[1..], sep);
      SplitAt(parts[0], Join(parts[1..], sep), sep);
    }
  }

  /** The parts of a cut string hold no separator. */
  lemma {:induction false} PartsHaveNoSeparator(s: string, sep: char)
    ensures forall k :: 0 <= k < |Split(s, sep)| ==> !Has(Split(s, sep)[k], sep)
  {
    if s != "" {
      PartsHaveNoSeparator(s[1..], sep);
      var rest := Split(s[1..], sep);
      forall k | 0 <= k < |Split(s, sep)|
        ensures !Has(Split(s, sep)[k], sep)
      {
        if s[0] != sep && k == 0 {
          assert !Has(rest[0], sep);
          forall i | 0 <= i < |[s[0]] + rest[0]|
            ensures ([s[0]] + rest[0])[i] != sep
          {
          }
        } else if s[0] != sep {
          assert Split(s, sep)[k] == rest[k];
        } else if k > 0 {
          assert Split(s, sep)[k] == rest[k - 1];
        }
      }
    }
  }
}
