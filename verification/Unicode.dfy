/**
 UTF-8 (section 3 of RFC 3629) and UTF-16 (section 2 of RFC 2781) over the scalar values that a
 Dafny `char` stands for, decoded as Go's unicode/utf8 and unicode/utf16 packages do.
 */
module Unicode {
  import opened Wrappers
  import opened Text

  // ---- UTF-8 -----------------------------------------------------------------------------

  function EncodeChar(c: char): (b: Bytes)
    ensures |b| == Utf8Width(c)
    ensures 0 in b <==> c == '\0'
  {
    var n := c as int;
    if n < 0x80 then [n]
    else if n < 0x800 then [0xC0 + n / 64, 0x80 + n % 64]
    else if n < 0x1_0000 then [0xE0 + n / 4096, 0x80 + n / 64 % 64, 0x80 + n % 64]
    else [0xF0 + n / 262144, 0x80 + n / 4096 % 64, 0x80 + n / 64 % 64, 0x80 + n % 64]
  }

  function EncodeUtf8(s: string): Bytes {
    if s == "" then [] else EncodeChar(s[0]) + EncodeUtf8(s[1..])
  }

  predicate IsTail(b: Byte) {
    0x80 <= b < 0xC0
  }

  predicate IsScalar(n: int) {
    0 <= n < 0xD800 || 0xE000 <= n < 0x11_0000
  }

  function Join2(a: int, b: int): int {
    a * 64 + b
  }

  function Join3(a: int, b: int, c: int): int {
    a * 4096 + b * 64 + c
  }

  function Join4(a: int, b: int, c: int, d: int): int {
    a * 262144 + b * 4096 + c * 64 + d
  }

  /** The scalar value a byte sequence starts with and how many bytes it takes; shortest forms only. */
  function FirstChar(b: Bytes): Option<(char, nat)> {
    if b == [] then None
    else if b[0] < 0x80 then Some((b[0] as char, 1))
    else if 0xC0 <= b[0] < 0xE0 then
      if |b| < 2 || !IsTail(b[1]) then None
      else
        var n := Join2(b[0] - 0xC0, b[1] - 0x80);
        if n < 0x80 then None else Some((n as char, 2))
    else if 0xE0 <= b[0] < 0xF0 then
      if |b| < 3 || !IsTail(b[1]) || !IsTail(b[2]) then None
      else
        var n := Join3(b[0] - 0xE0, b[1] - 0x80, b[2] - 0x80);
        if n < 0x800 || !IsScalar(n) then None else Some((n as char, 3))
    else if 0xF0 <= b[0] < 0xF8 then
      if |b| < 4 || !IsTail(b[1]) || !IsTail(b[2]) || !IsTail(b[3]) then None
      else
        var n := Join4(b[0] - 0xF0, b[1] - 0x80, b[2] - 0x80, b[3] - 0x80);
        if n < 0x1_0000 || !IsScalar(n) then None else Some((n as char, 4))
    else None
  }

  lemma FirstIsWithin(b: Bytes)
    requires FirstChar(b).Some?
    ensures 1 <= FirstChar(b).value.1 <= |b|
  {
  }

  function DecodeUtf8(b: Bytes): Option<string> {
    if b == [] then Some("")
    else
      var first := FirstChar(b);
      if first.None? then None
      else
        FirstIsWithin(b);
        var rest := DecodeUtf8(b[first.value.1..]);
        if rest.None? then None else Some([first.value.0] + rest.value)
  }

  lemma TwoBytes(n: int)
    requires 0x80 <= n < 0x800
    ensures 2 <= n / 64 < 32 && n == Join2(n / 64, n % 64)
  {
  }

  lemma ThreeBytes(n: int)
    requires 0x800 <= n < 0x1_0000
    ensures 0 <= n / 4096 < 16 && 0 <= n / 64 % 64 < 64
    ensures n == Join3(n / 4096, n / 64 % 64, n % 64)
  {
    assert n / 4096 == n / 64 / 64;
  }

  lemma FourBytes(n: int)
    requires 0x1_0000 <= n < 0x11_0000
    ensures 0 <= n / 262144 < 5 && 0 <= n / 4096 % 64 < 64 && 0 <= n / 64 % 64 < 64
    ensures n == Join4(n / 262144, n / 4096 % 64, n / 64 % 64, n % 64)
  {
    assert n / 4096 == n / 64 / 64 && n / 262144 == n / 64 / 64 / 64;
  }

  lemma Split2(a: int, b: int)
    requires 0 <= b < 64
    ensures Join2(a, b) / 64 == a && Join2(a, b) % 64 == b
  {
  }

  lemma Split3(a: int, b: int, c: int)
    requires 0 <= b < 64 && 0 <= c < 64
    ensures Join3(a, b, c) / 4096 == a && Join3(a, b, c) / 64 % 64 == b && Join3(a, b, c) % 64 == c
  {
    Split2(Join2(a, b), c);
    Split2(a, b);
    assert Join3(a, b, c) == Join2(Join2(a, b), c);
    assert Join3(a, b, c) / 4096 == Join3(a, b, c) / 64 / 64;
  }

  lemma Split4(a: int, b: int, c: int, d: int)
    requires 0 <= b < 64 && 0 <= c < 64 && 0 <= d < 64
    ensures Join4(a, b, c, d) / 262144 == a && Join4(a, b, c, d) / 4096 % 64 == b
    ensures Join4(a, b, c, d) / 64 % 64 == c && Join4(a, b, c, d) % 64 == d
  {
    Split2(Join3(a, b, c), d);
    Split3(a, b, c);
    var n := Join4(a, b, c, d);
    assert n == Join2(Join3(a, b, c), d);
    assert n / 4096 == n / 64 / 64 && n / 262144 == n / 64 / 4096;
  }

  lemma FirstOfEncoded(c: char, rest: Bytes)
    ensures FirstChar(EncodeChar(c) + rest) == Some((c, Utf8Width(c)))
  {
    var n := c as int;
    if 0x80 <= n < 0x800 {
      TwoBytes(n);
    } else if 0x800 <= n < 0x1_0000 {
      ThreeBytes(n);
    } else if n >= 0x1_0000 {
      FourBytes(n);
    }
  }

  /** Decoding what was encoded gives it back. */
  lemma {:induction false} DecodeEncoded(s: string)
    ensures DecodeUtf8(EncodeUtf8(s)) == Some(s)
  {
    if s != "" {
      var rest := EncodeUtf8(s[1..]);
      FirstOfEncoded(s[0], rest);
      DecodeEncoded(s[1..]);
      assert (EncodeChar(s[0]) + rest)[Utf8Width(s[0])..] == rest;
      assert s == [s[0]] + s[1..];
    }
  }

  lemma FirstIsCanonical(b: Bytes)
    requires FirstChar(b).Some?
    ensures var (c, n) := FirstChar(b).value; Utf8Width(c) == n <= |b| && EncodeChar(c) == b[..n]
  {
    FirstIsWithin(b);
    if b[0] >= 0xF0 {
      Split4(b[0] - 0xF0, b[1] - 0x80, b[2] - 0x80, b[3] - 0x80);
    } else if b[0] >= 0xE0 {
      Split3(b[0] - 0xE0, b[1] - 0x80, b[2] - 0x80);
    } else if b[0] >= 0x80 {
      Split2(b[0] - 0xC0, b[1] - 0x80);
    }
  }

  /** Only the canonical form decodes. */
  lemma {:induction false} EncodeDecoded(b: Bytes)
    requires DecodeUtf8(b).Some?
    ensures EncodeUtf8(DecodeUtf8(b).value) == b
  {
    if b != [] {
      FirstIsCanonical(b);
      var (c, n) := FirstChar(b).value;
      EncodeDecoded(b[n..]);
      var s := DecodeUtf8(b).value;
      assert s[1..] == DecodeUtf8(b[n..]).value;
      assert b == b[..n] + b[n..];
    }
  }

  lemma {:induction false} NulOnlyFromNul(s: string)
    ensures 0 in EncodeUtf8(s) <==> '\0' in s
  {
    if s != "" {
      NulOnlyFromNul(s[1..]);
      assert s == [s[0]] + s[1..];
    }
  }

  // ---- UTF-16 ----------------------------------------------------------------------------

  type Unit = x: int | 0 <= x < 0x1_0000

  const REPLACEMENT: char := '\U{FFFD}'

  predicate IsHigh(u: int) {
    0xD800 <= u < 0xDC00
  }

  predicate IsLow(u: int) {
    0xDC00 <= u < 0xE000
  }

  function CharUnits(c: char): (u: seq<Unit>)
    ensures 1 <= |u| <= 2
  {
    var n := c as int;
    if n < 0x1_0000 then [n]
    else [0xD800 + (n - 0x1_0000) / 1024, 0xDC00 + (n - 0x1_0000) % 1024]
  }

  function EncodeUtf16(s: string): seq<Unit> {
    if s == "" then [] else CharUnits(s[0]) + EncodeUtf16(s[1..])
  }

  function PairChar(high: int, low: int): char
    requires IsHigh(high) && IsLow(low)
  {
    ((high - 0xD800) * 1024 + (low - 0xDC00) + 0x1_0000) as char
  }

  /** A surrogate without its other half becomes the replacement character. */
  function DecodeUtf16(u: seq<Unit>): string {
    if u == [] then ""
    else if IsHigh(u[0]) && |u| >= 2 && IsLow(u[1]) then
      [PairChar(u[0], u[1])] + DecodeUtf16(u[2..])
    else if IsHigh(u[0]) || IsLow(u[0]) then [REPLACEMENT] + DecodeUtf16(u[1..])
    else [u[0] as char] + DecodeUtf16(u[1..])
  }

  lemma {:induction false} DecodeUnits(s: string)
    ensures DecodeUtf16(EncodeUtf16(s)) == s
  {
    if s != "" {
      var u := CharUnits(s[0]);
      DecodeUnits(s[1..]);
      assert (u + EncodeUtf16(s[1..]))[|u|..] == EncodeUtf16(s[1..]);
      assert s == [s[0]] + s[1..];
    }
  }

  /** Two bytes in, at most three out. */
  lemma {:induction false} Utf16Growth(u: seq<Unit>)
    ensures |EncodeUtf8(DecodeUtf16(u))| <= 3 * |u|
  {
    if u != [] {
      var s := DecodeUtf16(u);
      if IsHigh(u[0]) && |u| >= 2 && IsLow(u[1]) {
        Utf16Growth(u[2..]);
        assert s[1..] == DecodeUtf16(u[2..]);
      } else {
        Utf16Growth(u[1..]);
        assert s[1..] == DecodeUtf16(u[1..]);
      }
    }
  }

  // ---- Bytes of units --------------------------------------------------------------------

  function UnitBytes(u: Unit, little: bool): (b: Bytes)
    ensures |b| == 2
  {
    if little then [u % 256, u / 256] else [u / 256, u % 256]
  }

  function UnitsToBytes(u: seq<Unit>, little: bool): (b: Bytes)
    ensures |b| == 2 * |u|
  {
    if u == [] then [] else UnitBytes(u[0], little) + UnitsToBytes(u[1..], little)
  }

  function UnitAt(b: Bytes, k: nat, little: bool): Unit
    requires 2 * k + 1 < |b|
  {
    var first: int, second: int := b[2 * k], b[2 * k + 1];
    if little then first + 256 * second else 256 * first + second
  }

  function BytesToUnits(b: Bytes, little: bool): (u: seq<Unit>)
    requires |b| % 2 == 0
    ensures |u| == |b| / 2
    ensures forall k :: 0 <= k < |u| ==> u[k] == UnitAt(b, k, little)
  {
    seq(|b| / 2, k requires 0 <= k < |b| / 2 => UnitAt(b, k, little))
  }

  lemma {:induction false} UnitsAt(u: seq<Unit>, little: bool, k: nat)
    requires k < |u|
    ensures UnitAt(UnitsToBytes(u, little), k, little) == u[k]
  {
    var rest := UnitsToBytes(u[1..], little);
    assert UnitsToBytes(u, little) == UnitBytes(u[0], little) + rest;
    if k > 0 {
      UnitsAt(u[1..], little, k - 1);
      assert UnitAt(UnitsToBytes(u, little), k, little) == UnitAt(rest, k - 1, little);
    }
  }

  lemma UnitsOfBytes(u: seq<Unit>, little: bool)
    ensures BytesToUnits(UnitsToBytes(u, little), little) == u
  {
    forall k | 0 <= k < |u|
      ensures BytesToUnits(UnitsToBytes(u, little), little)[k] == u[k]
    {
      UnitsAt(u, little, k);
    }
  }
}
