/** Task Scheduler XML in UTF-8 or UTF-16 brought to UTF-8 (internal/runtime/process_control.go). */
module TaskEncoding {
  import opened Wrappers
  import opened Text
  import opened Unicode

  const MAX_XML_BYTES := 128 * 1024

  const UTF8_BOM: Bytes := [0xEF, 0xBB, 0xBF]

  function Bom16(little: bool): Bytes {
    if little then [0xFF, 0xFE] else [0xFE, 0xFF]
  }

  function StripBom(data: Bytes): Bytes {
    if |data| >= 3 && data[0] == 0xEF && data[1] == 0xBB && data[2] == 0xBF then data[3..] else data
  }

  predicate HasBom16(data: Bytes, little: bool) {
    |data| >= 2 && data[0] == Bom16(little)[0] && data[1] == Bom16(little)[1]
  }

  /** UTF-16 without its mark: two units below 256, the first of them '<'. */
  predicate LooksLike16(data: Bytes, little: bool) {
    |data| >= 4 &&
    (if little then data[1] == 0 && data[3] == 0 && data[0] == '<' as int && data[2] != 0
     else data[0] == 0 && data[2] == 0 && data[1] == '<' as int && data[3] != 0)
  }

  /** UTF-16 bytes as UTF-8; an odd byte count is refused. */
  function Recoded(data: Bytes, little: bool): (r: Option<Bytes>)
    ensures r.Some? ==> 2 * |r.value| <= 3 * |data|
  {
    if |data| % 2 != 0 then None
    else
      Utf16Growth(BytesToUnits(data, little));
      Some(EncodeUtf8(DecodeUtf16(BytesToUnits(data, little))))
  }

  function MarkedStage(data: Bytes): Option<Bytes> {
    if HasBom16(data, true) then Recoded(data[2..], true)
    else if HasBom16(data, false) then Recoded(data[2..], false)
    else Some(data)
  }

  function UnmarkedStage(data: Bytes): Option<Bytes> {
    if LooksLike16(data, true) then Recoded(data, true)
    else if LooksLike16(data, false) then Recoded(data, false)
    else Some(data)
  }

  predicate Plain(data: Bytes) {
    0 !in data && DecodeUtf8(data).Some?
  }

  function Normalized(data: Bytes): Option<Bytes> {
    if data == [] || |data| > MAX_XML_BYTES then None
    else
      var marked := MarkedStage(StripBom(data));
      if marked.None? then None
      else
        var recoded := UnmarkedStage(marked.value);
        if recoded.None? || !Plain(recoded.value) then None else recoded
  }

  // ---- The loops -------------------------------------------------------------------------

  /** Fills a buffer of units from the bytes and decodes it. */
  method Recode(data: Bytes, little: bool) returns (r: Option<Bytes>)
    ensures r == Recoded(data, little)
  {
    if |data| % 2 != 0 {
      return None;
    }
    var units := new Unit[|data| / 2];
    for index := 0 to units.Length
      invariant forall k :: 0 <= k < index ==> units[k] == UnitAt(data, k, little)
    {
      units[index] := UnitAt(data, index, little);
    }
    assert units[..] == BytesToUnits(data, little);
    r := Some(EncodeUtf8(DecodeUtf16(units[..])));
  }

  method RecodeUnmarked(data: Bytes) returns (r: Option<Bytes>)
    ensures r == UnmarkedStage(data)
  {
    if |data| >= 4 && data[1] == 0 && data[3] == 0 && data[0] == '<' as int && data[2] != 0 {
      r := Recode(data, true);
    } else if |data| >= 4 && data[0] == 0 && data[2] == 0 && data[1] == '<' as int && data[3] != 0 {
      r := Recode(data, false);
    } else {
      r := Some(data);
    }
  }

  method RecodeMarked(data: Bytes) returns (r: Option<Bytes>)
    ensures r == MarkedStage(data)
  {
    if |data| >= 2 && ((data[0] == 0xFF && data[1] == 0xFE) || (data[0] == 0xFE && data[1] == 0xFF)) {
      r := Recode(data[2..], data[0] == 0xFF);
    } else {
      r := Some(data);
    }
  }

  method NormalizeScheduledTaskXML(input: Bytes) returns (r: Option<Bytes>)
    ensures r == Normalized(input)
  {
    var data := input;
    if data == [] || |data| > MAX_XML_BYTES {
      return None;
    }
    if |data| >= 3 && data[0] == 0xEF && data[1] == 0xBB && data[2] == 0xBF {
      data := data[3..];
    }
    r := RecodeMarked(data);
    if r.None? {
      return;
    }
    r := RecodeUnmarked(r.value);
    if r.None? {
      return;
    }
    if 0 in r.value || DecodeUtf8(r.value).None? {
      return None;
    }
  }

  // ---- What comes out --------------------------------------------------------------------

  /** Every accepted input yields NUL-free valid UTF-8; each of the two stages grows it by at most a half. */
  lemma AcceptedIsPlain(data: Bytes)
    requires Normalized(data).Some?
    ensures Plain(Normalized(data).value)
    ensures 4 * |Normalized(data).value| <= 9 * |data|
    ensures 0 !in StripBom(data) && !HasBom16(StripBom(data), true) && !HasBom16(StripBom(data), false) ==>
      Normalized(data).value == StripBom(data)
  {
  }

  /** Nothing, and more than the limit, is refused whatever it holds. */
  lemma SizesRefused(data: Bytes)
    requires data == [] || |data| > 128 * 1024
    ensures Normalized(data).None?
  {
  }

  // ---- The encodings of one text agree ---------------------------------------------------

  lemma FirstByte(s: string)
    requires s != ""
    ensures EncodeUtf8(s) != [] && EncodeUtf8(s)[0] < 0xFE
    ensures s[0] != '\U{FEFF}' ==> StripBom(EncodeUtf8(s)) == EncodeUtf8(s)
  {
    var b := EncodeUtf8(s);
    FirstOfEncoded(s[0], EncodeUtf8(s[1..]));
    if |b| >= 3 && b[0] == 0xEF && b[1] == 0xBB && b[2] == 0xBF {
      assert FirstChar(b) == Some(('\U{FEFF}', 3));
    }
  }

  /** NUL-free UTF-8 passes the last two stages as it is. */
  lemma PlainPasses(s: string)
    requires '\0' !in s
    ensures MarkedStage(EncodeUtf8(s)) == Some(EncodeUtf8(s))
    ensures UnmarkedStage(EncodeUtf8(s)) == Some(EncodeUtf8(s))
    ensures Plain(EncodeUtf8(s))
  {
    NulOnlyFromNul(s);
    DecodeEncoded(s);
    if s != "" {
      FirstByte(s);
    }
  }

  lemma Utf8Agrees(s: string)
    requires s != "" && '\0' !in s && s[0] != '\U{FEFF}' && |EncodeUtf8(s)| <= MAX_XML_BYTES
    ensures Normalized(EncodeUtf8(s)) == Some(EncodeUtf8(s))
  {
    FirstByte(s);
    PlainPasses(s);
  }

  lemma Utf8WithBomAgrees(s: string)
    requires '\0' !in s && |EncodeUtf8(s)| + 3 <= MAX_XML_BYTES
    ensures Normalized(UTF8_BOM + EncodeUtf8(s)) == Some(EncodeUtf8(s))
  {
    PlainPasses(s);
    assert StripBom(UTF8_BOM + EncodeUtf8(s)) == EncodeUtf8(s);
  }

  function Utf16Bytes(s: string, little: bool): Bytes {
    UnitsToBytes(EncodeUtf16(s), little)
  }

  lemma RecodedText(s: string, little: bool)
    ensures Recoded(Utf16Bytes(s, little), little) == Some(EncodeUtf8(s))
  {
    UnitsOfBytes(EncodeUtf16(s), little);
    DecodeUnits(s);
  }

  lemma Utf16WithBomAgrees(s: string, little: bool)
    requires '\0' !in s && |Utf16Bytes(s, little)| + 2 <= MAX_XML_BYTES
    ensures Normalized(Bom16(little) + Utf16Bytes(s, little)) == Some(EncodeUtf8(s))
  {
    var data := Bom16(little) + Utf16Bytes(s, little);
    assert data[2..] == Utf16Bytes(s, little);
    RecodedText(s, little);
    PlainPasses(s);
  }

  /** All four marked or unmarked forms of a text come to the same UTF-8. */
  lemma EncodingsAgree(s: string)
    requires s != "" && '\0' !in s && s[0] != '\U{FEFF}'
    requires |EncodeUtf8(s)| + 3 <= MAX_XML_BYTES && |Utf16Bytes(s, true)| + 2 <= MAX_XML_BYTES
    ensures Normalized(EncodeUtf8(s)) == Normalized(UTF8_BOM + EncodeUtf8(s))
         == Normalized(Bom16(true) + Utf16Bytes(s, true)) == Normalized(Bom16(false) + Utf16Bytes(s, false))
         == Some(EncodeUtf8(s))
  {
    Utf8Agrees(s);
    Utf8WithBomAgrees(s);
    Utf16WithBomAgrees(s, true);
    Utf16WithBomAgrees(s, false);
  }

  /** Whether the look of two leading units fits depends on the second being below 256. */
  lemma LooksBySecondUnit(data: Bytes, second: Unit, little: bool)
    requires |data| >= 2 && data[..2] == UnitBytes('<' as int, little)
    requires |data| >= 4 ==> data[2..4] == UnitBytes(second, little) && second != 0
    ensures StripBom(data) == data && !HasBom16(data, true) && !HasBom16(data, false)
    ensures LooksLike16(data, little) <==> |data| >= 4 && second < 256
    ensures !LooksLike16(data, !little) && 0 in data
  {
    assert data[0] == data[..2][0] && data[1] == data[..2][1];
    if |data| >= 4 {
      assert data[2] == data[2..4][0] && data[3] == data[2..4][1];
    }
  }

  lemma FirstUnits(s: string, little: bool)
    requires s != "" && s[0] == '<'
    ensures var data := Utf16Bytes(s, little);
      && |data| >= 2 && data[..2] == UnitBytes('<' as int, little)
      && (|data| >= 4 <==> |s| >= 2)
      && (|s| >= 2 ==> data[2..4] == UnitBytes(CharUnits(s[1])[0], little))
  {
    var v := EncodeUtf16(s[1..]);
    var u, rest := EncodeUtf16(s), UnitsToBytes(v, little);
    assert u == ['<' as int] + v && u[0] == '<' as int && u[1..] == v;
    assert Utf16Bytes(s, little) == UnitBytes(u[0], little) + rest;
    if |s| >= 2 {
      assert v == CharUnits(s[1..][0]) + EncodeUtf16(s[1..][1..]);
      assert v[0] == CharUnits(s[1])[0];
      assert rest == UnitBytes(v[0], little) + UnitsToBytes(v[1..], little);
      assert Utf16Bytes(s, little)[2..4] == rest[..2];
    } else {
      assert s[1..] == "";
    }
  }

  /** UTF-16 of a text that starts with '<' and lacks the mark is read exactly when its second
      character is below U+0100, and refused otherwise. */
  lemma UnmarkedUtf16(s: string, little: bool)
    requires s != "" && s[0] == '<' && '\0' !in s && |Utf16Bytes(s, little)| <= MAX_XML_BYTES
    ensures Normalized(Utf16Bytes(s, little)) ==
      if |s| >= 2 && s[1] < '\U{0100}' then Some(EncodeUtf8(s)) else None
  {
    var data := Utf16Bytes(s, little);
    FirstUnits(s, little);
    if |s| >= 2 {
      LooksBySecondUnit(data, CharUnits(s[1])[0], little);
    } else {
      LooksBySecondUnit(data, 1, little);
    }
    RecodedText(s, little);
    PlainPasses(s);
  }
}
