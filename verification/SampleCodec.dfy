/**
 A codec that meets what ConfigStore asks of one, and the two ways in which a saved configuration is not
 the one that is read: net/url drops an empty fragment behind a slash, and writes three characters for
 each byte outside ASCII.
 */
module SampleCodec {
  import opened Wrappers
  import opened Text
  import opened Unicode
  import opened ConfigStore

  // ---- The four strings in one file --------------------------------------------------------

  const END: Byte := 0xFF

  function Frame(s: string): Bytes {
    EncodeUtf8(s) + [END]
  }

  function Encode(c: Config): Bytes {
    Frame(c.schema) + (Frame(c.baseURL) + (Frame(c.model) + Frame(c.protocol)))
  }

  function EndOf(b: Bytes): (k: nat)
    ensures k <= |b|
  {
    if b == [] || b[0] == END then 0 else 1 + EndOf(b[1..])
  }

  /** The first string, and what is behind its end mark. */
  function Unframe(b: Bytes): Option<(string, Bytes)> {
    var k := EndOf(b);
    if k == |b| then None
    else
      match DecodeUtf8(b[..k])
      case None => None
      case Some(s) => Some((s, b[k + 1..]))
  }

  function Decode(b: Bytes): Option<Config> {
    match Unframe(b)
    case None => None
    case Some((schema, b1)) =>
      match Unframe(b1)
      case None => None
      case Some((baseURL, b2)) =>
        match Unframe(b2)
        case None => None
        case Some((model, b3)) =>
          match Unframe(b3)
          case None => None
          case Some((protocol, b4)) => if b4 == [] then Some(Config(schema, baseURL, model, protocol)) else None
  }

  lemma {:induction false} EncodedHasNoEnd(s: string)
    ensures END !in EncodeUtf8(s)
    ensures |EncodeUtf8(s)| == Utf8Length(s)
  {
    if s != "" {
      EncodedHasNoEnd(s[1..]);
      LengthOfJoin([s[0]], s[1..]);
      assert [s[0]] + s[1..] == s;
    }
  }

  lemma {:induction false} LengthOfJoin(s: string, t: string)
    ensures Utf8Length(s + t) == Utf8Length(s) + Utf8Length(t)
  {
    if t == "" {
      assert s + t == s;
    } else {
      assert (s + t)[..|s + t| - 1] == s + t[..|t| - 1];
      LengthOfJoin(s, t[..|t| - 1]);
    }
  }

  lemma {:induction false} EndBehind(b: Bytes, rest: Bytes)
    requires END !in b
    ensures EndOf(b + [END] + rest) == |b|
  {
    if b != [] {
      assert (b + [END] + rest)[1..] == b[1..] + [END] + rest;
      EndBehind(b[1..], rest);
    }
  }

  lemma UnframeFramed(s: string, rest: Bytes)
    ensures Unframe(Frame(s) + rest) == Some((s, rest))
  {
    EncodedHasNoEnd(s);
    EndBehind(EncodeUtf8(s), rest);
    DecodeEncoded(s);
    var b := Frame(s) + rest;
    assert b[..|EncodeUtf8(s)|] == EncodeUtf8(s);
    assert b[|EncodeUtf8(s)| + 1..] == rest;
  }

  lemma DecodeEncode(c: Config)
    ensures Decode(Encode(c)) == Some(c)
  {
    UnframeFramed(c.schema, Frame(c.baseURL) + (Frame(c.model) + Frame(c.protocol)));
    UnframeFramed(c.baseURL, Frame(c.model) + Frame(c.protocol));
    UnframeFramed(c.model, Frame(c.protocol));
    UnframeFramed(c.protocol, []);
    assert Frame(c.protocol) + [] == Frame(c.protocol);
  }

  lemma EncodeLength(c: Config)
    ensures |Encode(c)| == Utf8Length(c.schema) + Utf8Length(c.baseURL) + Utf8Length(c.model) + Utf8Length(c.protocol) + 4
  {
    EncodedHasNoEnd(c.schema);
    EncodedHasNoEnd(c.baseURL);
    EncodedHasNoEnd(c.model);
    EncodedHasNoEnd(c.protocol);
  }

  // ---- A few addresses ---------------------------------------------------------------------

  function Times(s: string, n: nat): string {
    if n == 0 then "" else s + Times(s, n - 1)
  }

  const PLAIN := "https://h"
  const SLASH := "https://h/"
  const EMPTY_FRAGMENT := "https://h/#"

  function Accented(n: nat): string {
    SLASH + Times("\U{E9}", n)
  }

  function Escaped(n: nat): string {
    SLASH + Times("%C3%A9", n)
  }

  /** How net/url prints these addresses after parsing them. */
  function Parse(address: string, n: nat): Option<string> {
    if address == PLAIN || address == SLASH || address == Escaped(n) then Some(address)
    else if address == EMPTY_FRAGMENT then Some(SLASH)
    else if address == Accented(n) then Some(Escaped(n))
    else None
  }

  function Sample(n: nat): Codec {
    Codec(a => Parse(a, n), c => Encode(c), b => Decode(b), k => false)
  }

  lemma {:induction false} TimesLength(s: string, n: nat)
    ensures |Times(s, n)| == n * |s| && Utf8Length(Times(s, n)) == n * Utf8Length(s)
  {
    if n > 0 {
      TimesLength(s, n - 1);
      assert n * |s| == (n - 1) * |s| + |s| && n * Utf8Length(s) == (n - 1) * Utf8Length(s) + Utf8Length(s);
      LengthOfJoin(s, Times(s, n - 1));
    }
  }

  lemma {:induction false} TimesEnds(s: string, n: nat)
    requires s != "" && n > 0
    ensures |Times(s, n)| > 0 && Times(s, n)[|Times(s, n)| - 1] == s[|s| - 1]
  {
    if n > 1 {
      TimesEnds(s, n - 1);
    }
  }

  /** Nothing to trim. */
  predicate IsBare(s: string) {
    s != "" && !IsSpace(s[0]) && !IsSpace(s[|s| - 1]) && s[|s| - 1] != '/'
  }

  lemma BareIsTrimmed(s: string)
    requires IsBare(s)
    ensures Trimmed(s) == s
  {
  }

  lemma AddressesTrimmed(n: nat)
    requires n > 0
    ensures Trimmed(PLAIN) == PLAIN && Trimmed(SLASH) == PLAIN && Trimmed(EMPTY_FRAGMENT) == EMPTY_FRAGMENT
    ensures Trimmed(Accented(n)) == Accented(n) && Trimmed(Escaped(n)) == Escaped(n)
  {
    BareIsTrimmed(PLAIN);
    assert SLASH[..|SLASH| - 1] == PLAIN && TrimSpace(SLASH) == SLASH;
    BareIsTrimmed(EMPTY_FRAGMENT);
    TimesEnds("\U{E9}", n);
    BareIsTrimmed(Accented(n));
    TimesEnds("%C3%A9", n);
    BareIsTrimmed(Escaped(n));
  }

  lemma AddressLengths(n: nat)
    requires n > 0
    ensures Utf8Length(SLASH) == 10 && Utf8Length(EMPTY_FRAGMENT) == 11
    ensures Utf8Length(Accented(n)) == 10 + 2 * n && Utf8Length(Escaped(n)) == 10 + 6 * n
    ensures Accented(n) != PLAIN && Accented(n) != SLASH && Accented(n) != EMPTY_FRAGMENT && Accented(n) != Escaped(n)
  {
    AsciiLength(SLASH);
    AsciiLength(EMPTY_FRAGMENT);
    AsciiLength("%C3%A9");
    assert Utf8Length("\U{E9}") == Utf8Length("") + 2;
    TimesLength("\U{E9}", n);
    TimesLength("%C3%A9", n);
    LengthOfJoin(SLASH, Times("\U{E9}", n));
    LengthOfJoin(SLASH, Times("%C3%A9", n));
  }

  lemma {:induction false} AsciiLength(s: string)
    requires forall i :: 0 <= i < |s| ==> s[i] < '\U{80}'
    ensures Utf8Length(s) == |s|
  {
    if s != "" {
      AsciiLength(s[..|s| - 1]);
    }
  }

  lemma ParsedSample(n: nat)
    requires n > 0
    ensures Parse(PLAIN, n) == Some(PLAIN) && Parse(SLASH, n) == Some(SLASH)
    ensures Parse(EMPTY_FRAGMENT, n) == Some(SLASH)
    ensures Parse(Accented(n), n) == Some(Escaped(n)) && Parse(Escaped(n), n) == Some(Escaped(n))
  {
    AddressLengths(n);
    assert EMPTY_FRAGMENT[10] == '#' && |EMPTY_FRAGMENT| == 11 && |SLASH| == 10 && |PLAIN| == 9;
    TimesEnds("%C3%A9", n);
    assert Escaped(n)[|Escaped(n)| - 1] == '9';
  }

  lemma SampleFaithful(n: nat)
    ensures Faithful(Sample(n))
  {
    forall c
      ensures Sample(n).decode(Sample(n).encode(c)) == Some(c)
    {
      DecodeEncode(c);
    }
  }

  lemma ParseSettles(address: string, n: nat)
    requires n > 0 && Parse(address, n).Some?
    ensures var u := Parse(address, n).value;
      u != "" && Parse(Trimmed(u), n) == Some(Trimmed(u))
  {
    ParsedSample(n);
    AddressesTrimmed(n);
    var u := Parse(address, n).value;
    assert u == PLAIN || u == SLASH || u == Escaped(n);
  }

  lemma SampleSettles(n: nat)
    requires n > 0
    ensures Settles(Sample(n))
  {
    forall a | Sample(n).parse(a).Some?
      ensures var u := Sample(n).parse(a).value;
        u != "" && Sample(n).parse(Trimmed(u)) == Some(Trimmed(u))
    {
      ParseSettles(a, n);
    }
  }

  lemma SampleCompact(n: nat)
    ensures Compact(Sample(n))
  {
    forall c: Config | c.schema == SCHEMA && c.protocol in {"auto", "responses", "chat_completions"}
      ensures |Sample(n).encode(c)| <= 6 * (Utf8Length(c.baseURL) + Utf8Length(c.model)) + 1024
    {
      EncodesShort(c);
    }
  }

  lemma EncodesShort(c: Config)
    requires c.schema == SCHEMA && c.protocol in {"auto", "responses", "chat_completions"}
    ensures |Encode(c)| <= Utf8Length(c.baseURL) + Utf8Length(c.model) + 256
  {
    EncodeLength(c);
    assert |c.schema| <= 40 && |c.protocol| <= 16;
  }

  /** The sample is a codec to which the theorems about saved configurations apply. */
  lemma SampleIsLawful(n: nat)
    requires n > 0
    ensures Faithful(Sample(n)) && Settles(Sample(n)) && Compact(Sample(n))
  {
    SampleFaithful(n);
    SampleSettles(n);
    SampleCompact(n);
  }

  // ---- What is lost ------------------------------------------------------------------------

  const MODEL := "m"
  const KEY := "k"

  function Saved(address: string): Config {
    Config(SCHEMA, address, MODEL, "auto")
  }

  /** What is saved for an address, and what the credentials then are. */
  predicate SaveThenRead(codec: Codec, address: string, saved: Config, read: Result<(Config, string), ConfigError>) {
    && Wanted(codec, address, MODEL, "auto", KEY) == Ok(saved)
    && ReadCredentials(codec, Some(codec.encode(saved)), KEY) == read
  }

  lemma PrintedAndRead(codec: Codec, address: string, printed: string)
    requires Faithful(codec) && Settles(codec) && |codec.encode(Saved(printed))| <= MAX_FILE
    requires Utf8Length(Trimmed(address)) <= MAX_BASE_URL && codec.parse(Trimmed(address)) == Some(printed)
    ensures SaveThenRead(codec, address, Saved(printed),
                         if Utf8Length(Trimmed(printed)) > MAX_BASE_URL then Err(ModelInvalid)
                         else Ok((Saved(Trimmed(printed)), KEY)))
  {
    ModelAndKeyAccepted();
    SavedIsReadAs(codec, address, MODEL, "auto", KEY, KEY);
  }

  lemma SampleFits(n: nat, c: Config)
    requires c.schema == SCHEMA && c.protocol == "auto" && Utf8Length(c.model) == 1
    requires Utf8Length(c.baseURL) <= 3 * MAX_BASE_URL
    ensures |Sample(n).encode(c)| <= MAX_FILE
  {
    EncodesShort(c);
  }

  /** An empty fragment hides the slash when saving: the address comes back without it. */
  lemma EmptyFragmentLosesSlash(n: nat)
    requires n > 0
    ensures SaveThenRead(Sample(n), EMPTY_FRAGMENT, Saved(SLASH), Ok((Saved(PLAIN), KEY)))
  {
    AddressesTrimmed(n);
    AddressLengths(n);
    ParsedSample(n);
    AsciiLength(PLAIN);
    SlashLost(n, EMPTY_FRAGMENT, SLASH, PLAIN);
  }

  lemma SlashLost(n: nat, address: string, printed: string, trimmed: string)
    requires n > 0 && Trimmed(address) == address && Parse(address, n) == Some(printed) && Trimmed(printed) == trimmed
    requires Utf8Length(address) <= 11 && Utf8Length(printed) <= 10 && Utf8Length(trimmed) <= 9
    ensures SaveThenRead(Sample(n), address, Saved(printed), Ok((Saved(trimmed), KEY)))
  {
    SampleIsLawful(n);
    ModelAndKeyAccepted();
    SampleFits(n, Saved(printed));
    PrintedAndRead(Sample(n), address, printed);
  }

  /** Printing makes an accepted address too long to be read again: the save succeeds, and nothing can
      be used afterwards. */
  lemma EscapingExceedsLimit(n: nat)
    requires 340 <= n <= 1019
    ensures SaveThenRead(Sample(n), Accented(n), Saved(Escaped(n)), Err(ModelInvalid))
  {
    AddressesTrimmed(n);
    AddressLengths(n);
    SampleIsLawful(n);
    ParsedSample(n);
    ModelAndKeyAccepted();
    SampleFits(n, Saved(Escaped(n)));
    PrintedAndRead(Sample(n), Accented(n), Escaped(n));
  }

  lemma ModelAndKeyAccepted()
    ensures TrimSpace(MODEL) == MODEL && Utf8Length(MODEL) == 1 && !ContainsAny(MODEL, {'\r', '\n', '\0'})
    ensures ValidApiKey(KEY) && ValidateProtocol("auto") == Ok("auto")
  {
    AsciiLength(MODEL);
    AsciiLength(KEY);
    assert TrimSpace("auto") == "auto";
  }
}
