/**
 The page's reader of the event stream (internal/httpapi/web/index.html, streamAgentRequest):
 bytes in fragments, characters as they become complete, frames as they become complete.
 */
module EventReader {
  import opened Wrappers
  import opened Text
  import opened Unicode
  import Decimal
  import opened EventStream

  // ---- Bytes to characters ---------------------------------------------------------------

  /** The beginning of a character whose other bytes are still to come. */
  predicate Incomplete(b: Bytes) {
    && b != [] && 0xC2 <= b[0] < 0xF5
    && |b| < (if b[0] < 0xE0 then 2 else if b[0] < 0xF0 then 3 else 4)
    && forall i :: 1 <= i < |b| ==> IsTail(b[i])
  }

  /** A streaming decoder's step: the characters that are complete, and the bytes held back. */
  function Decoded(b: Bytes): (string, Bytes) {
    if b == [] then ("", [])
    else
      var first := FirstChar(b);
      if first.Some? then
        FirstIsWithin(b);
        var (rest, held) := Decoded(b[first.value.1..]);
        ([first.value.0] + rest, held)
      else if Incomplete(b) then ("", b)
      else
        var (rest, held) := Decoded(b[1..]);
        ([REPLACEMENT] + rest, held)
  }

  lemma PrefixIsIncomplete(c: char, b: Bytes)
    requires b != [] && b < EncodeChar(c)
    ensures FirstChar(b).None? && Incomplete(b)
  {
    var e := EncodeChar(c);
    assert b[0] == e[0];
    forall i | 1 <= i < |b|
      ensures IsTail(b[i])
    {
      assert b[i] == e[i];
    }
  }

  /** Two ways to cut the same bytes in two. */
  lemma TwoCuts(b: Bytes, rest: Bytes, e: Bytes, tail: Bytes)
    requires b + rest == e + tail
    ensures |b| < |e| ==> b == e[..|b|]
    ensures |b| >= |e| ==> b == e + b[|e|..] && b[|e|..] + rest == tail
  {
    var whole := b + rest;
    if |b| < |e| {
      assert b == whole[..|b|] && e[..|b|] == whole[..|b|];
    } else {
      assert e == whole[..|e|] && b[..|e|] == whole[..|e|];
      assert tail == whole[|e|..] && b[|e|..] + rest == whole[|e|..];
    }
  }

  /** Of a beginning of a text's bytes the decoder gives a beginning of the text, and holds the rest. */
  lemma {:induction false} DecodesPrefix(s: string, b: Bytes, rest: Bytes)
    requires b + rest == EncodeUtf8(s)
    ensures var (text, held) := Decoded(b);
      |text| <= |s| && text == s[..|text|] && held + rest == EncodeUtf8(s[|text|..])
  {
    if b == [] {
      assert s[0..] == s && [] + rest == rest;
    } else {
      assert s != "";
      var e := EncodeChar(s[0]);
      TwoCuts(b, rest, e, EncodeUtf8(s[1..]));
      if |b| < |e| {
        PrefixIsIncomplete(s[0], b);
        assert s[0..] == s;
      } else {
        var more := b[|e|..];
        FirstOfEncoded(s[0], more);
        DecodesPrefix(s[1..], more, rest);
        var (text, held) := Decoded(more);
        assert Decoded(b) == ([s[0]] + text, held);
        assert [s[0]] + text == s[..|text| + 1];
        assert s[1..][|text|..] == s[|text| + 1..];
      }
    }
  }

  // ---- Characters to frames --------------------------------------------------------------

  /** The first blank line: the position of two line feeds, or the length. */
  function Boundary(s: string): (k: nat)
    ensures k <= |s|
    ensures k < |s| ==> k + 1 < |s| && s[k] == '\n' && s[k + 1] == '\n'
  {
    if |s| < 2 then |s|
    else if s[0] == '\n' && s[1] == '\n' then 0
    else 1 + Boundary(s[1..])
  }

  /** The blocks that end at a blank line, and what is left. */
  function Cut(s: string): (seq<string>, string)
    decreases |s|
  {
    var k := Boundary(s);
    if k == |s| then ([], s)
    else
      var (blocks, rest) := Cut(s[k + 2..]);
      ([s[..k]] + blocks, rest)
  }

  lemma {:induction false} BoundaryOfMore(x: string, y: string)
    requires Boundary(x) < |x|
    ensures Boundary(x + y) == Boundary(x)
  {
    if !(x[0] == '\n' && x[1] == '\n') {
      BoundaryOfMore(x[1..], y);
      assert (x + y)[1..] == x[1..] + y;
    }
  }

  type Cutter = string -> (seq<string>, string)

  /** One block and then the rest; said of any cutter, so that none is unfolded. */
  predicate CutsFirst(cut: Cutter, x: string, head: string, rest: string) {
    cut(x) == ([head] + cut(rest).0, cut(rest).1)
  }

  /** Cutting `x` and then going on with `y` is cutting both. */
  predicate CutsOn(cut: Cutter, x: string, y: string) {
    cut(x + y) == (cut(x).0 + cut(cut(x).1 + y).0, cut(cut(x).1 + y).1)
  }

  lemma CutOnce(x: string)
    requires Boundary(x) < |x|
    ensures CutsFirst(Cut, x, x[..Boundary(x)], x[Boundary(x) + 2..])
  {
  }

  lemma CutOnceOfMore(x: string, y: string)
    requires Boundary(x) < |x|
    ensures CutsFirst(Cut, x + y, x[..Boundary(x)], x[Boundary(x) + 2..] + y)
  {
    BoundaryOfMore(x, y);
    SlicesOfMore(x, y, Boundary(x));
    CutOnceAt(x + y, Boundary(x), x[..Boundary(x)], x[Boundary(x) + 2..] + y);
  }

  lemma CutOnceAt(t: string, k: nat, head: string, rest: string)
    requires Boundary(t) == k < |t| && head == t[..k] && rest == t[k + 2..]
    ensures CutsFirst(Cut, t, head, rest)
  {
    CutOnce(t);
  }

  lemma SlicesOfMore(x: string, y: string, k: nat)
    requires k + 2 <= |x|
    ensures (x + y)[..k] == x[..k] && (x + y)[k + 2..] == x[k + 2..] + y
  {
  }

  lemma CutsCompose(cut: Cutter, head: string, x: string, rest: string, y: string)
    requires CutsFirst(cut, x, head, rest) && CutsFirst(cut, x + y, head, rest + y) && CutsOn(cut, rest, y)
    ensures CutsOn(cut, x, y)
  {
    var a, b := cut(rest).0, cut(cut(rest).1 + y).0;
    assert [head] + (a + b) == [head] + a + b;
  }

  lemma CutNone(x: string, y: string)
    requires Boundary(x) == |x|
    ensures CutsOn(Cut, x, y)
  {
    CutNothing(x);
    NothingCut(Cut, x, y);
  }

  lemma CutNothing(x: string)
    requires Boundary(x) == |x|
    ensures Cut(x) == ([], x)
  {
  }

  lemma NothingCut(cut: Cutter, x: string, y: string)
    requires cut(x) == ([], x)
    ensures CutsOn(cut, x, y)
  {
    assert [] + cut(x + y).0 == cut(x + y).0;
  }

  /** Cutting can stop and go on anywhere: fragments do not matter. */
  lemma {:induction false} CutOfMore(x: string, y: string)
    ensures CutsOn(Cut, x, y)
    decreases |x|
  {
    var k := Boundary(x);
    if k == |x| {
      CutNone(x, y);
    } else {
      CutOnce(x);
      CutOnceOfMore(x, y);
      CutOfMore(x[k + 2..], y);
      CutsCompose(Cut, x[..k], x, x[k + 2..], y);
    }
  }

  lemma {:induction false} BoundaryAt(s: string, k: nat)
    requires k + 1 < |s| && s[k] == '\n' && s[k + 1] == '\n'
    requires forall i :: 0 <= i < k ==> s[i] != '\n'
    ensures Boundary(s) == k
  {
    if k > 0 {
      BoundaryAt(s[1..], k - 1);
    }
  }

  // ---- Frames to events ------------------------------------------------------------------

  predicate StartsWithData(line: string) {
    |line| >= 5 && line[..5] == "data:"
  }

  function TrimStart(s: string): string {
    if s != "" && IsSpace(s[0]) then TrimStart(s[1..]) else s
  }

  function DataLines(lines: seq<string>): seq<string> {
    if lines == [] then []
    else (if StartsWithData(lines[0]) then [TrimStart(lines[0][5..])] else []) + DataLines(lines[1..])
  }

  function DataOf(block: string): string {
    var lines := DataLines(Decimal.Split(block, '\n'));
    if lines == [] then "" else Decimal.Join(lines, '\n')
  }

  datatype Failure = NotJson | Reported(message: string) | Interrupted

  /** Where the page is: bytes and characters not yet used, events handed on, and how it ended. */
  datatype Reader = Reader(held: Bytes, buffer: string, delivered: seq<Event>, finished: bool, failure: Option<Failure>)

  const OPENING := Reader([], "", [], false, None)

  /** One block; an exception leaves the rest unread. */
  function Consume(json: Json, r: Reader, block: string): Reader {
    var data := DataOf(block);
    if r.failure.Some? || data == "" then r
    else
      match json.decode(data)
      case None => r.(failure := Some(NotJson))
      case Some(e) =>
        if e.kind == "error" then r.(failure := Some(Reported(e.text)))
        else r.(delivered := r.delivered + [e], finished := r.finished || e.kind == "done")
  }

  function ConsumeAll(json: Json, r: Reader, blocks: seq<string>): Reader
    decreases |blocks|
  {
    if blocks == [] then r else ConsumeAll(json, Consume(json, r, blocks[0]), blocks[1..])
  }

  /** CRLF is read as LF within a piece of text. */
  function LineFeeds(s: string): string
    decreases |s|
  {
    if s == "" then ""
    else if |s| >= 2 && s[0] == '\r' && s[1] == '\n' then "\n" + LineFeeds(s[2..])
    else [s[0]] + LineFeeds(s[1..])
  }

  /** Every block there is in the buffer. */
  function Drain(json: Json, cut: Cutter, r: Reader): Reader {
    ConsumeAll(json, r.(buffer := cut(r.buffer).1), cut(r.buffer).0)
  }

  function Take(json: Json, r: Reader, text: string): Reader {
    Drain(json, Cut, r.(buffer := r.buffer + LineFeeds(text)))
  }

  /** A fragment of bytes; with `last`, bytes still held back become a replacement character. */
  function Feed(json: Json, r: Reader, chunk: Bytes, last: bool): Reader {
    if r.failure.Some? then r
    else
      var (text, held) := Decoded(r.held + chunk);
      if last then Take(json, r.(held := []), if held == [] then text else text + [REPLACEMENT])
      else Take(json, r.(held := held), text)
  }

  function FeedAll(json: Json, r: Reader, chunks: seq<Bytes>): Reader
    decreases |chunks|
  {
    if chunks == [] then r else FeedAll(json, Feed(json, r, chunks[0], false), chunks[1..])
  }

  function Finish(json: Json, r: Reader): Reader {
    var last := if TrimSpace(r.buffer) != "" then Consume(json, r, r.buffer) else r;
    if last.failure.None? && !last.finished then last.(failure := Some(Interrupted)) else last
  }

  function ReadStream(json: Json, chunks: seq<Bytes>): Reader {
    Finish(json, Feed(json, FeedAll(json, OPENING, chunks), [], true))
  }

  // ---- What the page makes of the server's stream ----------------------------------------

  function Blocks(json: Json, events: seq<Event>): seq<string> {
    if events == [] then [] else ["data: " + json.encode(events[0])] + Blocks(json, events[1..])
  }

  lemma FrameFirst(cut: Cutter, s: string, block: string, rest: string, blocks: seq<string>)
    requires CutsFirst(cut, s, block, rest) && cut(rest) == (blocks, "")
    ensures cut(s) == ([block] + blocks, "")
  {
  }

  lemma {:induction false} CutStream(json: Json, events: seq<Event>)
    requires AllWellEncoded(json, events)
    ensures Cut(Stream(json, events)) == (Blocks(json, events), "")
  {
    if events != [] {
      var block, rest := "data: " + json.encode(events[0]), Stream(json, events[1..]);
      CutStream(json, events[1..]);
      assert WellEncoded(json, events[0]);
      CutFrame(block, rest);
      FrameIsFirst(json, events, block, rest);
      FrameFirst(Cut, Stream(json, events), block, rest, Blocks(json, events[1..]));
    }
  }

  lemma FrameIsFirst(json: Json, events: seq<Event>, block: string, rest: string)
    requires events != [] && block == "data: " + json.encode(events[0]) && rest == Stream(json, events[1..])
    ensures Stream(json, events) == block + "\n\n" + rest
  {
  }

  lemma CutFrame(block: string, rest: string)
    requires NoLineEnds(block)
    ensures Cut(block + "\n\n" + rest) == ([block] + Cut(rest).0, Cut(rest).1)
  {
    var s := block + "\n\n" + rest;
    BoundaryAt(s, |block|);
    CutOnce(s);
    assert s[..|block|] == block && s[|block| + 2..] == rest;
  }

  lemma DataOfBlock(json: Json, e: Event)
    requires WellEncoded(json, e)
    ensures DataOf("data: " + json.encode(e)) == json.encode(e)
  {
    var j := json.encode(e);
    var block := "data: " + j;
    Decimal.SplitWhole(block, '\n');
    assert block[..5] == "data:" && block[5..] == " " + j;
    assert (" " + j)[1..] == j && TrimStart(j) == j && TrimStart(" " + j) == j;
    OneDataLine(block, j);
  }

  lemma OneDataLine(block: string, data: string)
    requires StartsWithData(block) && TrimStart(block[5..]) == data
    ensures DataLines([block]) == [data] && Decimal.Join([data], '\n') == data
  {
    assert [block][1..] == [] && [data] + DataLines([]) == [data];
  }

  /** What the events amount to: handed on in order up to an error. */
  function Heard(r: Reader, events: seq<Event>): Reader
    decreases |events|
  {
    if events == [] || r.failure.Some? then r
    else if events[0].kind == "error" then r.(failure := Some(Reported(events[0].text)))
    else
      Heard(r.(delivered := r.delivered + [events[0]], finished := r.finished || events[0].kind == "done"), events[1..])
  }

  lemma {:induction false} ConsumeBlocks(json: Json, r: Reader, events: seq<Event>)
    requires AllWellEncoded(json, events)
    ensures ConsumeAll(json, r, Blocks(json, events)) == Heard(r, events)
    decreases |events|
  {
    if events != [] {
      var e := events[0];
      assert WellEncoded(json, e);
      DataOfBlock(json, e);
      var blocks := Blocks(json, events);
      assert blocks[1..] == Blocks(json, events[1..]);
      ConsumeBlocks(json, Consume(json, r, blocks[0]), events[1..]);
    }
  }

  // ---- Any fragmentation -----------------------------------------------------------------

  type Consumer = (Reader, seq<string>) -> Reader

  /** One block and then the others; said of any reading, so that none is unfolded. */
  lemma OneThenOthers(all: Consumer, r: Reader, next: Reader, a: seq<string>, b: seq<string>)
    requires a != [] && all(r, a) == all(next, a[1..]) && all(r, a + b) == all(next, (a + b)[1..])
    requires all(next, a[1..] + b) == all(all(next, a[1..]), b)
    ensures all(r, a + b) == all(all(r, a), b)
  {
    assert (a + b)[1..] == a[1..] + b;
  }

  lemma ConsumeOne(json: Json, r: Reader, blocks: seq<string>)
    requires blocks != []
    ensures ConsumeAll(json, r, blocks) == ConsumeAll(json, Consume(json, r, blocks[0]), blocks[1..])
  {
  }

  lemma {:induction false} ConsumeAppend(json: Json, r: Reader, a: seq<string>, b: seq<string>)
    ensures ConsumeAll(json, r, a + b) == ConsumeAll(json, ConsumeAll(json, r, a), b)
    decreases |a|
  {
    if a == [] {
      assert [] + b == b;
    } else {
      var next := Consume(json, r, a[0]);
      ConsumeAppend(json, next, a[1..], b);
      ConsumeOne(json, r, a);
      ConsumeOne(json, r, a + b);
      OneThenOthers((r, blocks) => ConsumeAll(json, r, blocks), r, next, a, b);
    }
  }

  /** What the page hands on does not depend on the bytes and characters it has not used. */
  predicate SameSoFar(r: Reader, q: Reader) {
    r.delivered == q.delivered && r.finished == q.finished && r.failure == q.failure
  }

  lemma {:induction false} ConsumeSame(json: Json, r: Reader, q: Reader, blocks: seq<string>)
    requires SameSoFar(r, q)
    ensures SameSoFar(ConsumeAll(json, r, blocks), ConsumeAll(json, q, blocks))
    ensures ConsumeAll(json, r, blocks).buffer == r.buffer && ConsumeAll(json, r, blocks).held == r.held
    decreases |blocks|
  {
    if blocks != [] {
      OneSame(json, r, q, blocks[0]);
      ConsumeSame(json, Consume(json, r, blocks[0]), Consume(json, q, blocks[0]), blocks[1..]);
    }
  }

  lemma OneSame(json: Json, r: Reader, q: Reader, block: string)
    requires SameSoFar(r, q)
    ensures SameSoFar(Consume(json, r, block), Consume(json, q, block))
    ensures Consume(json, r, block).buffer == r.buffer && Consume(json, r, block).held == r.held
  {
  }

  lemma {:induction false} FailedIsFinal(json: Json, r: Reader, blocks: seq<string>)
    requires r.failure.Some?
    ensures ConsumeAll(json, r, blocks) == r
    decreases |blocks|
  {
    if blocks != [] {
      FailedIsFinal(json, r, blocks[1..]);
    }
  }

  lemma {:induction false} LineFeedsOfNone(s: string)
    requires '\r' !in s
    ensures LineFeeds(s) == s
  {
    if s != "" {
      LineFeedsOfNone(s[1..]);
      assert s == [s[0]] + s[1..];
    }
  }

  ghost predicate Composes(cut: Cutter) {
    forall x, y :: CutsOn(cut, x, y)
  }

  /** The page has used the first `k` characters of `s`, and `rest` is still on its way. */
  predicate Tracks(json: Json, cut: Cutter, s: string, r: Reader, k: nat, rest: Bytes) {
    && k <= |s| && SameSoFar(r, ConsumeAll(json, OPENING, cut(s[..k]).0))
    && (r.failure.None? ==> r.buffer == cut(s[..k]).1 && r.held + rest == EncodeUtf8(s[k..]))
  }

  lemma CutComposes()
    ensures Composes(Cut)
  {
    forall x, y
      ensures CutsOn(Cut, x, y)
    {
      CutOfMore(x, y);
    }
  }

  lemma ConsumeStep(json: Json, r: Reader, first: seq<string>, second: seq<string>, rest: string)
    requires SameSoFar(r, ConsumeAll(json, OPENING, first))
    ensures var v := ConsumeAll(json, r.(buffer := rest), second);
      SameSoFar(v, ConsumeAll(json, OPENING, first + second)) && v.buffer == rest && v.held == r.held
  {
    ConsumeAppend(json, OPENING, first, second);
    ConsumeSame(json, r.(buffer := rest), ConsumeAll(json, OPENING, first), second);
  }

  /** What the page makes of one more piece of text. */
  function Taken(json: Json, cut: Cutter, r: Reader, text: string): Reader {
    Drain(json, cut, r.(buffer := r.buffer + text))
  }

  lemma TakeIsTaken(json: Json, r: Reader, text: string)
    requires '\r' !in text
    ensures Take(json, r, text) == Taken(json, Cut, r, text)
  {
    LineFeedsOfNone(text);
  }

  lemma TakenTracks(json: Json, cut: Cutter, s: string, r: Reader, k: nat, text: string, rest: Bytes)
    requires Composes(cut) && k + |text| <= |s| && text == s[k..k + |text|]
    requires SameSoFar(r, ConsumeAll(json, OPENING, cut(s[..k]).0)) && r.buffer == cut(s[..k]).1
    requires r.held + rest == EncodeUtf8(s[k + |text|..])
    ensures Tracks(json, cut, s, Taken(json, cut, r, text), k + |text|, rest)
    ensures Taken(json, cut, r, text).buffer == cut(s[..k + |text|]).1
    ensures Taken(json, cut, r, text).held == r.held
  {
    assert s[..k] + text == s[..k + |text|];
    var (blocks, left) := cut(r.buffer + text);
    assert CutsOn(cut, s[..k], text);
    ConsumeStep(json, r, cut(s[..k]).0, blocks, left);
  }

  lemma DecodesOn(s: string, k: nat, before: Bytes, chunk: Bytes, rest: Bytes)
    requires k <= |s| && before + (chunk + rest) == EncodeUtf8(s[k..])
    ensures var (text, held) := Decoded(before + chunk);
      k + |text| <= |s| && text == s[k..k + |text|] && held + rest == EncodeUtf8(s[k + |text|..])
  {
    BytesGrouped(before, chunk, rest);
    DecodesPrefix(s[k..], before + chunk, rest);
    GoesOnFrom(Decoded(before + chunk), EncodeUtf8, s, k, rest);
  }

  lemma GoesOnFrom(decoded: (string, Bytes), encode: string -> Bytes, s: string, k: nat, rest: Bytes)
    requires k <= |s| && |decoded.0| <= |s[k..]| && decoded.0 == s[k..][..|decoded.0|]
    requires decoded.1 + rest == encode(s[k..][|decoded.0|..])
    ensures k + |decoded.0| <= |s| && decoded.0 == s[k..k + |decoded.0|]
    ensures decoded.1 + rest == encode(s[k + |decoded.0|..])
  {
    SlicesFrom(s, k, |decoded.0|);
  }

  lemma BytesGrouped(x: Bytes, y: Bytes, z: Bytes)
    ensures x + (y + z) == x + y + z
  {
  }

  lemma SlicesFrom(s: string, k: nat, n: nat)
    requires k + n <= |s|
    ensures s[k..][n..] == s[k + n..] && s[k..][..n] == s[k..k + n]
  {
  }

  lemma FeedIsTaken(json: Json, r: Reader, chunk: Bytes)
    requires r.failure.None? && '\r' !in Decoded(r.held + chunk).0
    ensures Feed(json, r, chunk, false) ==
      Taken(json, Cut, r.(held := Decoded(r.held + chunk).1), Decoded(r.held + chunk).0)
  {
    TakeIsTaken(json, r.(held := Decoded(r.held + chunk).1), Decoded(r.held + chunk).0);
  }

  lemma FeedTracks(json: Json, s: string, r: Reader, k: nat, chunk: Bytes, rest: Bytes) returns (m: nat)
    requires Tracks(json, Cut, s, r, k, chunk + rest) && '\r' !in s
    ensures Tracks(json, Cut, s, Feed(json, r, chunk, false), m, rest)
  {
    if r.failure.Some? {
      m := k;
    } else {
      var (text, held) := Decoded(r.held + chunk);
      DecodesOn(s, k, r.held, chunk, rest);
      m := k + |text|;
      CutComposes();
      TakenTracks(json, Cut, s, r.(held := held), k, text, rest);
      FeedIsTaken(json, r, chunk);
    }
  }

  function Concat(chunks: seq<Bytes>): Bytes {
    if chunks == [] then [] else chunks[0] + Concat(chunks[1..])
  }

  lemma {:induction false} FeedAllTracks(json: Json, s: string, r: Reader, k: nat, chunks: seq<Bytes>, rest: Bytes)
    returns (m: nat)
    requires Tracks(json, Cut, s, r, k, Concat(chunks) + rest) && '\r' !in s
    ensures Tracks(json, Cut, s, FeedAll(json, r, chunks), m, rest)
    decreases |chunks|
  {
    if chunks == [] {
      m := k;
      assert [] + rest == rest;
    } else {
      assert Concat(chunks) + rest == chunks[0] + (Concat(chunks[1..]) + rest);
      var next := FeedTracks(json, s, r, k, chunks[0], Concat(chunks[1..]) + rest);
      m := FeedAllTracks(json, s, Feed(json, r, chunks[0], false), next, chunks[1..], rest);
    }
  }

  lemma {:induction false} NothingHeldAtTheEnd(s: string)
    ensures Decoded(EncodeUtf8(s)) == (s, [])
  {
    if s != "" {
      var e, tail := EncodeChar(s[0]), EncodeUtf8(s[1..]);
      FirstOfEncoded(s[0], tail);
      NothingHeldAtTheEnd(s[1..]);
      assert (e + tail)[|e|..] == tail;
      assert [s[0]] + s[1..] == s;
    }
  }

  /** When all bytes have come, none are held back and every character has been used. */
  lemma LastFeedTracks(json: Json, s: string, r: Reader, k: nat)
    requires Tracks(json, Cut, s, r, k, []) && '\r' !in s && r.failure.None?
    ensures var v := Feed(json, r, [], true);
      SameSoFar(v, ConsumeAll(json, OPENING, Cut(s).0)) && v.buffer == Cut(s).1 && v.held == []
  {
    assert r.held + [] == r.held;
    NothingHeldAtTheEnd(s[k..]);
    var text := s[k..];
    assert s[k..k + |text|] == text && s[..k + |text|] == s;
    CutComposes();
    assert s[|s|..] == "" && [] + [] == EncodeUtf8("");
    TakenTracks(json, Cut, s, r.(held := []), k, text, []);
    TakeIsTaken(json, r.(held := []), text);
  }

  lemma {:induction false} StreamHasNoReturns(json: Json, events: seq<Event>)
    requires AllWellEncoded(json, events)
    ensures '\r' !in Stream(json, events)
  {
    if events != [] {
      StreamHasNoReturns(json, events[1..]);
      assert WellEncoded(json, events[0]);
    }
  }

  lemma {:induction false} BlocksOfPrefix(json: Json, events: seq<Event>, n: nat)
    requires n <= |events|
    ensures |Blocks(json, events)| == |events| && Blocks(json, events)[..n] == Blocks(json, events[..n])
  {
    if n > 0 {
      BlocksOfPrefix(json, events[1..], n - 1);
      assert events[..n][1..] == events[1..][..n - 1];
    } else if events != [] {
      BlocksOfPrefix(json, events[1..], 0);
    }
  }

  /** At every moment, however the bytes so far were cut, the page has handed on exactly the first few
      events, in order. */
  lemma EveryMoment(json: Json, events: seq<Event>, chunks: seq<Bytes>, rest: Bytes) returns (n: nat)
    requires AllWellEncoded(json, events) && Concat(chunks) + rest == EncodeUtf8(Stream(json, events))
    ensures n <= |events| && SameSoFar(FeedAll(json, OPENING, chunks), Heard(OPENING, events[..n]))
  {
    var s := Stream(json, events);
    StreamHasNoReturns(json, events);
    var k := StartTracks(json, s, chunks, rest);
    n := UsedBlocks(json, events, k);
    forall i | 0 <= i < n
      ensures WellEncoded(json, events[..n][i])
    {
      assert WellEncoded(json, events[i]);
    }
    ConsumeBlocks(json, OPENING, events[..n]);
  }

  lemma StartTracks(json: Json, s: string, chunks: seq<Bytes>, rest: Bytes) returns (k: nat)
    requires '\r' !in s && Concat(chunks) + rest == EncodeUtf8(s)
    ensures Tracks(json, Cut, s, FeedAll(json, OPENING, chunks), k, rest)
  {
    assert s[..0] == "" && s[0..] == s && Cut("") == ([], "");
    assert [] + (Concat(chunks) + rest) == Concat(chunks) + rest;
    k := FeedAllTracks(json, s, OPENING, 0, chunks, rest);
  }

  /** The blocks cut from a beginning of the stream are those of a beginning of the events. */
  lemma UsedBlocks(json: Json, events: seq<Event>, k: nat) returns (n: nat)
    requires AllWellEncoded(json, events) && k <= |Stream(json, events)|
    ensures n <= |events| && Cut(Stream(json, events)[..k]).0 == Blocks(json, events[..n])
  {
    var s := Stream(json, events);
    var used := Cut(s[..k]).0;
    n := |used|;
    CutStream(json, events);
    CutOfMore(s[..k], s[k..]);
    assert s[..k] + s[k..] == s;
    BlocksOfPrefix(json, events, 0);
    assert used == Blocks(json, events)[..n];
    BlocksOfPrefix(json, events, n);
  }

  /** After an exception the rest of the stream changes nothing. */
  lemma FailedAlready(json: Json, cut: Cutter, s: string, k: nat, r: Reader)
    requires Composes(cut) && k <= |s| && SameSoFar(r, ConsumeAll(json, OPENING, cut(s[..k]).0)) && r.failure.Some?
    ensures SameSoFar(r, ConsumeAll(json, OPENING, cut(s).0))
  {
    var (first, left) := cut(s[..k]);
    assert CutsOn(cut, s[..k], s[k..]) && s[..k] + s[k..] == s;
    FailedStays(json, OPENING, first, cut(left + s[k..]).0, r);
  }

  lemma FailedStays(json: Json, start: Reader, first: seq<string>, second: seq<string>, r: Reader)
    requires SameSoFar(r, ConsumeAll(json, start, first)) && r.failure.Some?
    ensures SameSoFar(r, ConsumeAll(json, start, first + second))
  {
    ConsumeAppend(json, start, first, second);
    FailedIsFinal(json, ConsumeAll(json, start, first), second);
  }

  /** Under every fragmentation of all the bytes the page ends with what the events amount to, with
      nothing left over; only a stream without an error or a done is reported as interrupted. */
  lemma EveryFragmentation(json: Json, events: seq<Event>, chunks: seq<Bytes>)
    requires AllWellEncoded(json, events) && Concat(chunks) == EncodeUtf8(Stream(json, events))
    ensures var r, heard := ReadStream(json, chunks), Heard(OPENING, events);
      && r.delivered == heard.delivered && r.finished == heard.finished
      && r.failure == (if heard.failure.None? && !heard.finished then Some(Interrupted) else heard.failure)
      && (heard.failure.None? ==> r.buffer == "" && r.held == [])
  {
    var s := Stream(json, events);
    StreamHasNoReturns(json, events);
    assert Concat(chunks) + [] == Concat(chunks);
    var k := StartTracks(json, s, chunks, []);
    var r := FeedAll(json, OPENING, chunks);
    CutStream(json, events);
    ConsumeBlocks(json, OPENING, events);
    if r.failure.None? {
      LastFeedTracks(json, s, r, k);
      assert TrimSpace("") == "";
    } else {
      CutComposes();
      FailedAlready(json, Cut, s, k, r);
    }
  }

  // ---- A whole answer --------------------------------------------------------------------

  predicate NoErrors(events: seq<Event>) {
    forall i :: 0 <= i < |events| ==> events[i].kind != "error"
  }

  lemma {:induction false} HeardWithoutErrors(r: Reader, events: seq<Event>)
    requires NoErrors(events) && r.failure.None?
    ensures Heard(r, events).delivered == r.delivered + events && Heard(r, events).failure.None?
    ensures r.finished || (events != [] && events[|events| - 1].kind == "done") ==> Heard(r, events).finished
    decreases |events|
  {
    if events != [] {
      HeardWithoutErrors(
        r.(delivered := r.delivered + [events[0]], finished := r.finished || events[0].kind == "done"), events[1..]);
      assert r.delivered + [events[0]] + events[1..] == r.delivered + events;
    }
  }

  /** The reply the page shows: its pieces in the order they came. */
  function Shown(events: seq<Event>): string {
    if events == [] then "" else Piece(events[0]) + Shown(events[1..])
  }

  function Piece(e: Event): string {
    if e.kind == "reply_delta" then e.text else ""
  }

  lemma Grouped(x: string, y: string, z: string)
    ensures x + (y + z) == x + y + z
  {
  }

  lemma {:induction false} ShownAppend(a: seq<Event>, b: seq<Event>)
    ensures Shown(a + b) == Shown(a) + Shown(b)
  {
    if a == [] {
      assert [] + b == b;
    } else {
      ShownAppend(a[1..], b);
      assert (a + b)[0] == a[0] && (a + b)[1..] == a[1..] + b;
      Grouped(Piece(a[0]), Shown(a[1..]), Shown(b));
    }
  }

  lemma {:induction false} ShownOfDeltas(deltas: seq<Event>)
    requires forall i :: 0 <= i < |deltas| ==> deltas[i].kind == "reply_delta"
    ensures Shown(deltas) == TextOf(deltas)
  {
    if deltas != [] {
      ShownOfDeltas(deltas[1..]);
    }
  }

  lemma {:induction false} ShownOfOthers(events: seq<Event>)
    requires forall i :: 0 <= i < |events| ==> events[i].kind != "reply_delta"
    ensures Shown(events) == ""
  {
    if events != [] {
      ShownOfOthers(events[1..]);
    }
  }

  predicate IsTurn(events: seq<Event>) {
    forall i :: 0 <= i < |events| ==> events[i].kind != "error" && events[i].kind != "reply_delta"
  }

  predicate AreDeltas(events: seq<Event>) {
    forall i :: 0 <= i < |events| ==> events[i].kind == "reply_delta"
  }

  /** From the server's script for an answer to the page, through any fragmentation: every event is
      handed on in order, nothing fails, nothing is left over, and the text shown is the pieces' text. */
  lemma AnswerArrives(json: Json, turn: seq<Event>, reply: string, rest: string, deltas: seq<Event>, chunks: seq<Bytes>)
    requires IsTurn(turn) && AreDeltas(deltas) && (reply == "" ==> deltas == [])
    requires var script := Script(turn, Answered(reply, rest), deltas);
      AllWellEncoded(json, script) && Concat(chunks) == EncodeUtf8(Stream(json, script))
    ensures var r, script := ReadStream(json, chunks), Script(turn, Answered(reply, rest), deltas);
      && r.delivered == script && r.failure == None && r.finished && r.buffer == "" && r.held == []
      && Shown(r.delivered) == TextOf(deltas)
  {
    var script := Script(turn, Answered(reply, rest), deltas);
    EveryFragmentation(json, script, chunks);
    ScriptIsWhole(turn, reply, rest, deltas);
    assert NoErrors(script) && script[|script| - 1].kind == "done";
    HeardWithoutErrors(OPENING, script);
    assert [] + script == script;
    ShownOfScript(turn, reply, rest, deltas);
  }

  /** A run that fails arrives as its turn's events and then the failure the server named. */
  lemma FailureArrives(json: Json, turn: seq<Event>, message: string, chunks: seq<Bytes>)
    requires IsTurn(turn)
    requires var script := Script(turn, Failed(message), []);
      AllWellEncoded(json, script) && Concat(chunks) == EncodeUtf8(Stream(json, script))
    ensures var r := ReadStream(json, chunks);
      r.delivered == turn && r.failure == Some(Reported(message))
  {
    var script := turn + [Event("error", message)];
    assert Script(turn, Failed(message), []) == script;
    EveryFragmentation(json, script, chunks);
    HeardAppend(OPENING, turn, [Event("error", message)]);
    HeardWithoutErrors(OPENING, turn);
    assert [] + turn == turn;
  }

  /** A stream that ends without "done" and without an error is told to the user as interrupted. */
  lemma InterruptionIsTold(json: Json, events: seq<Event>, chunks: seq<Bytes>)
    requires NoErrors(events) && forall i :: 0 <= i < |events| ==> events[i].kind != "done"
    requires AllWellEncoded(json, events) && Concat(chunks) == EncodeUtf8(Stream(json, events))
    ensures var r := ReadStream(json, chunks);
      r.delivered == events && !r.finished && r.failure == Some(Interrupted)
  {
    EveryFragmentation(json, events, chunks);
    HeardWithoutErrors(OPENING, events);
    HeardUnfinished(OPENING, events);
    assert [] + events == events;
  }

  lemma {:induction false} NoBoundary(s: string)
    requires '\n' !in s
    ensures Boundary(s) == |s|
  {
    if s != "" {
      NoBoundary(s[1..]);
    }
  }

  /** A stream cut off before the blank line of its last frame still counts that frame. */
  lemma UnfinishedBlockCounts(json: Json, events: seq<Event>, e: Event, chunks: seq<Bytes>)
    requires NoErrors(events) && e.kind != "error" && AllWellEncoded(json, events) && WellEncoded(json, e)
    requires Concat(chunks) == EncodeUtf8(Stream(json, events) + ("data: " + json.encode(e)))
    ensures ReadStream(json, chunks).delivered == events + [e]
  {
    var before, tail := Stream(json, events), "data: " + json.encode(e);
    var s := before + tail;
    StreamHasNoReturns(json, events);
    CutWithTail(json, events, tail);
    assert Concat(chunks) + [] == Concat(chunks);
    var k := StartTracks(json, s, chunks, []);
    ConsumeBlocks(json, OPENING, events);
    HeardWithoutErrors(OPENING, events);
    assert [] + events == events;
    LastBlock(json, s, FeedAll(json, OPENING, chunks), k, events, e, tail);
  }

  lemma CutWithTail(json: Json, events: seq<Event>, tail: string)
    requires AllWellEncoded(json, events) && '\n' !in tail
    ensures Cut(Stream(json, events) + tail) == (Blocks(json, events), tail)
  {
    NoBoundary(tail);
    CutStream(json, events);
    CutOfMore(Stream(json, events), tail);
    assert "" + tail == tail && Cut(tail) == ([], tail) && Blocks(json, events) + [] == Blocks(json, events);
  }

  lemma LastBlock(json: Json, s: string, r: Reader, k: nat, events: seq<Event>, e: Event, tail: string)
    requires Tracks(json, Cut, s, r, k, []) && '\r' !in s && Cut(s).1 == tail == "data: " + json.encode(e)
    requires var heard := ConsumeAll(json, OPENING, Cut(s).0);
      heard.delivered == events && heard.failure.None?
    requires WellEncoded(json, e) && e.kind != "error"
    ensures Finish(json, Feed(json, r, [], true)).delivered == events + [e]
  {
    CutComposes();
    if r.failure.Some? {
      FailedAlready(json, Cut, s, k, r);
    }
    assert r.failure.None?;
    LastFeedTracks(json, s, r, k);
    StaysAfterTrim(tail);
    DataOfBlock(json, e);
  }

  lemma StaysAfterTrim(t: string)
    requires t != "" && !IsSpace(t[0])
    ensures TrimSpace(t) != ""
  {
    RightTrimmed(t);
    assert TrimLeft(t) == t && t[0..] == t;
  }

  lemma {:induction false} HeardUnfinished(r: Reader, events: seq<Event>)
    requires !r.finished && forall i :: 0 <= i < |events| ==> events[i].kind != "done"
    ensures !Heard(r, events).finished
    decreases |events|
  {
    if events != [] && r.failure.None? && events[0].kind != "error" {
      HeardUnfinished(r.(delivered := r.delivered + [events[0]], finished := false), events[1..]);
    }
  }

  lemma {:induction false} HeardAppend(r: Reader, a: seq<Event>, b: seq<Event>)
    ensures Heard(r, a + b) == Heard(Heard(r, a), b)
    decreases |a|
  {
    if a == [] {
      assert a + b == b;
    } else if r.failure.None? && a[0].kind != "error" {
      HeardAppend(r.(delivered := r.delivered + [a[0]], finished := r.finished || a[0].kind == "done"), a[1..], b);
      assert (a + b)[1..] == a[1..] + b;
    }
  }

  /** An answer is announced before its first piece, by the engine or else by the server; its last event is
      the done with the rest of the response. */
  lemma ScriptAnnounces(turn: seq<Event>, reply: string, rest: string, deltas: seq<Event>, i: nat)
    requires IsTurn(turn) && AreDeltas(deltas)
    ensures var script := Script(turn, Answered(reply, rest), deltas);
      && turn <= script && script[|script| - 1] == Event("done", rest)
      && (i < |script| && script[i].kind == "reply_delta" ==>
            exists j :: 0 <= j < i && script[j].kind == "answer_started")
  {
    var script := Script(turn, Answered(reply, rest), deltas);
    if i < |script| && script[i].kind == "reply_delta" {
      assert i >= |turn|;
      if HasStarted(turn) {
        var j :| 0 <= j < |turn| && turn[j].kind == "answer_started";
        assert script[j].kind == "answer_started";
      } else {
        assert script[|turn|].kind == "answer_started";
      }
    }
  }

  lemma ScriptIsWhole(turn: seq<Event>, reply: string, rest: string, deltas: seq<Event>)
    requires IsTurn(turn) && AreDeltas(deltas)
    ensures var script := Script(turn, Answered(reply, rest), deltas);
      NoErrors(script) && script != [] && script[|script| - 1].kind == "done"
  {
  }

  lemma ShownOfScript(turn: seq<Event>, reply: string, rest: string, deltas: seq<Event>)
    requires IsTurn(turn) && AreDeltas(deltas) && (reply == "" ==> deltas == [])
    ensures Shown(Script(turn, Answered(reply, rest), deltas)) == TextOf(deltas)
  {
    var started := if reply == "" || HasStarted(turn) then [] else [Event("answer_started", "")];
    var done := [Event("done", rest)];
    assert Script(turn, Answered(reply, rest), deltas) == turn + started + deltas + done;
    ShownAppend(turn + started + deltas, done);
    ShownAppend(turn + started, deltas);
    ShownOfOthers(turn + started);
    ShownOfDeltas(deltas);
    ShownOfOthers(done);
  }

  // ---- The page's loops ------------------------------------------------------------------

  /** The same to the user; after an exception the unused text does not matter. */
  predicate Equivalent(r: Reader, q: Reader) {
    SameSoFar(r, q) && (r.failure.None? ==> r == q)
  }

  /** In the inner loop: some blocks consumed, the others still in the buffer. */
  predicate Midway(json: Json, cut: Cutter, r: Reader, v: Reader, consumed: seq<string>) {
    && cut(r.buffer) == (consumed + cut(v.buffer).0, cut(v.buffer).1)
    && v.held == r.held && SameSoFar(v, ConsumeAll(json, r, consumed))
  }

  lemma OneBlockMore(json: Json, cut: Cutter, r: Reader, v: Reader, consumed: seq<string>, block: string, rest: string)
    requires Midway(json, cut, r, v, consumed) && CutsFirst(cut, v.buffer, block, rest)
    ensures Midway(json, cut, r, Consume(json, v.(buffer := rest), block), consumed + [block])
    ensures Consume(json, v.(buffer := rest), block).buffer == rest
  {
    ConsumeAppend(json, r, consumed, [block]);
    OneSame(json, v.(buffer := rest), ConsumeAll(json, r, consumed), block);
    assert [block][1..] == [];
    assert consumed + ([block] + cut(rest).0) == consumed + [block] + cut(rest).0;
  }

  /** Leaving the inner loop: with no block left, or with an exception. */
  lemma Drained(json: Json, cut: Cutter, r: Reader, v: Reader, consumed: seq<string>)
    requires Midway(json, cut, r, v, consumed)
    requires v.failure.Some? || cut(v.buffer) == ([], v.buffer)
    ensures Equivalent(v, Drain(json, cut, r))
  {
    var left, rest := cut(v.buffer).0, cut(v.buffer).1;
    ConsumeAppend(json, r, consumed, left);
    ConsumeSame(json, r, r.(buffer := rest), consumed + left);
    ConsumeSame(json, r.(buffer := rest), r, consumed + left);
    if v.failure.Some? {
      FailedIsFinal(json, ConsumeAll(json, r, consumed), left);
    } else {
      assert consumed + [] == consumed;
    }
  }

  lemma NothingConsumed(json: Json, cut: Cutter, r: Reader)
    ensures Midway(json, cut, r, r, [])
  {
    assert [] + cut(r.buffer).0 == cut(r.buffer).0;
  }

  method DrainBuffer(json: Json, r: Reader) returns (v: Reader)
    requires r.failure.None?
    ensures Equivalent(v, Drain(json, Cut, r))
  {
    v := r;
    ghost var consumed: seq<string> := [];
    NothingConsumed(json, Cut, r);
    var boundary := Boundary(v.buffer);
    while boundary < |v.buffer| && v.failure.None?
      invariant boundary == Boundary(v.buffer)
      invariant Midway(json, Cut, r, v, consumed)
      decreases |v.buffer|, v.failure.None?
    {
      var block, rest := v.buffer[..boundary], v.buffer[boundary + 2..];
      CutOnce(v.buffer);
      OneBlockMore(json, Cut, r, v, consumed, block, rest);
      v := Consume(json, v.(buffer := rest), block);
      consumed := consumed + [block];
      boundary := Boundary(v.buffer);
    }
    Drained(json, Cut, r, v, consumed);
  }

  method TakeText(json: Json, r: Reader, text: string) returns (v: Reader)
    requires r.failure.None?
    ensures Equivalent(v, Take(json, r, text))
  {
    v := DrainBuffer(json, r.(buffer := r.buffer + LineFeeds(text)));
  }

  lemma {:induction false} FeedFailed(json: Json, r: Reader, chunks: seq<Bytes>)
    requires r.failure.Some?
    ensures FeedAll(json, r, chunks) == r
    decreases |chunks|
  {
    if chunks != [] {
      FeedFailed(json, r, chunks[1..]);
    }
  }

  method StreamAgentRequest(json: Json, chunks: seq<Bytes>) returns (r: Reader)
    ensures Equivalent(r, ReadStream(json, chunks))
  {
    r := OPENING;
    var next := 0;
    while next < |chunks| && r.failure.None?
      invariant next <= |chunks|
      invariant r.failure.None? ==> FeedAll(json, r, chunks[next..]) == FeedAll(json, OPENING, chunks)
      invariant r.failure.Some? ==> SameSoFar(r, FeedAll(json, OPENING, chunks))
      decreases |chunks| - next, r.failure.None?
    {
      var (text, held) := Decoded(r.held + chunks[next]);
      ghost var fed := Feed(json, r, chunks[next], false);
      assert chunks[next..][1..] == chunks[next + 1..];
      r := TakeText(json, r.(held := held), text);
      if r.failure.Some? {
        FeedFailed(json, fed, chunks[next + 1..]);
      }
      next := next + 1;
    }
    if r.failure.Some? {
      return;
    }
    assert chunks[next..] == [];
    var (text, held) := Decoded(r.held + []);
    r := TakeText(json, r.(held := []), if held == [] then text else text + [REPLACEMENT]);
    if r.failure.Some? {
      return;
    }
    if TrimSpace(r.buffer) != "" {
      r := Consume(json, r, r.buffer);
    }
    if r.failure.None? && !r.finished {
      r := r.(failure := Some(Interrupted));
    }
  }
}
