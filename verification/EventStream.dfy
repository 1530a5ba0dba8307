/**
 The agent's event stream: the server writes one frame per event and a reply in pieces
 (internal/httpapi/agent_stream.go), and the page reads frames out of whatever fragments the
 network hands it (internal/httpapi/web/index.html).
 */
module EventStream {
  import opened Wrappers
  import opened Text
  import opened Unicode
  import opened Decimal

  datatype Event = Event(kind: string, text: string)

  /** JSON is not looked into. */
  datatype Json = Json(encode: Event -> string, decode: string -> Option<Event>)

  predicate NoLineEnds(s: string) {
    forall i :: 0 <= i < |s| ==> s[i] != '\n' && s[i] != '\r'
  }

  /** An object on one line, which parses back. */
  predicate WellEncoded(json: Json, e: Event) {
    var s := json.encode(e);
    s != "" && s[0] == '{' && NoLineEnds(s) && json.decode(s) == Some(e)
  }

  predicate AllWellEncoded(json: Json, events: seq<Event>) {
    forall i :: 0 <= i < |events| ==> WellEncoded(json, events[i])
  }

  // ---- The writer ------------------------------------------------------------------------

  function Frame(json: Json, e: Event): string {
    "data: " + json.encode(e) + "\n\n"
  }

  function Stream(json: Json, events: seq<Event>): string {
    if events == [] then "" else Frame(json, events[0]) + Stream(json, events[1..])
  }

  const MAX_PIECES := 160

  function PieceSize(reply: string): (n: nat)
    ensures n * MAX_PIECES >= |reply|
    ensures reply != "" ==> n >= 1
  {
    (|reply| + MAX_PIECES - 1) / MAX_PIECES
  }

  function Delta(text: string): Event {
    Event("reply_delta", text)
  }

  function TextOf(deltas: seq<Event>): string {
    if deltas == [] then "" else deltas[0].text + TextOf(deltas[1..])
  }

  lemma {:induction false} TextOfOneMore(deltas: seq<Event>, e: Event)
    ensures TextOf(deltas + [e]) == TextOf(deltas) + e.text
  {
    if deltas == [] {
      assert ([] + [e])[1..] == [];
    } else {
      TextOfOneMore(deltas[1..], e);
      assert (deltas + [e])[1..] == deltas[1..] + [e];
    }
  }

  /** Pieces of a reply, as long as the request is not cancelled after one of them. */
  method StreamAgentReply(reply: string, cancelled: nat -> bool) returns (deltas: seq<Event>)
    ensures |deltas| <= MAX_PIECES
    ensures forall i :: 0 <= i < |deltas| ==> deltas[i].kind == "reply_delta" && deltas[i].text != ""
    ensures TextOf(deltas) <= reply
    ensures (forall k :: !cancelled(k)) ==> TextOf(deltas) == reply
    ensures TextOf(deltas) == reply || (|deltas| > 0 && cancelled(|deltas| - 1))
  {
    deltas := [];
    if reply == "" {
      return;
    }
    var size := PieceSize(reply);
    var start := 0;
    while start < |reply|
      invariant 0 <= start <= |reply| && TextOf(deltas) == reply[..start]
      invariant start < |reply| ==> start == size * |deltas|
      invariant |deltas| <= MAX_PIECES
      invariant forall i :: 0 <= i < |deltas| ==> deltas[i].kind == "reply_delta" && deltas[i].text != ""
      decreases |reply| - start
    {
      var end := if start + size > |reply| then |reply| else start + size;
      PieceCount(size, |deltas|, |reply|);
      TextOfOneMore(deltas, Delta(reply[start..end]));
      assert reply[..start] + reply[start..end] == reply[..end];
      deltas := deltas + [Delta(reply[start..end])];
      if end == |reply| {
        return;
      }
      if cancelled(|deltas| - 1) {
        return;
      }
      start := end;
      assert size * (|deltas| - 1) + size == size * |deltas|;
    }
  }

  lemma Scaled(size: nat, a: nat, b: nat)
    ensures a <= b ==> size * a <= size * b
  {
  }

  lemma PieceCount(size: nat, count: nat, total: nat)
    requires size * MAX_PIECES >= total && size * count < total
    ensures count < MAX_PIECES
  {
    Scaled(size, MAX_PIECES, count);
  }

  datatype Outcome = Answered(reply: string, rest: string) | Failed(message: string)

  /** What the server means to send for one run, when its writes succeed and nobody cancels. */
  function Script(turn: seq<Event>, outcome: Outcome, deltas: seq<Event>): seq<Event> {
    match outcome
    case Failed(message) => turn + [Event("error", message)]
    case Answered(reply, rest) =>
      turn
      + (if reply == "" then []
         else (if HasStarted(turn) then [] else [Event("answer_started", "")]) + deltas)
      + [Event("done", rest)]
  }

  predicate HasStarted(turn: seq<Event>) {
    exists i :: 0 <= i < |turn| && turn[i].kind == "answer_started"
  }

  class Writer {
    var written: seq<Event>
    var streamOpen: bool
    const fails: nat -> bool

    /** What was written is all that was meant so far, or, after a failed write, the beginning of it. */
    ghost predicate Follows(meant: seq<Event>)
      reads this
    {
      written <= meant && (streamOpen ==> written == meant)
    }

    constructor (fails: nat -> bool)
      ensures Follows([]) && streamOpen && this.fails == fails
    {
      this.fails := fails;
      written, streamOpen := [], true;
    }

    /** After one failed write nothing more is written. */
    method WriteEvent(e: Event, ghost meant: seq<Event>)
      requires Follows(meant)
      modifies this
      ensures Follows(meant + [e])
      ensures streamOpen == (old(streamOpen) && !fails(|old(written)|))
      ensures old(written) <= written <= old(written) + [e]
    {
      if !streamOpen {
        return;
      }
      if fails(|written|) {
        streamOpen := false;
        return;
      }
      written := written + [e];
    }

    method WriteAll(events: seq<Event>, ghost meant: seq<Event>)
      requires Follows(meant)
      modifies this
      ensures Follows(meant + events)
      ensures streamOpen ==> old(streamOpen)
      ensures old(streamOpen) && (forall k :: !fails(k)) ==> streamOpen
    {
      assert meant + events[..0] == meant;
      for i := 0 to |events|
        invariant Follows(meant + events[..i])
        invariant streamOpen ==> old(streamOpen)
        invariant old(streamOpen) && (forall k :: !fails(k)) ==> streamOpen
      {
        assert meant + events[..i] + [events[i]] == meant + events[..i + 1];
        WriteEvent(events[i], meant + events[..i]);
      }
      assert events[..|events|] == events;
    }

    method StreamAgentRun(turn: seq<Event>, outcome: Outcome, cancelled: nat -> bool)
      returns (ghost deltas: seq<Event>)
      requires Follows([]) && streamOpen
      modifies this
      ensures Follows(Script(turn, outcome, deltas))
      ensures (forall k :: !fails(k)) ==> streamOpen
      ensures outcome.Answered? ==> |deltas| <= MAX_PIECES && TextOf(deltas) <= outcome.reply
      ensures outcome.Answered? && (forall k :: !cancelled(k)) ==> TextOf(deltas) == outcome.reply
    {
      deltas := [];
      WriteAll(turn, []);
      ghost var meant := [] + turn;
      assert meant == turn;
      if outcome.Failed? {
        WriteEvent(Event("error", outcome.message), meant);
        return;
      }
      if outcome.reply != "" {
        if !HasStarted(turn) {
          WriteEvent(Event("answer_started", ""), meant);
          meant := meant + [Event("answer_started", "")];
        }
        var pieces := StreamAgentReply(outcome.reply, cancelled);
        deltas := pieces;
        WriteAll(pieces, meant);
        meant := meant + pieces;
      }
      WriteEvent(Event("done", outcome.rest), meant);
      assert meant + [Event("done", outcome.rest)] == Script(turn, outcome, deltas);
    }
  }
}
