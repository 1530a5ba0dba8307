/**
 Registering and removing the autostart task (internal/runtime/process_control.go) in a store that
 other processes edit between any two calls to Task Scheduler.
 */
module ScheduledTask {
  import opened Wrappers
  import opened Text
  import opened Runs
  import opened Unicode
  import opened TaskEncoding
  import opened Xml
  import opened TaskXml
  import opened TaskRoundTrip
  import opened TaskReading

  datatype TaskError =
    | NotFound | Unavailable | Cancelled | InspectionFailed | IdentityMismatch
    | ForeignOwner | OperationFailed | InvalidCommand

  /** How a call to Task Scheduler can fail; a query says NotFound only of an absent task. */
  datatype Fault = NoControl | Stopped | Broken

  function FaultError(f: Fault): TaskError {
    match f
    case NoControl => Unavailable
    case Stopped => Cancelled
    case Broken => InspectionFailed
  }

  /** Task Scheduler and whatever else edits the task: what others make of it before a call, which
      calls fail, and the form in which a stored document is reported. */
  datatype Host = Host(
    others: (nat, Option<Bytes>) -> Option<Bytes>,
    queryFails: nat -> Option<Fault>, changeFails: nat -> Option<Fault>,
    reported: (nat, Bytes) -> Bytes)

  // ---- The ownership proof ---------------------------------------------------------------

  datatype Ownership = Unknown | External | LongHub

  datatype Observation = Observation(
    ownership: Ownership, present: bool, pathValid: bool, markerValid: bool, actionValid: bool)

  /** The three parts of the identity contract. */
  datatype Identity = Identity(pathValid: bool, markerValid: bool, actionValid: bool)

  function IdentityOf(d: Definition): Identity {
    Identity(PathEqual(d.taskPath, TASK_PATH), d.ownerMarker == OWNER_MARKER, ValidAction(d.command, d.arguments))
  }

  const COMPLETE := Identity(true, true, true)

  /** How documents are built, read and held against the contract; the controller is the same for any. */
  datatype Codec = Codec(
    build: string -> Option<Bytes>, parse: Bytes -> Option<Definition>, identity: Definition -> Identity)

  const TASK_CODEC := Codec(BuildTaskXml, ParseTaskXml, IdentityOf)

  /** The document proves that the task is the Manager's own. */
  predicate Proven(codec: Codec, data: Bytes) {
    codec.parse(data).Some? && codec.identity(codec.parse(data).value) == COMPLETE
  }

  /** A report proves the task exactly when it can be read, and what is read has the Manager's task path,
      owner marker and action. */
  lemma ProvenExactly(data: Bytes)
    ensures Proven(TASK_CODEC, data) <==>
      && ParseTaskXml(data).Some?
      && var d := ParseTaskXml(data).value;
      && IsSamePath(d.taskPath, "\\LongHub\\OpenClaw Gateway") && d.ownerMarker == "longhub/manager-gateway/v2"
      && IsOwnAction(d.command, d.arguments)
  {
    FixedPathIsEqual();
    if ParseTaskXml(data).Some? {
      var d := ParseTaskXml(data).value;
      PathExactly(d.taskPath, TASK_PATH);
      ActionExactly(d.command, d.arguments);
    }
  }

  /** What is held against a task that is reported so. */
  function Objection(codec: Codec, report: Bytes): Option<TaskError> {
    match codec.parse(report)
    case None => Some(InspectionFailed)
    case Some(d) => if codec.identity(d) == COMPLETE then None else Some(IdentityMismatch)
  }

  // ---- Events ----------------------------------------------------------------------------

  /** What a controller asked for and got, with the store just before a change and just after. */
  datatype Event =
    | Queried(answer: Result<Bytes, TaskError>)
    | Registered(data: Bytes, before: Option<Bytes>, after: Option<Bytes>)
    | Deleted(before: Option<Bytes>, after: Option<Bytes>)

  predicate SaysProven(codec: Codec, e: Event) {
    e.Queried? && e.answer.Ok? && Proven(codec, e.answer.value)
  }

  /** What one Ensure may do: ask, register where nothing is, ask again. */
  predicate EnsureEvents(codec: Codec, events: seq<Event>, data: Bytes, succeeded: bool) {
    || (|events| == 1 && events[0].Queried? && succeeded == SaysProven(codec, events[0]))
    || (&& 2 <= |events| <= 3 && events[0] == Queried(Err(NotFound)) && events[1].Registered?
        && events[1].data == data && events[1].after in {events[1].before, Some(data)}
        && (events[1].before.Some? ==> events[1].after == events[1].before)
        && (|events| == 2 ==> events[1].after == events[1].before && !succeeded)
        && (|events| == 3 ==> events[2].Queried? && succeeded == SaysProven(codec, events[2])))
  }

  /** What one Remove may do: ask, and delete only what that very answer proved. */
  predicate RemoveEvents(codec: Codec, events: seq<Event>, succeeded: bool) {
    || (|events| == 1 && events[0].Queried? && succeeded == (events[0] == Queried(Err(NotFound))))
    || (&& |events| == 2 && SaysProven(codec, events[0]) && events[1].Deleted?
        && (if succeeded then events[1].after == None else events[1].after == events[1].before))
  }

  // ---- The controller --------------------------------------------------------------------

  class Controller {
    const codec: Codec
    const host: Host
    var store: Option<Bytes>
    var clock: nat
    var log: seq<Event>

    constructor (codec: Codec, host: Host, store: Option<Bytes>)
      ensures this.codec == codec && this.host == host && this.store == store && clock == 0 && log == []
    {
      this.codec, this.host, this.store, clock, log := codec, host, store, 0, [];
    }

    method Query() returns (r: Result<Bytes, TaskError>)
      modifies this
      ensures log == old(log) + [Queried(r)]
      ensures store == host.others(old(clock), old(store)) && clock == old(clock) + 1
      ensures host.queryFails(old(clock)).None? ==>
        r == if store.None? then Err(NotFound) else Ok(host.reported(old(clock), store.value))
      ensures host.queryFails(old(clock)).Some? ==> r == Err(FaultError(host.queryFails(old(clock)).value))
    {
      store := host.others(clock, store);
      if host.queryFails(clock).Some? {
        r := Err(FaultError(host.queryFails(clock).value));
      } else if store.None? {
        r := Err(NotFound);
      } else {
        r := Ok(host.reported(clock, store.value));
      }
      clock, log := clock + 1, log + [Queried(r)];
    }

    /** Never replaces a task that is there. */
    method Register(data: Bytes) returns (error: Option<Fault>)
      modifies this
      ensures clock == old(clock) + 1
      ensures var before := host.others(old(clock), old(store));
        && log == old(log) + [Registered(data, before, store)]
        && (error.None? <==> before.None? && host.changeFails(old(clock)).None?)
        && store == if error.None? then Some(data) else before
    {
      store := host.others(clock, store);
      var before := store;
      error := host.changeFails(clock);
      if error.None? && store.Some? {
        error := Some(Broken);
      }
      if error.None? {
        store := Some(data);
      }
      clock, log := clock + 1, log + [Registered(data, before, store)];
    }

    method Delete() returns (error: Option<Fault>)
      modifies this
      ensures clock == old(clock) + 1 && error == host.changeFails(old(clock))
      ensures var before := host.others(old(clock), old(store));
        && log == old(log) + [Deleted(before, store)]
        && store == if error.None? then None else before
    {
      store := host.others(clock, store);
      var before := store;
      error := host.changeFails(clock);
      if error.None? {
        store := None;
      }
      clock, log := clock + 1, log + [Deleted(before, store)];
    }

    method InspectOwnership() returns (o: Observation, error: Option<TaskError>)
      modifies this
      ensures clock == old(clock) + 1 && store == host.others(old(clock), old(store))
      ensures |log| == |old(log)| + 1 && old(log) <= log && log[|log| - 1].Queried?
      ensures (error.None? && o.ownership == LongHub) <==> SaysProven(codec, log[|log| - 1])
      ensures (error.None? && !o.present) <==> log[|log| - 1] == Queried(Err(NotFound))
      ensures o.ownership == LongHub ==> o.present && o.pathValid && o.markerValid && o.actionValid
      ensures error.None? ==> o.ownership == LongHub || !o.present
      ensures log[|log| - 1].answer.Ok? ==> error == Objection(codec, log[|log| - 1].answer.value)
      ensures host.queryFails(old(clock)).None? ==>
        log[|log| - 1].answer ==
          if store.None? then Err(NotFound) else Ok(host.reported(old(clock), store.value))
    {
      var unknown := Observation(Unknown, false, false, false, false);
      var answer := Query();
      if answer.Err? {
        if answer.error == NotFound {
          return Observation(External, false, false, false, false), None;
        }
        return unknown, Some(answer.error);
      }
      var parsed := codec.parse(answer.value);
      if parsed.None? {
        return unknown, Some(InspectionFailed);
      }
      var checks := codec.identity(parsed.value);
      o := Observation(Unknown, true, checks.pathValid, checks.markerValid, checks.actionValid);
      if !o.pathValid || !o.markerValid || !o.actionValid {
        return o, Some(IdentityMismatch);
      }
      return o.(ownership := LongHub), None;
    }

    method EnsureScheduledTask(command: string) returns (r: Option<TaskError>)
      modifies this
      ensures codec.build(command).None? ==> r == Some(InvalidCommand) && log == old(log) && store == old(store)
      ensures codec.build(command).Some? ==>
        old(log) <= log && EnsureEvents(codec, log[|old(log)|..], codec.build(command).value, r.None?)
      ensures Quiet(codec, host) && codec.build(command).Some? ==>
        (store, r.None?) == AfterEnsure(codec, old(store), codec.build(command).value)
      ensures Undisturbed(host) && codec.build(command).Some? ==>
        Outcome(clock, store, r) == EnsureAlone(codec, host, old(clock), old(store), codec.build(command).value)
    {
      var taskXml := codec.build(command);
      if taskXml.None? {
        return Some(InvalidCommand);
      }
      ghost var data := taskXml.value;
      var o, error := InspectOwnership();
      ghost var first := log[|old(log)|];
      assert log == old(log) + [first];
      if error.None? && o.ownership == LongHub {
        assert log[|old(log)|..] == [first];
        return None;
      }
      if error.Some? || o.present {
        assert log[|old(log)|..] == [first];
        return Some(if error.None? || error == Some(IdentityMismatch) then ForeignOwner else error.value);
      }
      var registered := Register(taskXml.value);
      ghost var second := log[|old(log)| + 1];
      if registered.Some? {
        assert log[|old(log)|..] == [first, second];
        return Some(if registered.value == NoControl then Unavailable else OperationFailed);
      }
      var verified, failure := InspectOwnership();
      ghost var third := log[|old(log)| + 2];
      assert log[|old(log)|..] == [first, second, third];
      r := if failure.Some? || verified.ownership != LongHub then Some(OperationFailed) else None;
    }

    method RemoveScheduledTask() returns (r: Option<TaskError>)
      modifies this
      ensures old(log) <= log && RemoveEvents(codec, log[|old(log)|..], r.None?)
      ensures Quiet(codec, host) ==> (store, r.None?) == AfterRemove(codec, old(store))
      ensures Undisturbed(host) ==> Outcome(clock, store, r) == RemoveAlone(codec, host, old(clock), old(store))
    {
      var o, error := InspectOwnership();
      ghost var first := log[|old(log)|];
      assert log[|old(log)|..] == [first];
      if error.None? && !o.present {
        return None;
      }
      if !(error.None? && o.ownership == LongHub && o.pathValid && o.markerValid && o.actionValid) {
        return Some(if error.None? || error == Some(IdentityMismatch) then ForeignOwner else error.value);
      }
      var deleted := Delete();
      assert log[|old(log)|..] == [first, log[|old(log)| + 1]];
      if deleted.Some? {
        return Some(if deleted.value == NoControl then Unavailable else OperationFailed);
      }
      return None;
    }
  }

  // ---- With nobody else at the store -----------------------------------------------------

  /** Nobody interferes and nothing fails. */
  ghost predicate Undisturbed(host: Host) {
    && (forall k, s :: host.others(k, s) == s)
    && (forall k :: host.queryFails(k).None?) && (forall k :: host.changeFails(k).None?)
  }

  /** Where a call leaves the clock and the store, and what it answers. */
  datatype Outcome = Outcome(clock: nat, store: Option<Bytes>, error: Option<TaskError>)

  /** The answer about a task that is there. */
  function Refusal(codec: Codec, report: Bytes): Option<TaskError> {
    if Objection(codec, report) == Some(IdentityMismatch) then Some(ForeignOwner) else Objection(codec, report)
  }

  /** Ensure and Remove with nobody else at the store, whatever form the reports take. */
  function EnsureAlone(codec: Codec, host: Host, clock: nat, store: Option<Bytes>, data: Bytes): Outcome {
    match store
    case Some(task) => Outcome(clock + 1, store, Refusal(codec, host.reported(clock, task)))
    case None =>
      Outcome(clock + 3, Some(data),
              if Proven(codec, host.reported(clock + 2, data)) then None else Some(OperationFailed))
  }

  function RemoveAlone(codec: Codec, host: Host, clock: nat, store: Option<Bytes>): Outcome {
    match store
    case None => Outcome(clock + 1, None, None)
    case Some(task) =>
      var refusal := Refusal(codec, host.reported(clock, task));
      if refusal.None? then Outcome(clock + 2, None, None) else Outcome(clock + 1, store, refusal)
  }

  /** Besides, the form of a report does not change what it says. */
  ghost predicate Quiet(codec: Codec, host: Host) {
    && Undisturbed(host)
    && (forall k, data :: Proven(codec, host.reported(k, data)) == Proven(codec, data))
  }

  function AfterEnsure(codec: Codec, store: Option<Bytes>, data: Bytes): (Option<Bytes>, bool) {
    if store.None? then (Some(data), Proven(codec, data)) else (store, Proven(codec, store.value))
  }

  function AfterRemove(codec: Codec, store: Option<Bytes>): (Option<Bytes>, bool) {
    if store.Some? && Proven(codec, store.value) then (None, true) else (store, store.None?)
  }

  /** Everything built is proven when it is read. */
  ghost predicate SelfProving(codec: Codec) {
    forall command :: codec.build(command).Some? ==> Proven(codec, codec.build(command).value)
  }

  /** What the Manager builds is its own proof. */
  lemma BuiltIsProven()
    ensures SelfProving(TASK_CODEC)
  {
    forall command | BuildTaskXml(command).Some?
      ensures Proven(TASK_CODEC, BuildTaskXml(command).value)
    {
      BuildsExactly(command);
      BuiltProves(command);
    }
  }

  lemma BuiltProves(command: string)
    requires ValidAction(command, ARGUMENTS)
    ensures IdentityOf(Definition(TASK_PATH, OWNER_MARKER, command, ARGUMENTS)) == COMPLETE
  {
    FixedPathIsEqual();
  }

  /** Ensure succeeds from nothing, again and again; Remove after it returns to nothing, again and again. */
  lemma EnsureThenRemove(codec: Codec, command: string)
    requires SelfProving(codec) && codec.build(command).Some?
    ensures var data := codec.build(command).value;
      && AfterEnsure(codec, None, data) == (Some(data), true)
      && AfterEnsure(codec, Some(data), data) == (Some(data), true)
      && AfterRemove(codec, Some(data)) == (None, true)
      && AfterRemove(codec, None) == (None, true)
  {
  }

  /** On any store a second Ensure, for any command, changes nothing and says the same as the first. */
  lemma EnsureIsIdempotent(codec: Codec, store: Option<Bytes>, command: string, other: string)
    requires SelfProving(codec) && codec.build(command).Some? && codec.build(other).Some?
    ensures var (once, ok) := AfterEnsure(codec, store, codec.build(command).value);
      AfterEnsure(codec, once, codec.build(other).value) == (once, ok)
  {
  }

  datatype Request = Ensure(command: string) | Remove

  function Serve(codec: Codec, store: Option<Bytes>, q: Request): Option<Bytes> {
    match q
    case Ensure(command) =>
      if codec.build(command).None? then store else AfterEnsure(codec, store, codec.build(command).value).0
    case Remove => AfterRemove(codec, store).0
  }

  /** A task that is not proven is left as it is by every sequence of requests. */
  lemma ForeignTaskStays(codec: Codec, data: Bytes, requests: seq<Request>, stores: seq<Option<Bytes>>, n: nat)
    requires !Proven(codec, data) && n < |stores|
    requires IsRun(Some(data), (s, q) => Serve(codec, s, q), requests, stores)
    ensures stores[n] == Some(data)
  {
    var next := (s: Option<Bytes>, q: Request) => Serve(codec, s, q);
    var inv := (s: Option<Bytes>) => s == Some(data);
    forall s, q | inv(s)
      ensures inv(next(s, q))
    {
    }
    Invariant(Some(data), next, requests, stores, inv, n);
  }

  /** Whatever others do, a task an Ensure finds when it registers is not replaced, and a Remove takes
      away nothing but after its own query proved what was there. */
  lemma OwnChangesOnly(codec: Codec, events: seq<Event>, data: Bytes, succeeded: bool, i: nat)
    requires i < |events|
    requires EnsureEvents(codec, events, data, succeeded) || RemoveEvents(codec, events, succeeded)
    ensures events[i].Registered? && events[i].before.Some? ==> events[i].after == events[i].before
    ensures events[i].Deleted? ==> i > 0 && SaysProven(codec, events[i - 1])
    ensures EnsureEvents(codec, events, data, succeeded) && succeeded ==> SaysProven(codec, events[|events| - 1])
  {
  }

  /** Proof does not depend on which of the marked forms a document is reported in. */
  lemma ProvenInEveryForm(text: string)
    requires text != "" && text[0] == '<' && '\0' !in text
    requires |EncodeUtf8(text)| + 3 <= MAX_XML_BYTES && |Utf16Bytes(text, true)| + 2 <= MAX_XML_BYTES
    ensures Proven(TASK_CODEC, UTF8_BOM + EncodeUtf8(text)) == Proven(TASK_CODEC, EncodeUtf8(text))
    ensures Proven(TASK_CODEC, Bom16(true) + Utf16Bytes(text, true)) == Proven(TASK_CODEC, EncodeUtf8(text))
    ensures Proven(TASK_CODEC, Bom16(false) + Utf16Bytes(text, false)) == Proven(TASK_CODEC, EncodeUtf8(text))
  {
    FormsAreReadAlike(text);
  }

  /** A document that declares another encoding than UTF-8, as Task Scheduler's own "UTF-16" does, proves
      nothing in whatever form it is reported. */
  lemma OtherDeclarationProvesNothing(encoding: string, rest: string, little: bool)
    requires QuietEncoding(encoding) && !EncodingRead(encoding) && '\0' !in rest
    requires |Utf16Bytes(Opening(encoding) + rest, little)| + 2 <= MAX_XML_BYTES
    requires |EncodeUtf8(Opening(encoding) + rest)| <= MAX_XML_BYTES
    ensures !Proven(TASK_CODEC, Bom16(little) + Utf16Bytes(Opening(encoding) + rest, little))
    ensures !Proven(TASK_CODEC, EncodeUtf8(Opening(encoding) + rest))
  {
    OtherDeclarationIsRefused(encoding, rest, little);
    OtherDeclarationIsRefusedInUtf8(encoding, rest);
  }

  /** Of a task that is there: a report that cannot be read is an inspection that failed, one that reads as
      something else is another owner's, and no other report is refused. */
  lemma RefusalExactly(report: Bytes)
    ensures Refusal(TASK_CODEC, report) ==
      if ParseTaskXml(report).None? then Some(InspectionFailed)
      else if Proven(TASK_CODEC, report) then None else Some(ForeignOwner)
  {
  }

  // ---- A task whose reports prove nothing ------------------------------------------------

  function ServeAlone(codec: Codec, host: Host, o: Outcome, q: Request): Outcome {
    match q
    case Ensure(command) =>
      if codec.build(command).None? then o.(error := Some(InvalidCommand))
      else EnsureAlone(codec, host, o.clock, o.store, codec.build(command).value)
    case Remove => RemoveAlone(codec, host, o.clock, o.store)
  }

  /** Where nobody interferes and nothing fails, an Ensure on no task succeeds exactly when the report of
      what it registered proves it; a task whose reports never do is registered all the same, the Ensure
      fails, and so does every later request, and the task stays. */
  lemma RegisteredButRefused(
      codec: Codec, host: Host, clock: nat, command: string, requests: seq<Request>, outcomes: seq<Outcome>, n: nat)
    requires codec.build(command).Some? && n < |outcomes|
    requires IsRun(EnsureAlone(codec, host, clock, None, codec.build(command).value),
                   (o, q) => ServeAlone(codec, host, o, q), requests, outcomes)
    ensures outcomes[0].store == codec.build(command)
    ensures outcomes[0].error.None? <==> Proven(codec, host.reported(clock + 2, codec.build(command).value))
    ensures (forall k :: !Proven(codec, host.reported(k, codec.build(command).value))) ==>
              outcomes[n].store == codec.build(command) && outcomes[n].error.Some?
  {
    var data := codec.build(command).value;
    var first := EnsureAlone(codec, host, clock, None, data);
    var next := (o: Outcome, q: Request) => ServeAlone(codec, host, o, q);
    var inv := (o: Outcome) => o.store == Some(data) && o.error.Some?;
    if forall k :: !Proven(codec, host.reported(k, data)) {
      forall o, q | inv(o)
        ensures inv(next(o, q))
      {
        assert !Proven(codec, host.reported(o.clock, data));
      }
      Invariant(first, next, requests, outcomes, inv, n);
    }
  }

  /** A host that reports the task in UTF-16 under a declaration of that encoding is one of these. */
  lemma OtherDeclarationRefuses(
      host: Host, clock: nat, command: string, encoding: string, rest: string, little: bool,
      requests: seq<Request>, outcomes: seq<Outcome>, n: nat)
    requires TASK_CODEC.build(command).Some? && n < |outcomes|
    requires QuietEncoding(encoding) && !EncodingRead(encoding) && '\0' !in rest
    requires |Utf16Bytes(Opening(encoding) + rest, little)| + 2 <= MAX_XML_BYTES
    requires |EncodeUtf8(Opening(encoding) + rest)| <= MAX_XML_BYTES
    requires forall k :: host.reported(k, TASK_CODEC.build(command).value) ==
                         Bom16(little) + Utf16Bytes(Opening(encoding) + rest, little)
    requires IsRun(EnsureAlone(TASK_CODEC, host, clock, None, TASK_CODEC.build(command).value),
                   (o, q) => ServeAlone(TASK_CODEC, host, o, q), requests, outcomes)
    ensures outcomes[n].store == TASK_CODEC.build(command) && outcomes[n].error.Some?
  {
    OtherDeclarationProvesNothing(encoding, rest, little);
    RegisteredButRefused(TASK_CODEC, host, clock, command, requests, outcomes, n);
  }
}
