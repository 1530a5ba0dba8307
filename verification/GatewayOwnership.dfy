/**
 Who owns the Gateway (internal/runtime/gateway.go). Control calls and changes to the autostart task hold
 the action lock; status calls do not, and both read and clear the ownership flag in short critical
 sections of their own, so every step below may interleave with every step of any number of status calls.
 */
module GatewayOwnership {
  import opened Wrappers
  import opened Runs

  datatype Command = Start | Stop | Restart | Unlisted

  /** What OpenClaw reports. */
  datatype Observation = Observation(installed: bool, running: bool, runningKnown: bool)

  datatype State = Unknown | NotInstalled | Stopped | RunningManaged | RunningExternal

  /** `proven` says that `managed` came from the Scheduled Task probe and not from the flag. */
  datatype Status = Status(state: State, installed: bool, running: bool, managed: bool, proven: bool)

  /** The status once the flag has been read, and cleared if nothing runs, and the task probed if asked. */
  function StatusOf(o: Observation, flag: bool, probe: bool): (s: Status)
    ensures s.managed ==> o.running && (flag || (s.proven && probe))
    ensures !flag && !probe ==> !s.managed
  {
    if !o.installed then Status(NotInstalled, false, o.running, flag && o.running, false)
    else if !o.runningKnown then Status(Unknown, true, false, false, false)
    else if !o.running then Status(Stopped, true, false, false, false)
    else if flag then Status(RunningManaged, true, true, true, false)
    else if probe then Status(RunningManaged, true, true, true, true)
    else Status(RunningExternal, true, true, false, false)
  }

  // ---- The policy ------------------------------------------------------------------------

  datatype GatewayError =
    | InspectionFailed | GatewayMissing | ConfirmationRequired | ExternalGateway | ActionFailed | NotAllowed

  datatype Verdict = Refused(error: GatewayError) | Nothing | Go

  /** What a control call does about the status it found. */
  function Judge(command: Command, confirm: bool, before: Status): (v: Verdict)
    ensures v == Go ==> confirm && command != Unlisted
    ensures v == Go && command == Start ==> !before.running
    ensures v == Refused(ExternalGateway) ==> !confirm && before.running && !before.managed
  {
    if before.state == Unknown then Refused(InspectionFailed)
    else
      match command
      case Start =>
        if !before.installed then Refused(GatewayMissing)
        else if before.running then Nothing
        else if !confirm then Refused(ConfirmationRequired)
        else Go
      case Stop =>
        if !before.running then Nothing
        else if !before.managed && !confirm then Refused(ExternalGateway)
        else if !confirm then Refused(ConfirmationRequired)
        else Go
      case Restart =>
        if !before.installed then Refused(GatewayMissing)
        else if !confirm then
          (if !before.managed && before.running then Refused(ExternalGateway) else Refused(ConfirmationRequired))
        else Go
      case Unlisted => Refused(NotAllowed)
  }

  /** What the flag becomes when the command succeeded. */
  predicate Owns(command: Command, before: Status) {
    match command
    case Start => true
    case Stop => false
    case Restart => before.managed || !before.running
    case Unlisted => false
  }

  // ---- By what was observed --------------------------------------------------------------

  /** Installed, but nobody can tell whether it runs. */
  predicate Unclear(o: Observation) {
    o.installed && !o.runningKnown
  }

  /** The status is decided by the observation, the flag and the probe, state by state. */
  lemma StatusExactly(o: Observation, flag: bool, probe: bool)
    ensures var s := StatusOf(o, flag, probe);
      && s.installed == o.installed && s.running == (o.running && !Unclear(o))
      && s.managed == (s.running && (flag || (o.installed && probe))) && s.proven == (s.managed && !flag)
      && (s.state == NotInstalled <==> !o.installed) && (s.state == Unknown <==> Unclear(o))
      && (s.state == Stopped <==> o.installed && o.runningKnown && !o.running)
      && (s.state == RunningManaged <==> o.installed && o.runningKnown && o.running && (flag || probe))
      && (s.state == RunningExternal <==> o.installed && o.runningKnown && o.running && !flag && !probe)
  {
  }

  /** The calls that reach OpenClaw: confirmed, on a Gateway whose state is known, to start one that is
      installed and stopped, stop one that runs, or restart one that is installed. */
  predicate Reaches(command: Command, confirm: bool, o: Observation) {
    && confirm && !Unclear(o)
    && match command
       case Start => o.installed && !o.running
       case Stop => o.running
       case Restart => o.installed
       case Unlisted => false
  }

  /** There is nothing to do. */
  predicate IsDone(command: Command, o: Observation) {
    !Unclear(o) && ((command == Start && o.installed && o.running) || (command == Stop && !o.running))
  }

  /** Why any other call is refused. */
  function RefusedFor(command: Command, o: Observation, managed: bool): GatewayError {
    if Unclear(o) then InspectionFailed
    else if command == Unlisted then NotAllowed
    else if !o.installed && command != Stop then GatewayMissing
    else if command != Start && o.running && !managed then ExternalGateway
    else ConfirmationRequired
  }

  lemma JudgeExactly(command: Command, confirm: bool, o: Observation, flag: bool, probe: bool)
    ensures var before := StatusOf(o, flag, probe);
      Judge(command, confirm, before) ==
        if Reaches(command, confirm, o) then Go
        else if IsDone(command, o) then Nothing
        else Refused(RefusedFor(command, o, before.managed))
  {
  }

  // ---- Events ----------------------------------------------------------------------------

  /** `Looked` is what an inspection was told, `Cleared` its not-running clearing of the flag, both with
      the status call that made it, or none for the call that holds the lock; the others are that call's own. */
  datatype Event =
    | Began(command: Command, confirm: bool)
    | BeganEnrolment(enroll: bool, confirm: bool)
    | TaskTried(enroll: bool, succeeded: bool)
    | HookBefore
    | Ran(command: Command, before: Status, succeeded: bool)
    | HookAfter(succeeded: bool)
    | Wrote(value: bool)
    | Looked(who: Option<nat>, running: bool)
    | Cleared(who: Option<nat>)

  predicate IsInspection(e: Event) {
    e.Looked? || e.Cleared?
  }

  predicate Launches(command: Command) {
    command == Start || command == Restart
  }

  /** The flag as the events leave it. */
  function LastWrite(log: seq<Event>): bool {
    if log == [] then false
    else
      match log[|log| - 1]
      case Wrote(value) => value
      case Cleared(_) => false
      case _ => LastWrite(log[..|log| - 1])
  }

  /** The last event that is not an inspection's: those of status calls may fall anywhere. */
  function LastOwn(log: seq<Event>): Option<Event> {
    if log == [] then None
    else if IsInspection(log[|log| - 1]) then LastOwn(log[..|log| - 1])
    else Some(log[|log| - 1])
  }

  /** The last event of the thread that holds the action lock, its inspections included. */
  function LastHeld(log: seq<Event>): Option<Event> {
    if log == [] then None
    else if IsInspection(log[|log| - 1]) && log[|log| - 1].who.Some? then LastHeld(log[..|log| - 1])
    else Some(log[|log| - 1])
  }

  /** What one caller's last inspection was told. */
  function LastLook(log: seq<Event>, who: Option<nat>): Option<bool> {
    if log == [] then None
    else if log[|log| - 1].Looked? && log[|log| - 1].who == who then Some(log[|log| - 1].running)
    else LastLook(log[..|log| - 1], who)
  }

  /** The last command that reached OpenClaw. */
  function LastRan(log: seq<Event>): Option<Event> {
    if log == [] then None
    else if log[|log| - 1].Ran? then Some(log[|log| - 1])
    else LastRan(log[..|log| - 1])
  }

  /** The last command that succeeded. */
  function LastSuccess(log: seq<Event>): Option<Event> {
    if log == [] then None
    else if log[|log| - 1].Ran? && log[|log| - 1].succeeded then Some(log[|log| - 1])
    else LastSuccess(log[..|log| - 1])
  }

  /** The control call the events are in. */
  function LastBegan(log: seq<Event>): Option<Event> {
    if log == [] then None
    else if log[|log| - 1].Began? then Some(log[|log| - 1])
    else LastBegan(log[..|log| - 1])
  }

  /** Commands run since the control call began. */
  function RanSinceBegan(log: seq<Event>): nat {
    if log == [] || log[|log| - 1].Began? then 0
    else RanSinceBegan(log[..|log| - 1]) + (if log[|log| - 1].Ran? then 1 else 0)
  }

  /** A hook waits for its launch, or a launch for its closing hook. */
  predicate InBracket(own: Option<Event>) {
    own.Some? && (own.value.HookBefore? || (own.value.Ran? && Launches(own.value.command)))
  }

  /** A command succeeded and the flag does not yet say what it means. */
  predicate AwaitsWrite(own: Option<Event>) {
    own.Some? && (own.value == HookAfter(true) || (own.value.Ran? && own.value.succeeded))
  }

  /** A call inspects when it has begun and when it has written or changed the task. */
  predicate BetweenCommands(own: Option<Event>) {
    && own.Some?
    && (own.value.Began? || own.value.Wrote? || own.value.BeganEnrolment? || (own.value.TaskTried? && own.value.succeeded))
  }

  /** When each event may happen. */
  predicate MayFollow(log: seq<Event>, e: Event) {
    var own := LastOwn(log);
    match e
    case Began(_, _) => !InBracket(own) && !AwaitsWrite(own)
    case BeganEnrolment(_, _) => !InBracket(own) && !AwaitsWrite(own)
    case TaskTried(enroll, _) => own == Some(BeganEnrolment(enroll, true))
    case HookBefore => own.Some? && own.value.Began?
    case Ran(command, before, _) =>
      && RanSinceBegan(log) == 0
      && LastBegan(log) == Some(Began(command, true))
      && Judge(command, true, before) == Go
      && own == Some(if Launches(command) then HookBefore else Began(command, true))
    case HookAfter(succeeded) =>
      own.Some? && own.value.Ran? && Launches(own.value.command) && own.value.succeeded == succeeded
    case Wrote(value) =>
      && own.Some? && LastRan(log).Some? && LastRan(log).value.Ran? && LastRan(log).value.succeeded
      && value == Owns(LastRan(log).value.command, LastRan(log).value.before)
      && (if Launches(LastRan(log).value.command) then own.value == HookAfter(true) else own == LastRan(log))
    case Looked(who, _) => who.Some? || BetweenCommands(own)
    case Cleared(who) =>
      if who.Some? then LastLook(log, who) == Some(false)
      else BetweenCommands(own) && LastHeld(log) == Some(Looked(None, false))
  }

  predicate Lawful(log: seq<Event>) {
    log == [] || (Lawful(log[..|log| - 1]) && MayFollow(log[..|log| - 1], log[|log| - 1]))
  }

  lemma OneMore(log: seq<Event>, e: Event)
    ensures Lawful(log + [e]) <==> Lawful(log) && MayFollow(log, e)
    ensures LastWrite(log + [e]) == if e.Wrote? then e.value else if e.Cleared? then false else LastWrite(log)
    ensures LastOwn(log + [e]) == if IsInspection(e) then LastOwn(log) else Some(e)
    ensures LastHeld(log + [e]) == if IsInspection(e) && e.who.Some? then LastHeld(log) else Some(e)
    ensures LastRan(log + [e]) == if e.Ran? then Some(e) else LastRan(log)
    ensures LastSuccess(log + [e]) == if e.Ran? && e.succeeded then Some(e) else LastSuccess(log)
    ensures LastBegan(log + [e]) == if e.Began? then Some(e) else LastBegan(log)
    ensures RanSinceBegan(log + [e]) == if e.Began? then 0 else RanSinceBegan(log) + (if e.Ran? then 1 else 0)
  {
    assert (log + [e])[..|log|] == log;
  }

  lemma OneMoreLook(log: seq<Event>, e: Event, who: Option<nat>)
    ensures LastLook(log + [e], who) == if e.Looked? && e.who == who then Some(e.running) else LastLook(log, who)
  {
    assert (log + [e])[..|log|] == log;
  }

  // ---- The machine -----------------------------------------------------------------------

  /** An inspection: ask OpenClaw, read the flag, clear it if nothing runs, probe, report. */
  datatype Inspection =
    | Asking
    | Answered(o: Observation)
    | FlagRead(o: Observation, flag: bool)
    | FlagSettled(o: Observation, flag: bool)
    | Reported(status: Status)
    | Failed

  /** Where the one call under the action lock is: a control call, or one that enrols or removes the task. */
  datatype Control =
    | Free
    | Enrolling(enroll: bool, confirm: bool, able: bool, look: Inspection)
    | Inspecting(command: Command, confirm: bool, first: Inspection)
    | Hooked(command: Command, before: Status)
    | Tried(command: Command, before: Status, succeeded: bool)
    | Owning(value: bool)
    | Again(second: Inspection)

  datatype World = World(managed: bool, control: Control, readers: map<nat, Inspection>, log: seq<Event>)

  /** What the outside answers to the step at hand. */
  datatype Input = Input(observed: Option<Observation>, probe: bool, succeeds: bool)

  datatype Action =
    | OpenStatus(id: nat)
    | StepStatus(id: nat, input: Input)
    | OpenControl(command: Command, confirm: bool)
    | OpenEnrolment(enroll: bool, confirm: bool, able: bool)
    | StepControl(input: Input)

  /** Whether this step of an inspection clears the flag. */
  predicate Clears(i: Inspection) {
    i.FlagRead? && !i.o.running
  }

  function Inspect(i: Inspection, managed: bool, input: Input): Inspection {
    match i
    case Asking => if input.observed.Some? then Answered(input.observed.value) else Failed
    case Answered(o) => FlagRead(o, managed)
    case FlagRead(o, flag) => FlagSettled(o, flag && o.running)
    case FlagSettled(o, flag) => Reported(StatusOf(o, flag, input.probe))
    case Reported(_) => i
    case Failed => i
  }

  /** What a step of an inspection leaves in the log and the flag. */
  function AfterInspecting(w: World, who: Option<nat>, i: Inspection, input: Input): World {
    if Clears(i) then w.(managed := false, log := w.log + [Cleared(who)])
    else if i.Asking? && input.observed.Some? then w.(log := w.log + [Looked(who, input.observed.value.running)])
    else w
  }

  function StepReader(w: World, id: nat, input: Input): World
    requires id in w.readers
  {
    var i := w.readers[id];
    var v := AfterInspecting(w, Some(id), i, input);
    if i.Reported? || i.Failed? then v.(readers := w.readers - {id})
    else v.(readers := w.readers[id := Inspect(i, w.managed, input)])
  }

  /** After the first inspection: the verdict, and for a launch its hook. */
  function AfterJudging(w: World, command: Command, confirm: bool, before: Status, input: Input): World {
    if Judge(command, confirm, before) != Go then
      w.(control := Free)
    else if Launches(command) then w.(control := Hooked(command, before), log := w.log + [HookBefore])
    else
      w.(control := if input.succeeds then Owning(false) else Free,
         log := w.log + [Ran(command, before, input.succeeds)])
  }

  /** Whether the task is changed at all; `able` is what was fixed when the Manager started. */
  predicate MayChange(enroll: bool, confirm: bool, able: bool, before: Status) {
    confirm && able && (enroll ==> before.installed)
  }

  /** After the first inspection of a call that enrols or removes the task. */
  function AfterEnrolling(w: World, enroll: bool, confirm: bool, able: bool, before: Status, input: Input): World {
    if !MayChange(enroll, confirm, able, before) then w.(control := Free)
    else w.(control := if input.succeeds then Again(Asking) else Free, log := w.log + [TaskTried(enroll, input.succeeds)])
  }

  function StepHolder(w: World, input: Input): World {
    match w.control
    case Free => w
    case Enrolling(enroll, confirm, able, i) =>
      if i.Failed? then w.(control := Free)
      else if i.Reported? then AfterEnrolling(w, enroll, confirm, able, i.status, input)
      else
        AfterInspecting(w, None, i, input).(control := Enrolling(enroll, confirm, able, Inspect(i, w.managed, input)))
    case Inspecting(command, confirm, i) =>
      if i.Failed? then w.(control := Free)
      else if i.Reported? then AfterJudging(w, command, confirm, i.status, input)
      else AfterInspecting(w, None, i, input).(control := Inspecting(command, confirm, Inspect(i, w.managed, input)))
    case Hooked(command, before) =>
      w.(control := Tried(command, before, input.succeeds), log := w.log + [Ran(command, before, input.succeeds)])
    case Tried(command, before, succeeded) =>
      w.(control := if succeeded then Owning(Owns(command, before)) else Free, log := w.log + [HookAfter(succeeded)])
    case Owning(value) => w.(managed := value, control := Again(Asking), log := w.log + [Wrote(value)])
    case Again(i) =>
      if i.Failed? || i.Reported? then w.(control := Free)
      else AfterInspecting(w, None, i, input).(control := Again(Inspect(i, w.managed, input)))
  }

  /** An action that does not fit changes nothing: a second call waits for the lock. */
  function Next(w: World, a: Action): World {
    match a
    case OpenStatus(id) => if id in w.readers then w else w.(readers := w.readers[id := Asking])
    case StepStatus(id, input) => if id in w.readers then StepReader(w, id, input) else w
    case OpenControl(command, confirm) =>
      if w.control.Free?
      then w.(control := Inspecting(command, confirm, Asking), log := w.log + [Began(command, confirm)]) else w
    case OpenEnrolment(enroll, confirm, able) =>
      if w.control.Free?
      then w.(control := Enrolling(enroll, confirm, able, Asking), log := w.log + [BeganEnrolment(enroll, confirm)])
      else w
    case StepControl(input) => StepHolder(w, input)
  }

  const FRESH := World(false, Free, map[], [])

  predicate IsHistory(actions: seq<Action>, worlds: seq<World>) {
    IsRun(FRESH, (w, a) => Next(w, a), actions, worlds)
  }

  // ---- Every interleaving ----------------------------------------------------------------

  /** An inspection under way knows what its caller was last told. */
  predicate LookAgrees(log: seq<Event>, who: Option<nat>, i: Inspection) {
    i.Answered? || i.FlagRead? ==> LastLook(log, who) == Some(i.o.running)
  }

  /** And the control call has done nothing since. */
  predicate HeldAgrees(log: seq<Event>, i: Inspection) {
    i.Answered? || i.FlagRead? ==> LastHeld(log) == Some(Looked(None, i.o.running))
  }

  predicate ReadersAgree(log: seq<Event>, readers: map<nat, Inspection>) {
    forall id :: id in readers ==> LookAgrees(log, Some(id), readers[id])
  }

  predicate ControlAgrees(log: seq<Event>, c: Control) {
    var own := LastOwn(log);
    match c
    case Free => !InBracket(own) && !AwaitsWrite(own)
    case Enrolling(enroll, confirm, _, i) => own == Some(BeganEnrolment(enroll, confirm)) && HeldAgrees(log, i)
    case Inspecting(command, confirm, i) =>
      own == Some(Began(command, confirm)) && LastBegan(log) == own && RanSinceBegan(log) == 0 && HeldAgrees(log, i)
    case Hooked(command, before) =>
      && own == Some(HookBefore) && LastBegan(log) == Some(Began(command, true)) && RanSinceBegan(log) == 0
      && Launches(command) && Judge(command, true, before) == Go
    case Tried(command, before, succeeded) =>
      own == Some(Ran(command, before, succeeded)) && LastRan(log) == own && Launches(command)
    case Owning(value) =>
      && LastRan(log).Some? && LastRan(log).value.Ran? && LastRan(log).value.succeeded
      && value == Owns(LastRan(log).value.command, LastRan(log).value.before)
      && (if Launches(LastRan(log).value.command) then own == Some(HookAfter(true)) else own == LastRan(log))
    case Again(i) =>
      && own.Some? && (own.value.Wrote? || (own.value.TaskTried? && own.value.succeeded)) && HeldAgrees(log, i)
  }

  predicate Consistent(w: World) {
    && Lawful(w.log) && w.managed == LastWrite(w.log) && ControlAgrees(w.log, w.control)
    && ReadersAgree(w.log, w.readers)
  }

  /** An event that is no status call's look leaves what the readers know. */
  lemma ReadersKept(log: seq<Event>, readers: map<nat, Inspection>, e: Event)
    requires ReadersAgree(log, readers) && !(e.Looked? && e.who.Some?)
    ensures ReadersAgree(log + [e], readers)
  {
    forall id | id in readers
      ensures LookAgrees(log + [e], Some(id), readers[id])
    {
      OneMoreLook(log, e, Some(id));
    }
  }

  lemma JudgingConsistent(w: World, command: Command, confirm: bool, before: Status, input: Input)
    requires Consistent(w) && w.control.Inspecting?
    requires w.control.command == command && w.control.confirm == confirm
    ensures Consistent(AfterJudging(w, command, confirm, before, input))
  {
    if Judge(command, confirm, before) == Go {
      var e := if Launches(command) then HookBefore else Ran(command, before, input.succeeds);
      OneMore(w.log, e);
      ReadersKept(w.log, w.readers, e);
    }
  }

  /** The control call's own event, once it has its place in the log. */
  lemma OwnEventKept(w: World, e: Event, c: Control, managed: bool)
    requires Consistent(w) && !IsInspection(e) && MayFollow(w.log, e)
    requires ControlAgrees(w.log + [e], c) && managed == if e.Wrote? then e.value else w.managed
    ensures Consistent(World(managed, c, w.readers, w.log + [e]))
  {
    OneMore(w.log, e);
    ReadersKept(w.log, w.readers, e);
  }

  lemma HookedConsistent(w: World, input: Input)
    requires Consistent(w) && w.control.Hooked?
    ensures Consistent(StepHolder(w, input))
  {
    var e := Ran(w.control.command, w.control.before, input.succeeds);
    OneMore(w.log, e);
    OwnEventKept(w, e, Tried(w.control.command, w.control.before, input.succeeds), w.managed);
  }

  lemma TriedConsistent(w: World, input: Input)
    requires Consistent(w) && w.control.Tried?
    ensures Consistent(StepHolder(w, input))
  {
    var e := HookAfter(w.control.succeeded);
    OneMore(w.log, e);
    OwnEventKept(w, e, StepHolder(w, input).control, w.managed);
  }

  lemma OwningConsistent(w: World, input: Input)
    requires Consistent(w) && w.control.Owning?
    ensures Consistent(StepHolder(w, input))
  {
    var e := Wrote(w.control.value);
    OneMore(w.log, e);
    OwnEventKept(w, e, Again(Asking), w.control.value);
  }

  /** One step of the control call's inspection, over what its place in the call asks of the log. */
  lemma HeldInspection(w: World, i: Inspection, input: Input)
    requires Consistent(w) && BetweenCommands(LastOwn(w.log)) && HeldAgrees(w.log, i)
    requires !i.Reported? && !i.Failed?
    ensures var v := AfterInspecting(w, None, i, input);
      && Lawful(v.log) && v.managed == LastWrite(v.log) && ReadersAgree(v.log, v.readers)
      && LastOwn(v.log) == LastOwn(w.log) && LastBegan(v.log) == LastBegan(w.log)
      && RanSinceBegan(v.log) == RanSinceBegan(w.log)
      && HeldAgrees(v.log, Inspect(i, w.managed, input))
  {
    if Clears(i) {
      OneMore(w.log, Cleared(None));
      ReadersKept(w.log, w.readers, Cleared(None));
    } else if i.Asking? && input.observed.Some? {
      var e := Looked(None, input.observed.value.running);
      OneMore(w.log, e);
      ReadersKept(w.log, w.readers, e);
    }
  }

  lemma EnrollingConsistent(w: World, input: Input)
    requires Consistent(w) && w.control.Enrolling? && w.control.look.Reported?
    ensures Consistent(StepHolder(w, input))
  {
    if MayChange(w.control.enroll, w.control.confirm, w.control.able, w.control.look.status) {
      var e := TaskTried(w.control.enroll, input.succeeds);
      OneMore(w.log, e);
      OwnEventKept(w, e, StepHolder(w, input).control, w.managed);
    }
  }

  lemma HolderConsistent(w: World, input: Input)
    requires Consistent(w)
    ensures Consistent(StepHolder(w, input))
  {
    if w.control.Enrolling? {
      var i := w.control.look;
      if i.Reported? {
        EnrollingConsistent(w, input);
      } else if !i.Failed? {
        HeldInspection(w, i, input);
      }
    }
    if w.control.Inspecting? {
      var i := w.control.first;
      if i.Reported? {
        JudgingConsistent(w, w.control.command, w.control.confirm, i.status, input);
      } else if !i.Failed? {
        HeldInspection(w, i, input);
      }
    } else if w.control.Again? {
      var i := w.control.second;
      if !i.Reported? && !i.Failed? {
        HeldInspection(w, i, input);
      }
    } else if w.control.Hooked? {
      HookedConsistent(w, input);
    } else if w.control.Tried? {
      TriedConsistent(w, input);
    } else if w.control.Owning? {
      OwningConsistent(w, input);
    }
  }

  /** A status call's event leaves the control call's place in the log. */
  lemma StatusEvent(log: seq<Event>, c: Control, e: Event)
    requires ControlAgrees(log, c) && IsInspection(e) && e.who.Some?
    ensures ControlAgrees(log + [e], c)
  {
    OneMore(log, e);
  }

  lemma LookConsistent(w: World, id: nat, running: bool)
    requires Consistent(w) && id in w.readers
    ensures var e := Looked(Some(id), running);
      Lawful(w.log + [e]) && ControlAgrees(w.log + [e], w.control) && LastWrite(w.log + [e]) == w.managed
      && ReadersAgree(w.log + [e], w.readers - {id}) && LastLook(w.log + [e], Some(id)) == Some(running)
  {
    var e := Looked(Some(id), running);
    OneMore(w.log, e);
    StatusEvent(w.log, w.control, e);
    OneMoreLook(w.log, e, Some(id));
    forall j | j in w.readers - {id}
      ensures LookAgrees(w.log + [e], Some(j), w.readers[j])
    {
      OneMoreLook(w.log, e, Some(j));
    }
  }

  lemma ReaderLooks(w: World, id: nat, o: Observation)
    requires Consistent(w) && id in w.readers
    ensures Consistent(World(w.managed, w.control, w.readers[id := Answered(o)], w.log + [Looked(Some(id), o.running)]))
  {
    var log, readers := w.log + [Looked(Some(id), o.running)], w.readers[id := Answered(o)];
    LookConsistent(w, id, o.running);
    forall j | j in readers
      ensures LookAgrees(log, Some(j), readers[j])
    {
      assert j == id || j in w.readers - {id};
    }
  }

  lemma ReaderClears(w: World, id: nat, next: Inspection)
    requires Consistent(w) && id in w.readers && Clears(w.readers[id]) && !next.Answered? && !next.FlagRead?
    ensures Consistent(World(false, w.control, w.readers[id := next], w.log + [Cleared(Some(id))]))
  {
    var e := Cleared(Some(id));
    assert LookAgrees(w.log, Some(id), w.readers[id]);
    OneMore(w.log, e);
    StatusEvent(w.log, w.control, e);
    ReadersKept(w.log, w.readers, e);
  }

  /** A reader that logs nothing goes on with what it knew. */
  lemma ReaderGoesOn(w: World, readers: map<nat, Inspection>)
    requires Consistent(w)
    requires forall id :: id in readers ==>
      (id in w.readers && (readers[id] == w.readers[id] || (w.readers[id].Answered? && readers[id].FlagRead?
        && readers[id].o == w.readers[id].o))) || (!readers[id].Answered? && !readers[id].FlagRead?)
    ensures Consistent(w.(readers := readers))
  {
    forall id | id in readers
      ensures LookAgrees(w.log, Some(id), readers[id])
    {
      assert id in w.readers ==> LookAgrees(w.log, Some(id), w.readers[id]);
    }
  }

  lemma ReaderConsistent(w: World, id: nat, input: Input)
    requires Consistent(w) && id in w.readers
    ensures Consistent(StepReader(w, id, input))
  {
    var i := w.readers[id];
    if i.Asking? && input.observed.Some? {
      ReaderLooks(w, id, input.observed.value);
    } else if Clears(i) {
      ReaderClears(w, id, Inspect(i, w.managed, input));
    } else {
      ReaderGoesOn(w, StepReader(w, id, input).readers);
    }
  }

  lemma OpenConsistent(w: World, command: Command, confirm: bool)
    requires Consistent(w) && w.control.Free?
    ensures Consistent(Next(w, OpenControl(command, confirm)))
  {
    OneMore(w.log, Began(command, confirm));
    ReadersKept(w.log, w.readers, Began(command, confirm));
  }

  lemma OpenEnrolmentConsistent(w: World, enroll: bool, confirm: bool, able: bool)
    requires Consistent(w) && w.control.Free?
    ensures Consistent(Next(w, OpenEnrolment(enroll, confirm, able)))
  {
    OneMore(w.log, BeganEnrolment(enroll, confirm));
    ReadersKept(w.log, w.readers, BeganEnrolment(enroll, confirm));
  }

  lemma NextConsistent(w: World, a: Action)
    requires Consistent(w)
    ensures Consistent(Next(w, a))
  {
    match a {
      case OpenStatus(_) =>
      case StepStatus(id, input) => if id in w.readers { ReaderConsistent(w, id, input); }
      case OpenControl(command, confirm) => if w.control.Free? { OpenConsistent(w, command, confirm); }
      case OpenEnrolment(enroll, confirm, able) =>
        if w.control.Free? { OpenEnrolmentConsistent(w, enroll, confirm, able); }
      case StepControl(input) => HolderConsistent(w, input);
    }
  }

  lemma HistoryConsistent(actions: seq<Action>, worlds: seq<World>, n: nat)
    requires IsHistory(actions, worlds) && n < |worlds|
    ensures Consistent(worlds[n])
  {
    var next := (w: World, a: Action) => Next(w, a);
    var inv := (w: World) => Consistent(w);
    forall w, a | inv(w)
      ensures inv(next(w, a))
    {
      NextConsistent(w, a);
    }
    Invariant(FRESH, next, actions, worlds, inv, n);
  }

  lemma {:induction false} LawfulAt(log: seq<Event>, i: nat)
    requires Lawful(log) && i < |log|
    ensures MayFollow(log[..i], log[i])
  {
    if i < |log| - 1 {
      LawfulAt(log[..|log| - 1], i);
      assert log[..|log| - 1][..i] == log[..i];
    }
  }

  // ---- What OpenClaw is told -------------------------------------------------------------

  /** Under every interleaving, a command reaches OpenClaw only inside a control call for that very
      command, made with confirmation, whose policy allows it, and as that call's first and only one. */
  lemma CommandsAreConfirmed(actions: seq<Action>, worlds: seq<World>, n: nat, i: nat)
    requires IsHistory(actions, worlds) && n < |worlds|
    requires i < |worlds[n].log| && worlds[n].log[i].Ran?
    ensures var e, before := worlds[n].log[i], worlds[n].log[..i];
      && LastBegan(before) == Some(Began(e.command, true)) && RanSinceBegan(before) == 0
      && Judge(e.command, true, e.before) == Go
  {
    HistoryConsistent(actions, worlds, n);
    LawfulAt(worlds[n].log, i);
  }

  /** The task is changed only inside a confirmed call for that very change, right after its inspection. */
  lemma TaskChangesAreConfirmed(actions: seq<Action>, worlds: seq<World>, n: nat, i: nat)
    requires IsHistory(actions, worlds) && n < |worlds|
    requires i < |worlds[n].log| && worlds[n].log[i].TaskTried?
    ensures LastOwn(worlds[n].log[..i]) == Some(BeganEnrolment(worlds[n].log[i].enroll, true))
  {
    HistoryConsistent(actions, worlds, n);
    LawfulAt(worlds[n].log, i);
  }

  predicate OnlyInspections(log: seq<Event>, i: nat, j: nat)
    requires j <= |log|
  {
    forall k :: i < k < j ==> IsInspection(log[k])
  }

  lemma {:induction false} OnlyInspectedSince(log: seq<Event>, i: nat)
    requires i < |log| && !IsInspection(log[i]) && forall k :: i < k < |log| ==> IsInspection(log[k])
    ensures LastOwn(log) == Some(log[i])
  {
    if i < |log| - 1 {
      OnlyInspectedSince(log[..|log| - 1], i);
    }
  }

  lemma {:induction false} OwnIsSomewhere(log: seq<Event>) returns (i: nat)
    requires LastOwn(log).Some?
    ensures i < |log| && log[i] == LastOwn(log).value && !IsInspection(log[i])
    ensures forall k :: i < k < |log| ==> IsInspection(log[k])
  {
    if IsInspection(log[|log| - 1]) {
      i := OwnIsSomewhere(log[..|log| - 1]);
    } else {
      i := |log| - 1;
    }
  }

  /** Hooks bracket exactly the launches: nothing but inspections by status calls falls between the
      opening hook, the command, and the closing hook, which is told whether it succeeded. */
  lemma HooksBracketLaunches(actions: seq<Action>, worlds: seq<World>, n: nat, i: nat) returns (h: nat)
    requires IsHistory(actions, worlds) && n < |worlds|
    requires i < |worlds[n].log| && worlds[n].log[i].Ran? && Launches(worlds[n].log[i].command)
    ensures h < i && worlds[n].log[h] == HookBefore
    ensures OnlyInspections(worlds[n].log, h, i)
    ensures forall j :: i < j < |worlds[n].log| && !IsInspection(worlds[n].log[j]) && OnlyInspections(worlds[n].log, i, j)
              ==> worlds[n].log[j] == HookAfter(worlds[n].log[i].succeeded)
  {
    HistoryConsistent(actions, worlds, n);
    var log := worlds[n].log;
    LawfulAt(log, i);
    h := OwnIsSomewhere(log[..i]);
    forall j | i < j < |log| && !IsInspection(log[j]) && OnlyInspections(log, i, j)
      ensures log[j] == HookAfter(log[i].succeeded)
    {
      LawfulAt(log, j);
      OnlyInspectedSince(log[..j], i);
    }
  }

  /** And an opening hook is followed by a launch: no hook runs for a stop, a refusal or a status call. */
  lemma HooksOnlyForLaunches(actions: seq<Action>, worlds: seq<World>, n: nat, h: nat, j: nat)
    requires IsHistory(actions, worlds) && n < |worlds|
    requires h < j < |worlds[n].log| && worlds[n].log[h] == HookBefore && !IsInspection(worlds[n].log[j])
    requires OnlyInspections(worlds[n].log, h, j)
    ensures worlds[n].log[j].Ran? && Launches(worlds[n].log[j].command)
  {
    HistoryConsistent(actions, worlds, n);
    LawfulAt(worlds[n].log, j);
    OnlyInspectedSince(worlds[n].log[..j], h);
  }

  // ---- What the flag means ---------------------------------------------------------------

  /** A launch that makes the Gateway the Manager's own: of a stopped one, or a restart of one that was
      already flagged or that the task probe proved. */
  predicate OwnLaunch(e: Event) {
    && e.Ran? && e.succeeded && Launches(e.command) && Judge(e.command, true, e.before) == Go
    && (!e.before.running || (e.command == Restart && e.before.managed))
  }

  /** In a log that sets the flag, unless a later command has not yet had its say. */
  lemma {:induction false} WriteMeansLaunch(log: seq<Event>)
    requires Lawful(log) && LastWrite(log) && !AwaitsWrite(LastOwn(log))
    ensures LastSuccess(log).Some? && OwnLaunch(LastSuccess(log).value)
  {
    var front, e := log[..|log| - 1], log[|log| - 1];
    assert log == front + [e];
    OneMore(front, e);
    if e.Wrote? {
      RanIsJudged(front);
      SuccessIsLastRan(front);
    } else {
      WriteMeansLaunch(front);
    }
  }

  lemma {:induction false} RanIsJudged(log: seq<Event>)
    requires Lawful(log) && LastRan(log).Some?
    ensures LastRan(log).value.Ran?
    ensures Judge(LastRan(log).value.command, true, LastRan(log).value.before) == Go
  {
    var front, e := log[..|log| - 1], log[|log| - 1];
    if !e.Ran? {
      RanIsJudged(front);
    }
  }

  lemma {:induction false} SuccessIsLastRan(log: seq<Event>)
    requires LastRan(log).Some? && LastRan(log).value.Ran? && LastRan(log).value.succeeded
    ensures LastSuccess(log) == LastRan(log)
  {
    if !log[|log| - 1].Ran? {
      SuccessIsLastRan(log[..|log| - 1]);
    }
  }

  /** A command has succeeded and its write is due. */
  predicate WriteDue(c: Control) {
    c.Owning? || (c.Tried? && c.succeeded)
  }

  lemma DueAwaits(w: World)
    requires Consistent(w)
    ensures AwaitsWrite(LastOwn(w.log)) <==> WriteDue(w.control)
  {
  }

  /** The command at `l` succeeded and its write is at `w`: between them, its closing hook and status calls. */
  predicate WrittenAt(log: seq<Event>, l: nat, w: nat) {
    && l < w < |log| && log[l].Ran? && log[l].succeeded && log[w] == Wrote(Owns(log[l].command, log[l].before))
    && forall k :: l < k < w ==> Between(log[k])
  }

  predicate Between(e: Event) {
    e == HookAfter(true) || (IsInspection(e) && e.who.Some?)
  }

  /** The last successful command, and nothing written since its own write. */
  predicate LastWritten(log: seq<Event>, l: nat, w: nat) {
    && WrittenAt(log, l, w) && LastSuccess(log) == Some(log[l])
    && (forall k :: l < k < |log| && log[k].Ran? ==> !log[k].succeeded)
    && (forall k :: w < k < |log| ==> !log[k].Wrote?)
  }

  lemma {:induction false} RanIsLast(log: seq<Event>, l: nat)
    requires l < |log| && log[l].Ran? && forall k :: l < k < |log| ==> !log[k].Ran?
    ensures LastRan(log) == Some(log[l]) && (log[l].succeeded ==> LastSuccess(log) == Some(log[l]))
  {
    if l < |log| - 1 {
      RanIsLast(log[..|log| - 1], l);
    }
  }

  /** Outside its two inspections the control call makes none. */
  lemma StatusInspection(log: seq<Event>, i: nat, k: nat)
    requires Lawful(log) && i < k < |log| && !IsInspection(log[i]) && OnlyInspections(log, i, k + 1)
    requires !BetweenCommands(Some(log[i]))
    ensures log[k].who.Some?
  {
    LawfulAt(log, k);
    OnlyInspectedSince(log[..k], i);
  }

  /** Where a command that awaits its write succeeded. */
  lemma AwaitingSince(log: seq<Event>) returns (l: nat)
    requires Lawful(log) && AwaitsWrite(LastOwn(log))
    ensures l < |log| && log[l].Ran? && log[l].succeeded && LastRan(log) == LastSuccess(log) == Some(log[l])
    ensures forall k :: l < k < |log| ==> Between(log[k])
  {
    var h := OwnIsSomewhere(log);
    l := h;
    if log[h].HookAfter? {
      LawfulAt(log, h);
      l := OwnIsSomewhere(log[..h]);
    }
    forall k | l < k < |log|
      ensures Between(log[k])
    {
      if k < h {
        StatusInspection(log, l, k);
      } else if k > h {
        StatusInspection(log, h, k);
      }
    }
    RanIsLast(log, l);
  }

  /** Every success whose write is not due has been written, and the last one's write is the last. */
  lemma {:induction false} SuccessIsWritten(log: seq<Event>) returns (l: nat, w: nat)
    requires Lawful(log) && LastSuccess(log).Some? && !AwaitsWrite(LastOwn(log))
    ensures LastWritten(log, l, w)
  {
    var front, e := log[..|log| - 1], log[|log| - 1];
    assert log == front + [e];
    OneMore(front, e);
    if e.Wrote? {
      l := AwaitingSince(front);
      w := |front|;
    } else {
      l, w := SuccessIsWritten(front);
    }
  }

  lemma {:induction false} FlagSinceWrite(log: seq<Event>, w: nat)
    requires w < |log| && log[w].Wrote? && forall k :: w < k < |log| ==> !log[k].Wrote?
    ensures LastWrite(log) <==> log[w].value && forall k :: w < k < |log| ==> !log[k].Cleared?
  {
    if w < |log| - 1 {
      FlagSinceWrite(log[..|log| - 1], w);
    }
  }

  predicate ClearedWithin(log: seq<Event>, l: nat, w: nat) {
    exists k :: l < k < w && k < |log| && log[k].Cleared?
  }

  /** Whenever the flag is set and no write is due: the last command that succeeded is such a launch, its
      own write set the flag, and every clearing after the launch is a status call's between the two. So
      the launch is later than the latest clearing exactly when no status call cleared in that window. */
  lemma FlagMeansLaunch(actions: seq<Action>, worlds: seq<World>, n: nat) returns (l: nat, w: nat)
    requires IsHistory(actions, worlds) && n < |worlds| && worlds[n].managed && !WriteDue(worlds[n].control)
    ensures LastWritten(worlds[n].log, l, w) && OwnLaunch(worlds[n].log[l]) && worlds[n].log[w] == Wrote(true)
    ensures forall k :: l < k < |worlds[n].log| && worlds[n].log[k].Cleared? ==> k < w && worlds[n].log[k].who.Some?
    ensures ClearedWithin(worlds[n].log, l, |worlds[n].log|) <==> ClearedWithin(worlds[n].log, l, w)
  {
    HistoryConsistent(actions, worlds, n);
    DueAwaits(worlds[n]);
    var log := worlds[n].log;
    WriteMeansLaunch(log);
    l, w := SuccessIsWritten(log);
    FlagSinceWrite(log, w);
  }

  /** Races only lose ownership: the one step that sets the flag is the control call's own write after
      such a launch; status calls, and every other step, leave it or clear it. */
  lemma OnlyAnOwnLaunchSetsTheFlag(actions: seq<Action>, worlds: seq<World>, n: nat)
    requires IsHistory(actions, worlds) && n < |actions|
    requires !worlds[n].managed && worlds[n + 1].managed
    ensures actions[n].StepControl? && worlds[n].control == Owning(true)
    ensures LastRan(worlds[n].log).Some? && OwnLaunch(LastRan(worlds[n].log).value)
  {
    HistoryConsistent(actions, worlds, n);
    var w := worlds[n];
    assert worlds[n + 1] == Next(w, actions[n]);
    assert actions[n].StepControl? && w.control == Owning(true);
    RanIsJudged(w.log);
  }

  // ---- Ownership lost --------------------------------------------------------------------

  lemma {:induction false} LookIsSomewhere(log: seq<Event>, who: Option<nat>) returns (i: nat)
    requires LastLook(log, who).Some?
    ensures i < |log| && log[i] == Looked(who, LastLook(log, who).value)
    ensures forall k :: i < k < |log| ==> !(log[k].Looked? && log[k].who == who)
  {
    var e := log[|log| - 1];
    if e.Looked? && e.who == who {
      i := |log| - 1;
    } else {
      i := LookIsSomewhere(log[..|log| - 1], who);
    }
  }

  lemma {:induction false} HeldIsSomewhere(log: seq<Event>) returns (i: nat)
    requires LastHeld(log).Some?
    ensures i < |log| && log[i] == LastHeld(log).value
    ensures forall k :: i < k < |log| ==> IsInspection(log[k]) && log[k].who.Some?
  {
    var e := log[|log| - 1];
    if IsInspection(e) && e.who.Some? {
      i := HeldIsSomewhere(log[..|log| - 1]);
    } else {
      i := |log| - 1;
    }
  }

  /** A status call was told at `i`, before the launch, that nothing runs, and clears at `k`, after the write. */
  predicate StaleClearing(log: seq<Event>, l: nat, w: nat, i: nat, k: nat) {
    && i < l < w < k < |log| && log[i].Looked? && !log[i].running && log[i].who.Some? && log[k] == Cleared(log[i].who)
    && forall j :: i < j < k ==> !(log[j].Looked? && log[j].who == log[i].who)
  }

  /** From the launch on, whoever asks is told that the Gateway runs. */
  predicate StaysUp(log: seq<Event>, l: nat) {
    forall k :: l < k < |log| && log[k].Looked? ==> log[k].running
  }

  /** With the Gateway up since the launch, a clearing after the write is a stale status call's. */
  lemma ClearingIsStale(log: seq<Event>, l: nat, w: nat, k: nat) returns (i: nat)
    requires Lawful(log) && WrittenAt(log, l, w) && StaysUp(log, l) && w < k < |log| && log[k].Cleared?
    ensures StaleClearing(log, l, w, i, k)
  {
    if log[k].who.None? {
      var j := ControlLooksFirst(log, w, k);
      assert false;
    }
    LawfulAt(log, k);
    i := LookIsSomewhere(log[..k], log[k].who);
  }

  /** The control call clears only what it has itself been told since its last event of another kind. */
  lemma ControlLooksFirst(log: seq<Event>, w: nat, k: nat) returns (j: nat)
    requires Lawful(log) && w < k < |log| && !IsInspection(log[w]) && log[k] == Cleared(None)
    ensures w < j < k && log[j] == Looked(None, false)
  {
    LawfulAt(log, k);
    assert log[..k][w] == log[w];
    j := HeldIsSomewhere(log[..k]);
  }

  /** When the last successful command is an own launch and no write is due: the flag is gone exactly when
      something cleared it after the write; and if the Gateway stayed up, exactly when a status call that
      was told before the launch that nothing runs cleared after the write. */
  lemma OwnershipLostExactlyWhen(actions: seq<Action>, worlds: seq<World>, n: nat) returns (l: nat, w: nat)
    requires IsHistory(actions, worlds) && n < |worlds| && !WriteDue(worlds[n].control)
    requires LastSuccess(worlds[n].log).Some? && OwnLaunch(LastSuccess(worlds[n].log).value)
    ensures LastWritten(worlds[n].log, l, w)
    ensures !worlds[n].managed <==> ClearedWithin(worlds[n].log, w, |worlds[n].log|)
    ensures StaysUp(worlds[n].log, l) ==>
      (!worlds[n].managed <==> exists i, k :: StaleClearing(worlds[n].log, l, w, i, k))
  {
    HistoryConsistent(actions, worlds, n);
    DueAwaits(worlds[n]);
    var log := worlds[n].log;
    l, w := SuccessIsWritten(log);
    FlagSinceWrite(log, w);
    if StaysUp(log, l) && !worlds[n].managed {
      var k :| w < k < |log| && log[k].Cleared?;
      var i := ClearingIsStale(log, l, w, k);
    }
  }

  // ---- Both races happen -----------------------------------------------------------------

  /** Some run of the machine ends here. */
  ghost predicate Reached(w: World) {
    Ends(FRESH, (w, a) => Next(w, a), w)
  }

  lemma ReachedFirst()
    ensures Reached(FRESH)
  {
    EndsAtFirst(FRESH, (w: World, a: Action) => Next(w, a));
  }

  lemma ReachedNext(w: World, a: Action)
    requires Reached(w)
    ensures Reached(Next(w, a))
  {
    EndsAtNext(FRESH, (w: World, a: Action) => Next(w, a), w, a);
  }

  const STOPPED := Observation(true, false, true)
  const TOLD_STOPPED := Input(Some(STOPPED), false, true)
  const STOPPED_STATUS := Status(Stopped, true, false, false, false)

  /** A status call has been told that nothing runs and has read the flag; it clears next. */
  function Pausing(id: nat, control: Control, managed: bool, log: seq<Event>): World {
    World(managed, control, map[id := FlagRead(STOPPED, false)], log)
  }

  lemma ReaderPauses(id: nat)
    ensures Reached(Pausing(id, Free, false, [Looked(Some(id), false)]))
  {
    ReachedFirst();
    var w1 := Next(FRESH, OpenStatus(id));
    ReachedNext(FRESH, OpenStatus(id));
    var w2 := Next(w1, StepStatus(id, TOLD_STOPPED));
    ReachedNext(w1, StepStatus(id, TOLD_STOPPED));
    ReachedNext(w2, StepStatus(id, TOLD_STOPPED));
    assert w2.readers == map[id := Answered(STOPPED)];
    assert Next(w2, StepStatus(id, TOLD_STOPPED)) == Pausing(id, Free, false, [Looked(Some(id), false)]);
  }

  /** Beside it, a confirmed start inspects a stopped Gateway. */
  lemma StartInspects(id: nat, log: seq<Event>)
    requires Reached(Pausing(id, Free, false, log))
    ensures Reached(Pausing(id, Inspecting(Start, true, Reported(STOPPED_STATUS)), false,
      log + [Began(Start, true), Looked(None, false), Cleared(None)]))
  {
    var step := StepControl(TOLD_STOPPED);
    ReachedNext(Pausing(id, Free, false, log), OpenControl(Start, true));
    var w0 := Pausing(id, Inspecting(Start, true, Asking), false, log + [Began(Start, true)]);
    ReachedNext(w0, step);
    var w1 := Pausing(id, Inspecting(Start, true, Answered(STOPPED)), false, w0.log + [Looked(None, false)]);
    ReachedNext(w1, step);
    var w2 := Pausing(id, Inspecting(Start, true, FlagRead(STOPPED, false)), false, w1.log);
    ReachedNext(w2, step);
    var w3 := Pausing(id, Inspecting(Start, true, FlagSettled(STOPPED, false)), false, w1.log + [Cleared(None)]);
    ReachedNext(w3, step);
    assert w3.log == log + [Began(Start, true), Looked(None, false), Cleared(None)];
  }

  /** And starts it; its closing hook has run and its write is due. */
  lemma StartLaunches(id: nat, log: seq<Event>)
    requires Reached(Pausing(id, Inspecting(Start, true, Reported(STOPPED_STATUS)), false, log))
    ensures Reached(Pausing(id, Owning(true), false,
      log + [HookBefore, Ran(Start, STOPPED_STATUS, true), HookAfter(true)]))
  {
    var step := StepControl(TOLD_STOPPED);
    var w0 := Pausing(id, Inspecting(Start, true, Reported(STOPPED_STATUS)), false, log);
    ReachedNext(w0, step);
    var w1 := Pausing(id, Hooked(Start, STOPPED_STATUS), false, log + [HookBefore]);
    ReachedNext(w1, step);
    var w2 := Pausing(id, Tried(Start, STOPPED_STATUS, true), false, w1.log + [Ran(Start, STOPPED_STATUS, true)]);
    ReachedNext(w2, step);
    assert w2.log + [HookAfter(true)] == log + [HookBefore, Ran(Start, STOPPED_STATUS, true), HookAfter(true)];
  }

  /** The events up to the point where the two races part. */
  function Launched(id: nat): seq<Event> {
    [Looked(Some(id), false)] + [Began(Start, true), Looked(None, false), Cleared(None)]
    + [HookBefore, Ran(Start, STOPPED_STATUS, true), HookAfter(true)]
  }

  lemma WriteIsDue(id: nat)
    ensures Reached(Pausing(id, Owning(true), false, Launched(id)))
  {
    ReaderPauses(id);
    StartInspects(id, [Looked(Some(id), false)]);
    StartLaunches(id, [Looked(Some(id), false)] + [Began(Start, true), Looked(None, false), Cleared(None)]);
  }

  /** A run in which the flag is set although a status call cleared it after the launch: the latest
      clearing is later than the launch. */
  lemma ClearingBetweenLaunchAndWrite(id: nat) returns (w: World)
    ensures Reached(w) && w.managed && !WriteDue(w.control)
    ensures w.log == Launched(id) + [Cleared(Some(id)), Wrote(true)]
  {
    WriteIsDue(id);
    var w0 := Pausing(id, Owning(true), false, Launched(id));
    ReachedNext(w0, StepStatus(id, TOLD_STOPPED));
    var w1 := Next(w0, StepStatus(id, TOLD_STOPPED));
    ReachedNext(w1, StepControl(TOLD_STOPPED));
    w := Next(w1, StepControl(TOLD_STOPPED));
    assert w.log == Launched(id) + [Cleared(Some(id))] + [Wrote(true)];
  }

  /** And a run in which the same status call clears after the write: the Manager then takes the Gateway
      it has just started for an external one. */
  lemma OwnershipLostToALateClearing(id: nat) returns (w: World)
    ensures Reached(w) && !w.managed && !WriteDue(w.control)
    ensures w.log == Launched(id) + [Wrote(true), Cleared(Some(id))]
    ensures LastSuccess(w.log).Some? && OwnLaunch(LastSuccess(w.log).value)
    ensures StatusOf(Observation(true, true, true), w.managed, false).state == RunningExternal
  {
    WriteIsDue(id);
    var w0 := Pausing(id, Owning(true), false, Launched(id));
    ReachedNext(w0, StepControl(TOLD_STOPPED));
    var w1 := Next(w0, StepControl(TOLD_STOPPED));
    ReachedNext(w1, StepStatus(id, TOLD_STOPPED));
    w := Next(w1, StepStatus(id, TOLD_STOPPED));
    assert w.log == Launched(id) + [Wrote(true)] + [Cleared(Some(id))];
    assert w.log[5] == Ran(Start, STOPPED_STATUS, true);
    RanIsLast(w.log, 5);
  }

  /** A confirmed restart of a running Gateway that only the task probe vouches for does set the flag,
      and without the probe it does not. */
  lemma ProbeProvenRestartIsOwned(o: Observation, probe: bool)
    requires o.installed && o.runningKnown && o.running
    ensures Judge(Restart, true, StatusOf(o, false, probe)) == Go
    ensures Owns(Restart, StatusOf(o, false, probe)) == probe
  {
  }

  // ---- The manager -----------------------------------------------------------------------

  /** The command of a call that goes ahead, with its hooks if it launches. */
  function Closed(began: seq<Event>, command: Command, before: Status, succeeds: bool): seq<Event> {
    if Launches(command) then began + [HookBefore] + [Ran(command, before, succeeds)] + [HookAfter(succeeds)]
    else began + [Ran(command, before, succeeds)]
  }

  /** A control call's own events, by what its first inspection reported. */
  function CallEvents(command: Command, confirm: bool, before: Option<Status>, succeeds: bool): seq<Event> {
    var began := [Began(command, confirm)];
    if before.None? || Judge(command, confirm, before.value) != Go then began
    else if succeeds then Closed(began, command, before.value, true) + [Wrote(Owns(command, before.value))]
    else Closed(began, command, before.value, false)
  }

  /** What a call that reaches OpenClaw does, one after the other. */
  function ReachedEvents(command: Command, before: Status, o: Observation, succeeds: bool): seq<Event> {
    var ran := Ran(command, before, succeeds);
    if command == Stop then
      [Began(Stop, true), ran] + (if succeeds then [Wrote(false)] else [])
    else
      [Began(command, true), HookBefore, ran, HookAfter(succeeds)]
      + (if succeeds then [Wrote(command == Start || before.managed || !o.running)] else [])
  }

  lemma CallExactly(command: Command, confirm: bool, o: Observation, flag: bool, probe: bool, succeeds: bool)
    ensures var before := StatusOf(o, flag, probe);
      CallEvents(command, confirm, Some(before), succeeds) ==
        if Reaches(command, confirm, o) then ReachedEvents(command, before, o, succeeds) else [Began(command, confirm)]
  {
    JudgeExactly(command, confirm, o, flag, probe);
  }

  lemma ClosedAppends(log: seq<Event>, began: seq<Event>, command: Command, before: Status, succeeds: bool)
    ensures log + Closed(began, command, before, succeeds) == Closed(log + began, command, before, succeeds)
  {
  }

  lemma ClosedIsLawful(began: seq<Event>, command: Command, before: Status, succeeds: bool)
    requires Lawful(began) && LastOwn(began) == Some(Began(command, true)) == LastBegan(began)
    requires RanSinceBegan(began) == 0 && Judge(command, true, before) == Go
    ensures Lawful(Closed(began, command, before, succeeds))
    ensures LastRan(Closed(began, command, before, succeeds)) == Some(Ran(command, before, succeeds))
    ensures LastOwn(Closed(began, command, before, succeeds)) ==
      Some(if Launches(command) then HookAfter(succeeds) else Ran(command, before, succeeds))
  {
    var ran := Ran(command, before, succeeds);
    if Launches(command) {
      OneMore(began, HookBefore);
      OneMore(began + [HookBefore], ran);
      OneMore(began + [HookBefore] + [ran], HookAfter(succeeds));
    } else {
      OneMore(began, ran);
    }
  }

  /** The rest of a call whose policy lets it go ahead. */
  lemma GoIsLawful(began: seq<Event>, command: Command, before: Status, succeeds: bool)
    requires Lawful(began) && LastOwn(began) == Some(Began(command, true)) == LastBegan(began)
    requires RanSinceBegan(began) == 0 && Judge(command, true, before) == Go
    ensures Lawful(Closed(began, command, before, succeeds))
    ensures succeeds ==> Lawful(Closed(began, command, before, true) + [Wrote(Owns(command, before))])
  {
    ClosedIsLawful(began, command, before, succeeds);
    if succeeds {
      OneMore(Closed(began, command, before, true), Wrote(Owns(command, before)));
    }
  }

  /** One control call as a whole extends a lawful log lawfully. */
  lemma CallIsLawful(log: seq<Event>, command: Command, confirm: bool, before: Option<Status>, succeeds: bool)
    requires Lawful(log) && !InBracket(LastOwn(log)) && !AwaitsWrite(LastOwn(log))
    ensures Lawful(log + CallEvents(command, confirm, before, succeeds))
  {
    var began := [Began(command, confirm)];
    OneMore(log, Began(command, confirm));
    if before.Some? && Judge(command, confirm, before.value) == Go {
      GoIsLawful(log + began, command, before.value, succeeds);
      ClosedAppends(log, began, command, before.value, succeeds);
      var closed, write := Closed(began, command, before.value, succeeds), [Wrote(Owns(command, before.value))];
      assert log + (closed + write) == log + closed + write;
    }
  }

  // ---- The machine does what the methods do ------------------------------------------------

  /** The holder of the lock goes on, `n` steps, with nobody in between. */
  function Steps(w: World, input: Input, n: nat): World
    decreases n
  {
    if n == 0 then w else Steps(StepHolder(w, input), input, n - 1)
  }

  /** What an inspection that is left alone logs and leaves of the flag. */
  function Inspected(w: World, o: Observation, c: Control): World {
    World(w.managed && o.running, c, w.readers,
          w.log + [Looked(None, o.running)] + (if o.running then [] else [Cleared(None)]))
  }

  /** Four steps of a control call that is left alone: its first inspection. */
  lemma FirstInspection(w: World, command: Command, confirm: bool, o: Observation, input: Input)
    requires w.control == Inspecting(command, confirm, Asking) && input.observed == Some(o)
    ensures var status := StatusOf(o, w.managed && o.running, input.probe);
      Steps(w, input, 4) == Inspected(w, o, Inspecting(command, confirm, Reported(status)))
  {
    var w1 := StepHolder(w, input);
    var w2 := StepHolder(w1, input);
    var w3 := StepHolder(w2, input);
    assert w2.control == Inspecting(command, confirm, FlagRead(o, w.managed));
    StepsUnfold(w, input);
    assert Inspected(w, o, w3.control).log == w3.log;
  }

  /** How many steps the rest of a call takes up to its second inspection. */
  function RestSteps(command: Command, confirm: bool, before: Status, succeeds: bool): nat {
    if Judge(command, confirm, before) != Go then 1
    else (if Launches(command) then 3 else 1) + (if succeeds then 1 else 0)
  }

  /** What the rest of a call leaves. */
  predicate RestTold(w: World, command: Command, confirm: bool, before: Status, succeeds: bool, v: World) {
    && w.log <= v.log && v.readers == w.readers
    && [Began(command, confirm)] + v.log[|w.log|..] == CallEvents(command, confirm, Some(before), succeeds)
    && (if Judge(command, confirm, before) == Go && succeeds
        then v.control == Again(Asking) && v.managed == Owns(command, before)
        else v.control == Free && v.managed == w.managed)
  }

  lemma RestOfLaunch(w: World, command: Command, confirm: bool, before: Status, input: Input)
    requires w.control == Inspecting(command, confirm, Reported(before))
    requires Judge(command, confirm, before) == Go && Launches(command)
    ensures RestTold(w, command, confirm, before, input.succeeds,
                     Steps(w, input, RestSteps(command, confirm, before, input.succeeds)))
  {
    StepsUnfold(w, input);
    LaunchSteps(w, command, confirm, before, input);
  }

  lemma LaunchSteps(w: World, command: Command, confirm: bool, before: Status, input: Input)
    requires w.control == Inspecting(command, confirm, Reported(before))
    requires Judge(command, confirm, before) == Go && Launches(command)
    ensures StepHolder(StepHolder(StepHolder(w, input), input), input) ==
      World(w.managed, if input.succeeds then Owning(Owns(command, before)) else Free, w.readers,
            w.log + [HookBefore, Ran(command, before, input.succeeds), HookAfter(input.succeeds)])
  {
    var w1 := World(w.managed, Hooked(command, before), w.readers, w.log + [HookBefore]);
    assert StepHolder(w, input) == w1;
    var ran := Ran(command, before, input.succeeds);
    assert StepHolder(w1, input) == World(w.managed, Tried(command, before, input.succeeds), w.readers, w1.log + [ran]);
  }

  /** And its rest: exactly the events of the call, ending with its write, or with the lock let go. */
  lemma RestOfCall(w: World, command: Command, confirm: bool, before: Status, input: Input)
    requires w.control == Inspecting(command, confirm, Reported(before))
    ensures RestTold(w, command, confirm, before, input.succeeds,
                     Steps(w, input, RestSteps(command, confirm, before, input.succeeds)))
  {
    if Judge(command, confirm, before) == Go && Launches(command) {
      RestOfLaunch(w, command, confirm, before, input);
    } else {
      StepsUnfold(w, input);
    }
  }

  lemma StepsUnfold(w: World, input: Input)
    ensures Steps(w, input, 1) == StepHolder(w, input)
    ensures Steps(w, input, 2) == StepHolder(StepHolder(w, input), input)
    ensures Steps(w, input, 3) == StepHolder(StepHolder(StepHolder(w, input), input), input)
    ensures Steps(w, input, 4) == StepHolder(StepHolder(StepHolder(StepHolder(w, input), input), input), input)
  {
    var w1 := StepHolder(w, input);
    var w2 := StepHolder(w1, input);
    var w3 := StepHolder(w2, input);
    assert Steps(w3, input, 1) == Steps(StepHolder(w3, input), input, 0);
    assert Steps(w2, input, 2) == Steps(w3, input, 1);
    assert Steps(w1, input, 1) == Steps(StepHolder(w1, input), input, 0);
    assert Steps(w, input, 2) == Steps(w1, input, 1);
    assert Steps(w2, input, 1) == Steps(StepHolder(w2, input), input, 0);
    assert Steps(w, input, 3) == Steps(w1, input, 2) == Steps(w2, input, 1);
  }

  /** The own events of a call that enrols or removes the task. */
  function EnrolmentEvents(enroll: bool, confirm: bool, changed: bool, succeeds: bool): seq<Event> {
    var began := [BeganEnrolment(enroll, confirm)];
    if changed then began + [TaskTried(enroll, succeeds)] else began
  }

  lemma EnrolmentIsLawful(log: seq<Event>, enroll: bool, confirm: bool, changed: bool, succeeds: bool)
    requires Lawful(log) && !InBracket(LastOwn(log)) && !AwaitsWrite(LastOwn(log)) && (changed ==> confirm)
    ensures Lawful(log + EnrolmentEvents(enroll, confirm, changed, succeeds))
  {
    var began := [BeganEnrolment(enroll, confirm)];
    OneMore(log, began[0]);
    if changed {
      OneMore(log + began, TaskTried(enroll, succeeds));
      assert log + (began + [TaskTried(enroll, succeeds)]) == log + began + [TaskTried(enroll, succeeds)];
    }
  }

  /** A control call by what it was told: the command runs exactly when the call reaches OpenClaw, and every
      other call is answered with the status it found or with its own refusal. */
  predicate CallTold(
      command: Command, confirm: bool, o: Observation, before: Status, succeeds: bool, second: Input,
      r: Result<Status, GatewayError>, events: seq<Event>)
  {
    if Reaches(command, confirm, o) then
      && events == ReachedEvents(command, before, o, succeeds)
      && (if !succeeds then r == Err(ActionFailed)
          else if second.observed.None? then r == Err(InspectionFailed)
          else r.Ok?)
    else
      && events == [Began(command, confirm)]
      && r == if IsDone(command, o) then Ok(before) else Err(RefusedFor(command, o, before.managed))
  }

  class GatewayManager {
    var managed: bool
    var clock: nat
    const disturbed: nat -> bool

    constructor (disturbed: nat -> bool)
      ensures !managed && clock == 0 && this.disturbed == disturbed
    {
      this.disturbed := disturbed;
      managed, clock := false, 0;
    }

    /** No status call comes between. */
    ghost predicate Undisturbed()
      reads this
    {
      forall k :: k >= clock ==> !disturbed(k)
    }

    /** Between two steps, status calls may have cleared the flag. */
    method Yield()
      modifies this
      ensures clock == old(clock) + 1
      ensures managed == (old(managed) && !disturbed(old(clock)))
    {
      if disturbed(clock) {
        managed := false;
      }
      clock := clock + 1;
    }

    method Inspect(input: Input) returns (r: Result<Status, GatewayError>)
      modifies this
      ensures clock > old(clock)
      ensures managed ==> old(managed)
      ensures r.Ok? <==> input.observed.Some?
      ensures r.Err? ==> r == Err(InspectionFailed)
      ensures old(Undisturbed()) && input.observed.None? ==> managed == old(managed)
      ensures old(Undisturbed()) && input.observed.Some? ==>
        && managed == (old(managed) && input.observed.value.running)
        && r.value == StatusOf(input.observed.value, managed, input.probe)
      ensures r.Ok? ==> exists flag :: (flag ==> old(managed)) && r.value == StatusOf(input.observed.value, flag, input.probe)
      ensures r.Ok? && !input.observed.value.running ==> !managed
      ensures r.Ok? && !r.value.managed ==> !managed || !r.value.running
    {
      Yield();
      if input.observed.None? {
        return Err(InspectionFailed);
      }
      var o := input.observed.value;
      var flag := managed;
      Yield();
      if !o.running {
        flag := false;
        managed := false;
      }
      Yield();
      r := Ok(StatusOf(o, flag, input.probe));
    }

    method ControlGateway(command: Command, confirm: bool, first: Input, succeeds: bool, second: Input)
      returns (r: Result<Status, GatewayError>, before: Option<Status>, events: seq<Event>)
      modifies this
      ensures before.Some? <==> first.observed.Some?
      ensures events == CallEvents(command, confirm, before, succeeds)
      ensures managed ==> if events[|events| - 1].Wrote? then events[|events| - 1].value else old(managed)
      ensures before.Some? && Judge(command, confirm, before.value).Refused? ==>
        r == Err(Judge(command, confirm, before.value).error)
      ensures before.Some? && Judge(command, confirm, before.value).Nothing? ==> r == Ok(before.value)
      ensures before.None? ==> r == Err(InspectionFailed) && events == [Began(command, confirm)]
      ensures old(Undisturbed()) && events[|events| - 1].Wrote? ==>
        managed == (events[|events| - 1].value && (second.observed.Some? ==> second.observed.value.running))
      ensures before.Some? ==> CallTold(command, confirm, first.observed.value, before.value, succeeds, second, r, events)
    {
      before := None;
      events := [Began(command, confirm)];
      var inspected := Inspect(first);
      if inspected.Err? {
        return inspected, None, events;
      }
      var status := inspected.value;
      ghost var flag :| status == StatusOf(first.observed.value, flag, first.probe);
      CallExactly(command, confirm, first.observed.value, flag, first.probe, succeeds);
      JudgeExactly(command, confirm, first.observed.value, flag, first.probe);
      before := Some(status);
      var verdict := Judge(command, confirm, status);
      if verdict.Refused? {
        return Err(verdict.error), before, events;
      }
      if verdict.Nothing? {
        return Ok(status), before, events;
      }
      if Launches(command) {
        events := events + [HookBefore, Ran(command, status, succeeds), HookAfter(succeeds)];
      } else {
        events := events + [Ran(command, status, succeeds)];
      }
      Yield();
      if !succeeds {
        return Err(ActionFailed), before, events;
      }
      managed := Owns(command, status);
      events := events + [Wrote(managed)];
      r := Inspect(second);
    }

    /** Enrolling or removing the autostart task: confirmed, and it never sets the flag, whatever the
        task's own change does. `command` is the launcher captured at start-up, if it is acceptable. */
    method ChangeEnrolment(enroll: bool, confirm: bool, supported: bool, command: Option<string>,
                           first: Input, succeeds: bool, second: Input)
      returns (r: Result<Status, GatewayError>, before: Option<Status>, events: seq<Event>)
      modifies this
      ensures managed ==> old(managed)
      ensures before.Some? <==> first.observed.Some?
      ensures var able := supported && (enroll ==> command.Some?);
        var changed := before.Some? && MayChange(enroll, confirm, able, before.value);
        && events == EnrolmentEvents(enroll, confirm, changed, succeeds)
        && (!changed ==> r.Err?)
        && (changed && !succeeds ==> r == Err(ActionFailed))
        && (before.Some? && !changed ==>
              r == Err(if !confirm then ConfirmationRequired
                       else if supported && enroll && !before.value.installed then GatewayMissing else NotAllowed))
        && (changed && succeeds ==> (r.Ok? <==> second.observed.Some?))
      ensures before.Some? && !confirm ==> r == Err(ConfirmationRequired)
    {
      before := None;
      events := [BeganEnrolment(enroll, confirm)];
      var inspected := Inspect(first);
      if inspected.Err? {
        return inspected, None, events;
      }
      before := Some(inspected.value);
      if !confirm {
        return Err(ConfirmationRequired), before, events;
      }
      if !supported {
        return Err(NotAllowed), before, events;
      }
      if enroll && !inspected.value.installed {
        return Err(GatewayMissing), before, events;
      }
      if enroll && command.None? {
        return Err(NotAllowed), before, events;
      }
      events := events + [TaskTried(enroll, succeeds)];
      Yield();
      if !succeeds {
        return Err(ActionFailed), before, events;
      }
      r := Inspect(second);
    }
  }
}
