/** The shutdown coordinator of program.js: a registry of exit hooks that is
    replaced by a `null` sentinel when cleanup starts, so that cleanup runs once
    however many triggers arrive and late registrations are dropped. */
module Program {
  import opened Hooks

  /** What reaches `_cleanExit`: one of the three signals (attached with
      `process.on`, so they stay attached) or the `exit` event (attached with
      `process.once`). */
  datatype Trigger = Signal(sig: Signal) | ProcessExit

  /** The three phases of the coordinator. */
  datatype Phase = Idle | Cleaning | Terminated

  /** The module's state: `_onExitFunctions` (None is the `null` sentinel), the
      hooks `_cleanExit` has started, in the order it started them, whether the
      one-shot `exit` listener is still attached, the reason of the cleanup that
      ran, and how the process ended. */
  datatype State = State(
    onExitFunctions: Option<seq<Hook>>,
    started: seq<Hook>,
    exitListener: bool,
    reason: Option<string>,
    termination: Option<Termination>)

  /** The inputs of the state machine: a registration, a trigger, and the moment
      the settle-all of the started hooks ends (each hook's run as the deadline
      found it). */
  datatype Event = Register(hook: Hook) | Deliver(trigger: Trigger) | HooksSettled(runs: seq<HookRun>)

  /** The state after the module is loaded and `staticConstructor` has run. */
  function Initial(): State {
    State(Some([]), [], true, None, None)
  }

  function PhaseOf(s: State): Phase {
    if s.termination.Some? then Terminated
    else if s.onExitFunctions.None? then Cleaning
    else Idle
  }

  function PhaseRank(p: Phase): nat {
    match p
    case Idle => 0
    case Cleaning => 1
    case Terminated => 2
  }

  /** `onExit(fn)`: appends one wrapped hook while the registry is an array,
      and does nothing once it is the sentinel. */
  function AfterOnExit(s: State, h: Hook): (r: State)
    ensures s.onExitFunctions.Some? ==> r.onExitFunctions == Some(s.onExitFunctions.value + [h])
    ensures s.onExitFunctions.None? ==> r == s
    ensures r.started == s.started && r.termination == s.termination
  {
    match s.onExitFunctions
    case None => s
    case Some(fns) => s.(onExitFunctions := Some(fns + [h]))
  }

  /** `_cleanExit(reason)`: returns at once when the registry is the sentinel;
      otherwise starts every registered hook in order and installs the sentinel. */
  function AfterCleanExit(s: State, reason: string): (r: State)
    ensures s.onExitFunctions.None? ==> r == s
    ensures s.onExitFunctions.Some? ==>
      r.started == s.started + s.onExitFunctions.value && r.onExitFunctions.None? && r.reason == Some(reason)
    ensures r.onExitFunctions.None? && r.termination == s.termination
  {
    match s.onExitFunctions
    case None => s
    case Some(fns) => s.(started := s.started + fns, onExitFunctions := None, reason := Some(reason))
  }

  /** The `exit` event: the one-shot listener, if still attached, is removed and
      calls `_cleanExit`; then the process is gone. */
  function FireExit(s: State): (r: State)
    ensures !r.exitListener && r.termination == s.termination
    ensures s.exitListener ==> r.onExitFunctions.None?
  {
    if s.exitListener then AfterCleanExit(s.(exitListener := false), "process.exit caught")
    else s
  }

  /** `BPromise.settle(promises)` never rejects, so the chain ends either when
      every hook has settled or when the 10-second timeout fires. */
  function SettleAll(runs: seq<HookRun>): (s: Settlement)
    ensures s != Failed
    ensures s == TimedOut <==> exists i :: 0 <= i < |runs| && Wrapped(runs[i]).Pending?
  {
    if exists i :: 0 <= i < |runs| && runs[i].Unfinished? then TimedOut else AllSettled
  }

  /** The exit code program.js chooses: `process.exit()` when every hook settled
      in time, whether or not some failed, and 2 on the timeout. */
  function ExitCode(runs: seq<HookRun>): (t: Termination)
    ensures t == ExitWith(2) <==> exists i :: 0 <= i < |runs| && runs[i].Unfinished?
    ensures t != ExitWith(2) ==> t == ExitDefault
    ensures t != ExitWith(1)
  {
    ExitFor(SettleAll(runs), ExitDefault)
  }

  /** One transition. A process that has ended reacts to nothing. */
  function Step(s: State, e: Event): (r: State)
    ensures s.termination.Some? ==> r == s
    ensures PhaseRank(PhaseOf(r)) >= PhaseRank(PhaseOf(s))
    ensures s.onExitFunctions.None? ==> r.started == s.started && r.onExitFunctions.None?
  {
    if s.termination.Some? then s
    else
      match e
      case Register(h) => AfterOnExit(s, h)
      case Deliver(Signal(sig)) => AfterCleanExit(s, SignalReason(sig))
      case Deliver(ProcessExit) => FireExit(s).(termination := Some(ExitByCaller))
      case HooksSettled(runs) =>
        if PhaseOf(s) == Cleaning && |runs| == |s.started| then
          FireExit(s).(termination := Some(ExitCode(runs)))
        else s
  }

  function Run(s: State, evs: seq<Event>): State
    decreases |evs|
  {
    if evs == [] then s else Run(Step(s, evs[0]), evs[1..])
  }

  /** Whether some trigger occurs in the trace. */
  predicate Triggered(evs: seq<Event>) {
    exists i :: 0 <= i < |evs| && evs[i].Deliver?
  }

  /** The hooks registered before the first trigger, in order. */
  function RegisteredBeforeTrigger(evs: seq<Event>): seq<Hook>
    decreases |evs|
  {
    if evs == [] then []
    else
      match evs[0]
      case Register(h) => [h] + RegisteredBeforeTrigger(evs[1..])
      case Deliver(_) => []
      case HooksSettled(_) => RegisteredBeforeTrigger(evs[1..])
  }

  function TriggerReason(t: Trigger): string {
    match t
    case Signal(sig) => SignalReason(sig)
    case ProcessExit => "process.exit caught"
  }

  /** The reason logged for the first trigger of the trace. */
  function FirstReason(evs: seq<Event>): Option<string>
    decreases |evs|
  {
    if evs == [] then None
    else if evs[0].Deliver? then Some(TriggerReason(evs[0].trigger))
    else FirstReason(evs[1..])
  }

  /** The states in which nothing has been triggered yet. */
  predicate Waiting(s: State) {
    s.onExitFunctions.Some? && s.termination.None? && s.exitListener && s.started == [] &&
    s.reason.None?
  }

  lemma {:induction false} TriggeredTail(evs: seq<Event>)
    requires evs != [] && !evs[0].Deliver?
    ensures Triggered(evs) <==> Triggered(evs[1..])
  {
    if Triggered(evs) {
      var i :| 0 <= i < |evs| && evs[i].Deliver?;
      assert evs[1..][i - 1] == evs[i];
    }
    if Triggered(evs[1..]) {
      var j :| 0 <= j < |evs[1..]| && evs[1..][j].Deliver?;
      assert evs[j + 1] == evs[1..][j];
    }
  }

  /** Once the sentinel is installed, no event changes the started hooks or
      removes the sentinel. */
  lemma {:induction false} SentinelIsFinal(s: State, evs: seq<Event>)
    requires s.onExitFunctions.None?
    ensures Run(s, evs).started == s.started && Run(s, evs).onExitFunctions.None?
    ensures Run(s, evs).reason == s.reason
    decreases |evs|
  {
    if evs != [] {
      SentinelIsFinal(Step(s, evs[0]), evs[1..]);
    }
  }

  lemma {:induction false} RunFromWaiting(s: State, evs: seq<Event>)
    requires Waiting(s)
    ensures Run(s, evs).started ==
      if Triggered(evs) then s.onExitFunctions.value + RegisteredBeforeTrigger(evs) else []
    ensures Run(s, evs).reason == FirstReason(evs)
    decreases |evs|
  {
    if evs == [] {
    } else {
      var s' := Step(s, evs[0]);
      match evs[0]
      case Register(h) =>
        TriggeredTail(evs);
        RunFromWaiting(s', evs[1..]);
      case HooksSettled(runs) =>
        TriggeredTail(evs);
        RunFromWaiting(s', evs[1..]);
      case Deliver(t) =>
        assert Triggered(evs) by { assert evs[0].Deliver?; }
        SentinelIsFinal(s', evs[1..]);
    }
  }

  /** Exactly-once cleanup: over any sequence of registrations, triggers and
      settlements, the started hooks are exactly those registered before the
      first trigger, each once and in registration order; hooks registered later
      are never started, and without a trigger nothing is started; the logged
      reason is that of the first trigger. */
  lemma CleanupRunsOnce(evs: seq<Event>)
    ensures Run(Initial(), evs).started ==
      if Triggered(evs) then RegisteredBeforeTrigger(evs) else []
    ensures Run(Initial(), evs).reason == FirstReason(evs)
  {
    RunFromWaiting(Initial(), evs);
  }

  /** Once the process has ended, nothing changes any more: the exit code is
      decided once. */
  lemma {:induction false} TerminatedIsFinal(s: State, evs: seq<Event>)
    requires s.termination.Some?
    ensures Run(s, evs) == s
    decreases |evs|
  {
    if evs != [] {
      TerminatedIsFinal(Step(s, evs[0]), evs[1..]);
    }
  }

  /** The phase only moves forward: Idle, then Cleaning, then Terminated. */
  lemma {:induction false} PhaseNeverGoesBack(s: State, evs: seq<Event>)
    ensures PhaseRank(PhaseOf(Run(s, evs))) >= PhaseRank(PhaseOf(s))
    decreases |evs|
  {
    if evs != [] {
      var s' := Step(s, evs[0]);
      assert PhaseRank(PhaseOf(s')) >= PhaseRank(PhaseOf(s));
      PhaseNeverGoesBack(s', evs[1..]);
    }
  }

  /** The module object of program.js, with its fields updated in place. */
  class Coordinator {
    var onExitFunctions: Option<seq<Hook>>
    var started: seq<Hook>
    var exitListener: bool
    var reason: Option<string>
    var termination: Option<Termination>

    ghost function Model(): State
      reads this
    {
      State(onExitFunctions, started, exitListener, reason, termination)
    }

    /** The initial registry and `staticConstructor`'s listeners. */
    constructor ()
      ensures Model() == Initial()
    {
      onExitFunctions := Some([]);
      started := [];
      exitListener := true;
      reason := None;
      termination := None;
    }

    method OnExit(h: Hook)
      modifies this
      ensures Model() == AfterOnExit(old(Model()), h)
    {
      if onExitFunctions.Some? {
        onExitFunctions := Some(onExitFunctions.value + [h]);
      }
    }

    /** Returns true where the source returns `null` (the sentinel was found). */
    method CleanExit(why: string) returns (absorbed: bool)
      modifies this
      ensures absorbed <==> old(onExitFunctions).None?
      ensures Model() == AfterCleanExit(old(Model()), why)
    {
      if onExitFunctions.None? {
        return true;
      }
      started := started + onExitFunctions.value;
      onExitFunctions := None;
      reason := Some(why);
      absorbed := false;
    }

    /** A trigger reaching a live process through the listeners of
        `staticConstructor`. */
    method Deliver(t: Trigger)
      requires termination.None?
      modifies this
      ensures Model() == Step(old(Model()), Event.Deliver(t))
    {
      match t
      case Signal(sig) =>
        var _ := CleanExit(SignalReason(sig));
      case ProcessExit =>
        if exitListener {
          exitListener := false;
          var _ := CleanExit("process.exit caught");
        }
        termination := Some(ExitByCaller);
    }

    /** The end of the settle-all: `process.exit` with the chosen code, which
        fires the `exit` listener once more. */
    method Settle(runs: seq<HookRun>)
      requires termination.None? && onExitFunctions.None? && |runs| == |started|
      modifies this
      ensures Model() == Step(old(Model()), HooksSettled(runs))
      ensures termination == Some(ExitCode(runs))
    {
      if exitListener {
        exitListener := false;
        var _ := CleanExit("process.exit caught");
      }
      termination := Some(ExitCode(runs));
    }
  }
}
