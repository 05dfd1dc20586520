/** The shutdown coordinator of Cleaner.js: hooks are registered into a list that
    is never closed, `_cleanExit` is wrapped in a run-once guard, and each signal
    is listened to once. */
module Cleaner {
  import opened Hooks

  /** The module's state: `_onExitFunctions`, the hidden flag of the run-once
      wrapper around `_cleanExit`, the hooks it started, in order, the signals
      whose one-shot listener is still attached, the reason of the cleanup that
      ran, and how the process ended. */
  datatype State = State(
    onExitFunctions: seq<Hook>,
    ran: bool,
    started: seq<Hook>,
    listening: set<Signal>,
    reason: Option<string>,
    termination: Option<Termination>)

  /** The inputs of the state machine: a registration, a signal, and the end of
      the settle-all of the started hooks (each hook's run as the deadline found
      it). */
  datatype Event = Register(hook: Hook) | Deliver(sig: Signal) | HooksSettled(runs: seq<HookRun>)

  /** The state after the module is loaded and `staticConstructor` has run. */
  function Initial(): State {
    State([], false, [], {SIGINT, SIGQUIT, SIGTERM}, None, None)
  }

  /** `onExit(fn)`: appends one wrapped hook, whatever the phase. */
  function AfterOnExit(s: State, h: Hook): (r: State)
    ensures r.onExitFunctions == s.onExitFunctions + [h]
    ensures r.started == s.started && r.ran == s.ran && r.termination == s.termination
  {
    s.(onExitFunctions := s.onExitFunctions + [h])
  }

  /** `_cleanExit` behind its run-once guard: the first call starts every hook
      registered so far, in order; later calls do nothing. */
  function AfterCleanExit(s: State, reason: string): (r: State)
    ensures s.ran ==> r == s
    ensures !s.ran ==> r.ran && r.started == s.started + s.onExitFunctions && r.reason == Some(reason)
    ensures r.onExitFunctions == s.onExitFunctions && r.termination == s.termination
  {
    if s.ran then s
    else s.(ran := true, started := s.started + s.onExitFunctions, reason := Some(reason))
  }

  /** `BPromise.map` over the hooks rejects as soon as one wrapped hook rejects;
      otherwise the settled result is fulfilled once all have resolved, unless
      the 10-second timeout fires first. */
  function SettleAll(runs: seq<HookRun>): (s: Settlement)
    ensures s == Failed <==> exists i :: 0 <= i < |runs| && Wrapped(runs[i]).Rejected?
    ensures s == AllSettled <==> forall i :: 0 <= i < |runs| ==> Wrapped(runs[i]).Resolved?
  {
    if exists i :: 0 <= i < |runs| && Wrapped(runs[i]).Rejected? then Failed
    else if exists i :: 0 <= i < |runs| && runs[i].Unfinished? then TimedOut
    else AllSettled
  }

  /** The exit code Cleaner.js chooses: 1 when some hook failed, 2 when none
      failed but some had not finished at the deadline, 0 when all succeeded. */
  function ExitCode(runs: seq<HookRun>): (t: Termination)
    ensures t == ExitWith(1) <==> exists i :: 0 <= i < |runs| && Wrapped(runs[i]).Rejected?
    ensures t == ExitWith(2) <==>
      (forall i :: 0 <= i < |runs| ==> !Wrapped(runs[i]).Rejected?) &&
      exists i :: 0 <= i < |runs| && runs[i].Unfinished?
    ensures t == ExitWith(0) <==> forall i :: 0 <= i < |runs| ==> Wrapped(runs[i]).Resolved?
  {
    ExitFor(SettleAll(runs), ExitWith(0))
  }

  /** One transition. A signal whose one-shot listener has already fired finds
      no listener, and the operating system's default action ends the process.
      A process that has ended reacts to nothing. */
  function Step(s: State, e: Event): (r: State)
    ensures s.termination.Some? ==> r == s
    ensures s.ran ==> r.ran && r.started == s.started
  {
    if s.termination.Some? then s
    else
      match e
      case Register(h) => AfterOnExit(s, h)
      case Deliver(sig) =>
        if sig in s.listening then AfterCleanExit(s.(listening := s.listening - {sig}), SignalReason(sig))
        else s.(termination := Some(KilledBy(sig)))
      case HooksSettled(runs) =>
        if s.ran && |runs| == |s.started| then s.(termination := Some(ExitCode(runs)))
        else s
  }

  function Run(s: State, evs: seq<Event>): State
    decreases |evs|
  {
    if evs == [] then s else Run(Step(s, evs[0]), evs[1..])
  }

  /** Whether some signal occurs in the trace. */
  predicate Triggered(evs: seq<Event>) {
    exists i :: 0 <= i < |evs| && evs[i].Deliver?
  }

  /** The hooks registered before the first signal, in order. */
  function RegisteredBeforeTrigger(evs: seq<Event>): seq<Hook>
    decreases |evs|
  {
    if evs == [] then []
    else
      match evs[0]
      case Register(h) => [h] + RegisteredBeforeTrigger(evs[1..])
      case Deliver(_) => []
      case HooksSettled(_) => RegisteredBeforeTrigger(evs[1..])
  }

  /** The reason logged for the first signal of the trace. */
  function FirstReason(evs: seq<Event>): Option<string>
    decreases |evs|
  {
    if evs == [] then None
    else if evs[0].Deliver? then Some(SignalReason(evs[0].sig))
    else FirstReason(evs[1..])
  }

  /** The states in which no signal has arrived yet. */
  predicate Waiting(s: State) {
    !s.ran && s.termination.None? && s.listening == {SIGINT, SIGQUIT, SIGTERM} &&
    s.started == [] && s.reason.None?
  }

  lemma {:induction false} TriggeredTail(evs: seq<Event>)
    requires evs != [] && !evs[0].Deliver?
    ensures Triggered(evs) <==> Triggered(evs[1..])
  {
    if Triggered(evs) {
      var i :| 0 <= i < |evs| && evs[i].Deliver?;
      assert evs[1..][i - 1] == evs[i];
    }
    if Triggered(evs[1..]) {
      var j :| 0 <= j < |evs[1..]| && evs[1..][j].Deliver?;
      assert evs[j + 1] == evs[1..][j];
    }
  }

  /** Once the run-once guard has fired, no event starts a hook again or changes
      the logged reason. */
  lemma {:induction false} RanIsFinal(s: State, evs: seq<Event>)
    requires s.ran
    ensures Run(s, evs).ran && Run(s, evs).started == s.started && Run(s, evs).reason == s.reason
    decreases |evs|
  {
    if evs != [] {
      RanIsFinal(Step(s, evs[0]), evs[1..]);
    }
  }

  lemma {:induction false} RunFromWaiting(s: State, evs: seq<Event>)
    requires Waiting(s)
    ensures Run(s, evs).started ==
      if Triggered(evs) then s.onExitFunctions + RegisteredBeforeTrigger(evs) else []
    ensures Run(s, evs).reason == FirstReason(evs)
    decreases |evs|
  {
    if evs == [] {
    } else {
      var s' := Step(s, evs[0]);
      match evs[0]
      case Register(h) =>
        TriggeredTail(evs);
        RunFromWaiting(s', evs[1..]);
      case HooksSettled(runs) =>
        TriggeredTail(evs);
        RunFromWaiting(s', evs[1..]);
      case Deliver(sig) =>
        assert Triggered(evs) by { assert evs[0].Deliver?; }
        assert sig in s.listening by { assert sig.SIGINT? || sig.SIGQUIT? || sig.SIGTERM?; }
        assert s'.ran && s'.started == s.onExitFunctions && s'.reason == Some(SignalReason(sig));
        RanIsFinal(s', evs[1..]);
    }
  }

  /** Run-once cleanup: over any trace, the started hooks are exactly those
      registered before the first signal, each once and in order; hooks
      registered later stay in the list but are never started; the logged reason
      is that of the first signal. */
  lemma CleanupRunsOnce(evs: seq<Event>)
    ensures Run(Initial(), evs).started ==
      if Triggered(evs) then RegisteredBeforeTrigger(evs) else []
    ensures Run(Initial(), evs).reason == FirstReason(evs)
  {
    RunFromWaiting(Initial(), evs);
  }

  /** Once the process has ended, nothing changes any more. */
  lemma {:induction false} TerminatedIsFinal(s: State, evs: seq<Event>)
    requires s.termination.Some?
    ensures Run(s, evs) == s
    decreases |evs|
  {
    if evs != [] {
      TerminatedIsFinal(Step(s, evs[0]), evs[1..]);
    }
  }

  /** Each signal is listened to once: the same signal delivered twice before
      the process has ended finds no listener the second time. */
  lemma SameSignalTwiceKills(s: State, sig: Signal)
    requires s.termination.None? && sig in s.listening
    ensures Step(Step(s, Deliver(sig)), Deliver(sig)).termination == Some(KilledBy(sig))
  {
  }

  /** The module object of Cleaner.js, with its fields updated in place. */
  class Coordinator {
    var onExitFunctions: seq<Hook>
    var ran: bool
    var started: seq<Hook>
    var listening: set<Signal>
    var reason: Option<string>
    var termination: Option<Termination>

    ghost function Model(): State
      reads this
    {
      State(onExitFunctions, ran, started, listening, reason, termination)
    }

    /** The initial registry and `staticConstructor`'s one-shot listeners. */
    constructor ()
      ensures Model() == Initial()
    {
      onExitFunctions := [];
      ran := false;
      started := [];
      listening := {SIGINT, SIGQUIT, SIGTERM};
      reason := None;
      termination := None;
    }

    method OnExit(h: Hook)
      modifies this
      ensures Model() == AfterOnExit(old(Model()), h)
    {
      onExitFunctions := onExitFunctions + [h];
    }

    method CleanExit(why: string)
      modifies this
      ensures Model() == AfterCleanExit(old(Model()), why)
    {
      if ran {
        return;
      }
      ran := true;
      started := started + onExitFunctions;
      reason := Some(why);
    }

    /** A signal reaching a live process. */
    method Deliver(sig: Signal)
      requires termination.None?
      modifies this
      ensures Model() == Step(old(Model()), Event.Deliver(sig))
    {
      if sig in listening {
        listening := listening - {sig};
        CleanExit(SignalReason(sig));
      } else {
        termination := Some(KilledBy(sig));
      }
    }

    /** The end of the settle-all: `process.exit` with the chosen code. */
    method Settle(runs: seq<HookRun>)
      requires termination.None? && ran && |runs| == |started|
      modifies this
      ensures Model() == Step(old(Model()), HooksSettled(runs))
      ensures termination == Some(ExitCode(runs))
    {
      termination := Some(ExitCode(runs));
    }
  }
}
