/** Shared vocabulary of the two shutdown coordinators (program.js and Cleaner.js):
    the JavaScript values an err-first `done` callback may receive, the registered
    hooks, the promise each wrapped hook becomes, and the process exit codes. */
module Hooks {

  datatype Option<+T> = None | Some(value: T)

  /** The JavaScript values that matter to a truthiness test. Numbers are integers
      here; `NaN` is kept apart because it is the one falsy non-zero number. */
  datatype JsValue =
    | Undefined
    | Null
    | Bool(b: bool)
    | Number(n: int)
    | NaN
    | Str(s: string)
    | Object(id: nat)
    | ErrorObject(name: string, message: string)

  /** JavaScript's `if (v)`: false, 0, NaN, "", null and undefined are falsy. */
  predicate Truthy(v: JsValue) {
    match v
    case Bool(b) => b
    case Number(n) => n != 0
    case Str(s) => s != []
    case Object(_) => true
    case ErrorObject(_, _) => true
    case _ => false
  }

  /** How a promise returned by a driver wrapper settled. */
  datatype Outcome = Resolves(value: JsValue) | Rejects(error: JsValue)

  /** The promise around a driver callback `(err, result)`: rejected with a
      truthy `err`, fulfilled with the result otherwise. */
  function FromCallback(err: JsValue, result: JsValue): (r: Outcome)
    ensures r.Rejects? <==> Truthy(err)
    ensures r.Rejects? ==> r.error == err
    ensures r.Resolves? ==> r.value == result
  {
    if Truthy(err) then Rejects(err) else Resolves(result)
  }

  /** A cleanup function registered with `onExit`. Hooks are identified by who
      registered them; what they do is outside the model. */
  datatype Hook =
    | UserHook(id: nat)
    | RedisDisconnect(connLabel: string)
    | MongoDisconnect

  /** What a started hook had done when the 10-second deadline was reached: it had
      not called `done` yet, it called `done(arg)` (`done()` passes `Undefined`),
      or it threw synchronously. */
  datatype HookRun = Unfinished | Done(arg: JsValue) | Threw(thrown: JsValue)

  /** The state of the promise that `onExit` wraps around a hook. */
  datatype Settled = Pending | Resolved | Rejected(reason: JsValue)

  /** The wrapper both coordinators build in `onExit`: a promise whose executor calls
      the hook with a `done(err)` that rejects with `err` when it is truthy and
      resolves otherwise; a synchronous throw rejects the promise. */
  function Wrapped(run: HookRun): (r: Settled)
    ensures r.Pending? <==> run.Unfinished?
    ensures r.Resolved? <==> run.Done? && !Truthy(run.arg)
    ensures r.Rejected? && run.Done? ==> Truthy(run.arg) && r.reason == run.arg
    ensures r.Rejected? && run.Threw? ==> r.reason == run.thrown
  {
    match run
    case Unfinished => Pending
    case Done(err) => if Truthy(err) then Rejected(err) else Resolved
    case Threw(e) => Rejected(e)
  }

  /** How the promise chain after "run every hook" ended: fulfilled, rejected by
      the 10-second timeout, or rejected by another error. */
  datatype Settlement = AllSettled | TimedOut | Failed

  /** The termination signals both coordinators listen to. */
  datatype Signal = SIGINT | SIGQUIT | SIGTERM

  /** The name of the process event each signal is delivered as. */
  function SignalName(sig: Signal): string {
    match sig
    case SIGINT => "SIGINT"
    case SIGQUIT => "SIGQUIT"
    case SIGTERM => "SIGTERM"
  }

  /** The reason string each signal listener passes to `_cleanExit`: the
      signal's own name followed by " caught". */
  function SignalReason(sig: Signal): (r: string)
    ensures r == SignalName(sig) + " caught"
    ensures |r| > 7 && r[|r| - 7..] == " caught"
  {
    match sig
    case SIGINT => "SIGINT caught"
    case SIGQUIT => "SIGQUIT caught"
    case SIGTERM => "SIGTERM caught"
  }

  /** How the process ended: `process.exit()` with no argument (the default code),
      `process.exit(n)`, an exit requested by some other caller of `process.exit`
      (whose code the model does not see), or the operating system's default
      action for a signal nobody listens to. */
  datatype Termination =
    | ExitDefault
    | ExitWith(code: int)
    | ExitByCaller
    | KilledBy(signal: Signal)

  /** Different signals are logged with different reasons. */
  lemma SignalReasonsDiffer(a: Signal, b: Signal)
    requires a != b
    ensures SignalReason(a) != SignalReason(b)
  {
    assert SignalReason(a)[..|SignalReason(a)| - 7] == SignalName(a);
    assert SignalReason(b)[..|SignalReason(b)| - 7] == SignalName(b);
  }

  /** The three `.then` / `.error` branches at the end of both cleanup chains:
      success exits with the variant's own call, the timeout with 2, any other
      error with 1. */
  function ExitFor(s: Settlement, onSuccess: Termination): (t: Termination)
    ensures s == AllSettled ==> t == onSuccess
    ensures s != AllSettled ==> t.ExitWith? && t.code != 0
    ensures t == ExitWith(2) <==> s == TimedOut || (s == AllSettled && onSuccess == ExitWith(2))
  {
    match s
    case AllSettled => onSuccess
    case TimedOut => ExitWith(2)
    case Failed => ExitWith(1)
  }
}
