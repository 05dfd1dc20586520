/** The MongoDB module object of MongoDB.js: one connection slot, filled by the
    first successful `connect` and emptied by `disconnect`. The driver's
    `MongoClient.connect` and `close` are inputs: the error (falsy on success)
    and the connection they report. */
module MongoDB {
  import opened Hooks
  import Cleaner

  /** A connection object made by the driver. */
  type Connection = nat

  /** The promise `disconnect` returns: `null` at once when the slot is empty,
      otherwise the outcome of `close`'s callback. */
  function DisconnectOutcome(connected: bool, closeErr: JsValue): (r: Outcome)
    ensures !connected ==> r == Resolves(Null)
    ensures connected ==> (r.Rejects? <==> Truthy(closeErr))
  {
    if connected then FromCallback(closeErr, Null) else Resolves(Null)
  }

  /** The exit hook `connect` registers reports `disconnect` through `done`:
      `done(value)` when it resolves, `done(err)` when it rejects. */
  function ExitHookRun(r: Outcome): (run: HookRun)
    ensures !Wrapped(run).Pending?
    ensures Wrapped(run).Resolved? <==> (r.Resolves? && !Truthy(r.value)) || (r.Rejects? && !Truthy(r.error))
  {
    match r
    case Resolves(v) => Done(v)
    case Rejects(e) => Done(e)
  }

  /** The exit hook fails exactly when there was a connection and closing it
      failed; then it fails with the close error. */
  lemma ExitHookReportsClose(connected: bool, closeErr: JsValue)
    ensures var w := Wrapped(ExitHookRun(DisconnectOutcome(connected, closeErr)));
      && (w.Rejected? <==> connected && Truthy(closeErr))
      && (w.Rejected? ==> w.reason == closeErr)
      && (!w.Rejected? ==> w == Resolved)
  {
    if connected && !Truthy(closeErr) {
      assert DisconnectOutcome(connected, closeErr) == Resolves(Null);
    }
  }

  class Slot {
    /** `MongoDB.connection`; None is `null`. */
    var connection: Option<Connection>
    /** How many times the driver was asked to connect, and to close. */
    var driverConnects: nat
    var closes: nat

    /** The module as loaded: no connection. */
    constructor ()
      ensures connection == None && driverConnects == 0 && closes == 0
    {
      connection := None;
      driverConnects := 0;
      closes := 0;
    }

    /** `MongoDB.connect(options)`: a stored connection is returned and the
        driver is not called; otherwise the driver connects, and on an error
        the slot is left empty and the error propagated, while on success one
        exit hook that disconnects is registered with Cleaner.js and the
        connection is stored and returned. */
    method Connect(err: JsValue, made: Connection, cleaner: Cleaner.Coordinator) returns (r: Outcome)
      modifies this, cleaner
      ensures old(connection).Some? ==>
        r == Resolves(Object(old(connection).value)) && connection == old(connection) &&
        driverConnects == old(driverConnects) && cleaner.Model() == old(cleaner.Model())
      ensures old(connection).None? && Truthy(err) ==>
        r == Rejects(err) && connection == None &&
        driverConnects == old(driverConnects) + 1 && cleaner.Model() == old(cleaner.Model())
      ensures old(connection).None? && !Truthy(err) ==>
        r == Resolves(Object(made)) && connection == Some(made) &&
        driverConnects == old(driverConnects) + 1 &&
        cleaner.Model() == Cleaner.AfterOnExit(old(cleaner.Model()), MongoDisconnect)
      ensures closes == old(closes)
    {
      if connection.Some? {
        return Resolves(Object(connection.value));
      }
      driverConnects := driverConnects + 1;
      if Truthy(err) {
        connection := None;
        return Rejects(err);
      }
      cleaner.OnExit(MongoDisconnect);
      connection := Some(made);
      r := Resolves(Object(made));
    }

    /** `MongoDB.disconnect()`: an empty slot resolves with `null` without
        closing; otherwise the connection is closed and the slot emptied
        whether or not `close` failed, and a close error is propagated. */
    method Disconnect(closeErr: JsValue) returns (r: Outcome)
      modifies this
      ensures r == DisconnectOutcome(old(connection).Some?, closeErr)
      ensures connection == None
      ensures closes == old(closes) + (if old(connection).Some? then 1 else 0)
      ensures driverConnects == old(driverConnects)
    {
      if connection.None? {
        return Resolves(Null);
      }
      closes := closes + 1;
      connection := None;
      if Truthy(closeErr) {
        return Rejects(closeErr);
      }
      r := Resolves(Null);
    }
  }

  // ---------------------------------------------------------------------------
  // Scenarios

  /** Connecting twice makes one driver call and registers one exit hook; both
      calls resolve with the same connection. */
  method ConnectTwiceConnectsOnce() returns (a: Outcome, b: Outcome, calls: nat, hooks: seq<Hook>)
    ensures a == b == Resolves(Object(7))
    ensures calls == 1 && hooks == [MongoDisconnect]
  {
    var slot := new Slot();
    var cleaner := new Cleaner.Coordinator();
    a := slot.Connect(Null, 7, cleaner);
    b := slot.Connect(Null, 8, cleaner);
    calls := slot.driverConnects;
    hooks := cleaner.onExitFunctions;
  }

  /** A failed connect leaves the slot empty and registers no hook, so the next
      connect calls the driver again. */
  method FailedConnectIsRetried() returns (a: Outcome, b: Outcome, calls: nat, hooks: seq<Hook>)
    ensures a.Rejects? && b == Resolves(Object(3))
    ensures calls == 2 && hooks == [MongoDisconnect]
  {
    var slot := new Slot();
    var cleaner := new Cleaner.Coordinator();
    a := slot.Connect(ErrorObject("MongoError", "failed to connect"), 0, cleaner);
    b := slot.Connect(Null, 3, cleaner);
    calls := slot.driverConnects;
    hooks := cleaner.onExitFunctions;
  }

  /** A close error is propagated, and the slot is empty all the same, so a
      second disconnect resolves without closing again. */
  method FailedCloseStillEmptiesSlot() returns (first: Outcome, second: Outcome, closes: nat)
    ensures first.Rejects? && second == Resolves(Null) && closes == 1
  {
    var slot := new Slot();
    var cleaner := new Cleaner.Coordinator();
    var _ := slot.Connect(Null, 1, cleaner);
    first := slot.Disconnect(ErrorObject("MongoError", "close failed"));
    second := slot.Disconnect(Null);
    closes := slot.closes;
  }
}
