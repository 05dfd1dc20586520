/** The Redis module object of Redis.js: a label-keyed pool of clients, the
    global key prefix, `publish`, `lpushlim`, and the reference-counted pub/sub
    multiplexer, with its fields updated in place. Driver calls are inputs: a
    created client later reports `ready` or `error`, and a command's callback
    receives `(err, replies)`. */
module Redis {
  import opened Hooks
  import opened KeyPrefix
  import opened RedisCommands
  import opened Multiplexer
  import Cleaner

  /** `Redis.DEFAULT_CONNECTION_LABEL`. */
  const DefaultConnectionLabel: string := "main"

  /** A client made by `redis.createClient`, numbered in creation order. */
  type Client = nat

  /** `connect` and `disconnect` take their first argument as the label only
      when it is a string. */
  function EffectiveLabel(v: JsValue): (l: string)
    ensures v.Str? ==> l == v.s
    ensures !v.Str? ==> l == DefaultConnectionLabel
  {
    if v.Str? then v.s else DefaultConnectionLabel
  }

  /** `publish`, `lpushlim`, `subscribe` and `unsubscribe` use the default label
      when called without one (None: the call with one argument fewer). */
  function OverloadLabel(v: Option<string>): (l: string)
    ensures v.Some? ==> l == v.value
    ensures v.None? ==> l == DefaultConnectionLabel
  {
    if v.Some? then v.value else DefaultConnectionLabel
  }

  /** What `connect` did synchronously: resolved with the pooled client, or
      created a new one whose `ready` or `error` is still to come. */
  datatype ConnectStart = Reused(client: Client) | Created(client: Client)

  /** The rejection of `publish` and `lpushlim` on a label without a client. */
  function NoConnectedDatabase(connLabel: string): JsValue {
    ErrorObject("Error", "No connected database for label: \"" + connLabel + "\"")
  }

  /** Dereferencing a missing pool entry inside a promise executor. */
  const TypeErrorValue: JsValue := ErrorObject("TypeError", "")

  /** The exit hook `connect` registers reports `disconnect`'s outcome through
      `done`: `done(null)` on success, `done(err)` on a rejection. */
  function DisconnectHookRun(r: Outcome): (run: HookRun)
    ensures r.Resolves? ==> Wrapped(run) == Resolved
    ensures r.Rejects? && Truthy(r.error) ==> Wrapped(run) == Settled.Rejected(r.error)
  {
    match r
    case Resolves(_) => Done(Null)
    case Rejects(e) => Done(e)
  }

  class Pool {
    /** `Redis.connection`: the client stored under each label. */
    var connection: map<string, Client>
    /** Clients created by `connect` still listening for `ready` (and so for
        `error`), with the label they were created for. An `error` does not
        remove either listener; only `ready` removes both. */
    var pending: map<Client, string>
    /** Clients whose `connect` promise has settled. A promise settles once:
        a later `resolve` or `reject` does nothing. */
    var settled: set<Client>
    var clientsCreated: nat
    /** `Redis._prefix`. */
    var prefix: JsValue
    /** The labels of `_subscribeEmitters`. */
    var emitters: set<string>
    /** The labels whose client got the `message` listener, in order. */
    var listenerLog: seq<string>
    /** Each emitter's listeners, per (label, channel). */
    var handlers: map<(string, string), seq<Handler>>
    /** The labels of `_subscribeCounts`, and the numbers in their tables. */
    var countTables: set<string>
    var counts: map<(string, string), int>
    /** Every command sent on a client, in order. */
    var log: seq<Cmd>

    function Mux(): Mux
      reads this
    {
      Multiplexer.Mux(emitters, listenerLog, handlers, countTables, counts, log)
    }

    /** The multiplexer invariant, and client numbers are those already made. */
    ghost predicate Valid()
      reads this
    {
      && Inv(Mux())
      && (forall c | c in pending :: c < clientsCreated)
      && (forall c | c in settled :: c < clientsCreated)
      && (forall l | l in connection :: connection[l] < clientsCreated)
    }

    /** The module as loaded: an empty pool, no prefix (`null`), no emitters. */
    constructor ()
      ensures Valid() && Mux() == Empty()
      ensures connection == map[] && pending == map[] && settled == {} && prefix == Null
    {
      connection := map[];
      pending := map[];
      settled := {};
      clientsCreated := 0;
      prefix := Null;
      emitters := {};
      listenerLog := [];
      handlers := map[];
      countTables := {};
      counts := map[];
      log := [];
    }

    /** `Redis.prefix(str)`; stripping the prefix gives `str` back. */
    function Prefix(str: string): (r: string)
      reads this
      ensures StripPrefix(PrefixOf(prefix), r) == str
      ensures !prefix.Str? ==> r == str
      ensures prefix.Str? ==> r == prefix.s + ":" + str
    {
      StripPrefixRoundTrip(PrefixOf(prefix), str);
      Prefixed(PrefixOf(prefix), str)
    }

    /** `Redis.setPrefix(prefix)`: replaces the prefix, whatever the value, and
        returns it. */
    method SetPrefix(v: JsValue) returns (r: JsValue)
      requires Valid()
      modifies this
      ensures Valid()
      ensures r == v && prefix == v
      ensures connection == old(connection) && pending == old(pending) && settled == old(settled) && clientsCreated == old(clientsCreated)
      ensures Mux() == old(Mux())
    {
      prefix := v;
      r := v;
    }

    /** `Redis.connect(label, options)` up to the point where it waits: a pooled
        label resolves with its client and creates none; otherwise a client is
        created and nothing is stored yet. */
    method Connect(labelArg: JsValue) returns (r: ConnectStart)
      requires Valid()
      modifies this
      ensures Valid()
      ensures var l := EffectiveLabel(labelArg);
        && (l in old(connection) ==> r == Reused(old(connection)[l]) && clientsCreated == old(clientsCreated) && pending == old(pending))
        && (l !in old(connection) ==>
              r == Created(old(clientsCreated)) && clientsCreated == old(clientsCreated) + 1 &&
              pending == old(pending)[r.client := l])
      ensures settled == old(settled) && (EffectiveLabel(labelArg) !in old(connection) ==> r.client !in settled)
      ensures connection == old(connection) && prefix == old(prefix) && Mux() == old(Mux())
    {
      var l := EffectiveLabel(labelArg);
      if l in connection {
        return Reused(connection[l]);
      }
      r := Created(clientsCreated);
      pending := pending[clientsCreated := l];
      clientsCreated := clientsCreated + 1;
    }

    /** A created client reports `error` while it still listens for `ready`:
        its label is deleted from the pool (whatever client it held) and the
        promise is rejected with the error, unless it has already settled. The
        `error` listener stays attached and `ready` is still awaited, so the
        client stays pending. */
    method OnConnectError(client: Client, err: JsValue) returns (r: Option<Outcome>)
      requires Valid() && client in pending
      modifies this
      ensures Valid()
      ensures r == if client in old(settled) then None else Some(Rejects(err))
      ensures connection == old(connection) - {old(pending)[client]}
      ensures settled == old(settled) + {client}
      ensures pending == old(pending) && clientsCreated == old(clientsCreated)
      ensures prefix == old(prefix) && Mux() == old(Mux())
    {
      var l := pending[client];
      connection := connection - {l};
      r := if client in settled then None else Some(Rejects(err));
      settled := settled + {client};
    }

    /** The error listener as evidently intended: a failed connection detaches
        the client, so no later `ready` can pool it and no later `error` of it
        can delete another client's label. */
    method OnConnectErrorDetached(client: Client, err: JsValue) returns (r: Option<Outcome>)
      requires Valid() && client in pending
      modifies this
      ensures Valid()
      ensures r == if client in old(settled) then None else Some(Rejects(err))
      ensures connection == old(connection) - {old(pending)[client]}
      ensures settled == old(settled) + {client}
      ensures pending == old(pending) - {client} && client !in pending && clientsCreated == old(clientsCreated)
      ensures prefix == old(prefix) && Mux() == old(Mux())
    {
      var l := pending[client];
      connection := connection - {l};
      pending := pending - {client};
      r := if client in settled then None else Some(Rejects(err));
      settled := settled + {client};
    }

    /** A created client reports `ready`: one exit hook that disconnects the
        label is registered with Cleaner.js, the client is stored under the
        label and both connect listeners are removed. The promise resolves with
        the client unless an earlier `error` already rejected it. */
    method OnReady(client: Client, cleaner: Cleaner.Coordinator) returns (r: Option<Client>)
      requires Valid() && client in pending
      modifies this, cleaner
      ensures Valid()
      ensures r == if client in old(settled) then None else Some(client)
      ensures connection == old(connection)[old(pending)[client] := client]
      ensures settled == old(settled) + {client}
      ensures pending == old(pending) - {client} && clientsCreated == old(clientsCreated)
      ensures cleaner.Model() == Cleaner.AfterOnExit(old(cleaner.Model()), RedisDisconnect(old(pending)[client]))
      ensures prefix == old(prefix) && Mux() == old(Mux())
    {
      var l := pending[client];
      cleaner.OnExit(RedisDisconnect(l));
      pending := pending - {client};
      connection := connection[l := client];
      r := if client in settled then None else Some(client);
      settled := settled + {client};
    }

    /** `Redis.disconnect(label)` as written: a pooled label resolves with
        `null` at once, without QUIT, and stays pooled; a label without a client
        rejects with the TypeError of reading `once` of `undefined`. */
    method DisconnectAsWritten(labelArg: JsValue) returns (r: Outcome)
      ensures EffectiveLabel(labelArg) in connection ==> r == Resolves(Null)
      ensures EffectiveLabel(labelArg) !in connection ==> r == Rejects(TypeErrorValue)
    {
      var l := EffectiveLabel(labelArg);
      if l in connection {
        return Resolves(Null);
      }
      r := Rejects(TypeErrorValue);
    }

    /** `Redis.disconnect(label)` as its documentation describes it: a pooled
        client is sent QUIT and its label is deleted once it has ended; a label
        without a client resolves at once. Either way it resolves with `null`. */
    method Disconnect(labelArg: JsValue) returns (r: Outcome)
      requires Valid()
      modifies this
      ensures Valid()
      ensures r == Resolves(Null)
      ensures var l := EffectiveLabel(labelArg);
        && connection == old(connection) - {l}
        && log == old(log) + (if l in old(connection) then [Quit(l)] else [])
      ensures pending == old(pending) && settled == old(settled) && clientsCreated == old(clientsCreated) && prefix == old(prefix)
      ensures emitters == old(emitters) && listenerLog == old(listenerLog) && handlers == old(handlers)
      ensures countTables == old(countTables) && counts == old(counts)
    {
      var l := EffectiveLabel(labelArg);
      if l in connection {
        log := log + [Quit(l)];
        connection := connection - {l};
      }
      r := Resolves(Null);
    }

    /** `Redis.publish(label, key, value)`: PUBLISH of the prefixed key on the
        label's client, settled by the driver's `(err, replies)`; a label
        without a client rejects and sends nothing. */
    method Publish(labelArg: Option<string>, key: string, value: string, err: JsValue, replies: JsValue) returns (r: Outcome)
      requires Valid()
      modifies this
      ensures Valid()
      ensures OverloadLabel(labelArg) !in connection ==>
        r == Rejects(NoConnectedDatabase(OverloadLabel(labelArg))) && log == old(log)
      ensures OverloadLabel(labelArg) in connection ==>
        r == FromCallback(err, replies) &&
        log == old(log) + [Cmd.Publish(OverloadLabel(labelArg), Prefixed(PrefixOf(prefix), key), value)]
      ensures connection == old(connection) && pending == old(pending) && settled == old(settled) && clientsCreated == old(clientsCreated)
      ensures prefix == old(prefix) && emitters == old(emitters) && listenerLog == old(listenerLog)
      ensures handlers == old(handlers) && countTables == old(countTables) && counts == old(counts)
    {
      var l := OverloadLabel(labelArg);
      if l in connection {
        log := log + [Cmd.Publish(l, Prefixed(PrefixOf(prefix), key), value)];
        r := FromCallback(err, replies);
      } else {
        r := Rejects(NoConnectedDatabase(l));
      }
    }

    /** `Redis.lpushlim(label, key, value, maxlen)`: one MULTI transaction of
        LPUSH then LTRIM 0 (maxlen - 1) on the prefixed key, whose effect on the
        list is `PushLim`; a label without a client rejects and sends nothing. */
    method LPushLim(labelArg: Option<string>, key: string, value: string, maxlen: int, err: JsValue, replies: JsValue)
      returns (r: Outcome)
      requires Valid()
      modifies this
      ensures Valid()
      ensures OverloadLabel(labelArg) !in connection ==>
        r == Rejects(NoConnectedDatabase(OverloadLabel(labelArg))) && log == old(log)
      ensures OverloadLabel(labelArg) in connection ==>
        r == FromCallback(err, replies) &&
        log == old(log) + [Multi(OverloadLabel(labelArg), PushLimOps(Prefixed(PrefixOf(prefix), key), value, maxlen))]
      ensures connection == old(connection) && pending == old(pending) && settled == old(settled) && clientsCreated == old(clientsCreated)
      ensures prefix == old(prefix) && emitters == old(emitters) && listenerLog == old(listenerLog)
      ensures handlers == old(handlers) && countTables == old(countTables) && counts == old(counts)
    {
      var l := OverloadLabel(labelArg);
      if l in connection {
        var wireKey := Prefixed(PrefixOf(prefix), key);
        log := log + [Multi(l, [LPush(wireKey, value), LTrim(wireKey, 0, maxlen - 1)])];
        r := FromCallback(err, replies);
      } else {
        r := Rejects(NoConnectedDatabase(l));
      }
    }

    /** `Redis.subscribe(label, channels, handler)`: the label's emitter and its
        one `message` listener are created on the first call, then each channel
        in turn is counted, SUBSCRIBEd when its count is not positive and bound
        to the handler. The label must have a client: without one the source
        throws when the emitter is new, or at a channel whose count is not
        positive. */
    method Subscribe(labelArg: Option<string>, channels: seq<string>, h: Handler)
      requires Valid() && OverloadLabel(labelArg) in connection
      modifies this
      ensures Valid()
      ensures Mux() == AfterSubscribe(old(Mux()), OverloadLabel(labelArg), channels, h, PrefixOf(old(prefix)))
      ensures connection == old(connection) && pending == old(pending) && settled == old(settled) && clientsCreated == old(clientsCreated)
      ensures prefix == old(prefix)
    {
      var l := OverloadLabel(labelArg);
      var p := PrefixOf(prefix);
      if l !in emitters {
        emitters := emitters + {l};
        listenerLog := listenerLog + [l];
      }
      ghost var start := Mux();
      assert start == AddEmitter(old(Mux()), l);
      for i := 0 to |channels|
        invariant Mux() == SubscribeChannels(start, l, channels[..i], h, p)
        invariant connection == old(connection) && pending == old(pending) && settled == old(settled) && clientsCreated == old(clientsCreated)
        invariant prefix == old(prefix)
      {
        SubscribeOne(l, channels[i], h, p);
        assert channels[..i + 1][..i] == channels[..i];
      }
      assert channels[..|channels|] == channels;
      AddEmitterKeepsInv(old(Mux()), l);
      SubscribeChannelsKeepsInv(start, l, channels, h, p);
    }

    /** One channel of `subscribe`'s loop: make sure the label's table and the
        channel's number exist, SUBSCRIBE when the number is not positive, count
        the subscription and bind the handler. */
    method SubscribeOne(l: string, c: string, h: Handler, p: Option<string>)
      modifies this
      ensures Mux() == SubscribeChannel(old(Mux()), l, c, h, p)
      ensures connection == old(connection) && pending == old(pending) && settled == old(settled) && clientsCreated == old(clientsCreated)
      ensures prefix == old(prefix)
    {
      var k := (l, c);
      var n := if k in counts then counts[k] else 0;
      var sent := if n <= 0 then [Cmd.Subscribe(l, Prefixed(p, c))] else [];
      var hs := if k in handlers then handlers[k] else [];
      countTables, counts, log, handlers := countTables + {l}, counts[k := n + 1], log + sent, handlers[k := hs + [h]];
    }

    /** `Redis.unsubscribe(label, channels, handler)`: for each channel in turn
        the handler is unbound once, the count follows, and UNSUBSCRIBE is sent
        when the count is not positive. A label whose client is gone (after a
        late connect error or a disconnect) gets through every channel that
        sends nothing, and throws at the first one that would send UNSUBSCRIBE;
        `threw` reports that. When channels are given, the label must have a
        subscription table (without one the source throws before any change). */
    method Unsubscribe(labelArg: Option<string>, channels: seq<string>, h: Handler) returns (threw: bool)
      requires Valid()
      requires channels != [] ==> OverloadLabel(labelArg) in countTables
      modifies this
      ensures Valid()
      ensures OverloadLabel(labelArg) in connection ==>
        !threw && Mux() == UnsubscribeChannels(old(Mux()), OverloadLabel(labelArg), channels, h, PrefixOf(old(prefix)))
      ensures OverloadLabel(labelArg) !in connection ==>
        (Mux(), threw) == UnsubscribeChannelsNoClient(old(Mux()), OverloadLabel(labelArg), channels, h, PrefixOf(old(prefix)))
      ensures connection == old(connection) && pending == old(pending) && settled == old(settled) && clientsCreated == old(clientsCreated)
      ensures prefix == old(prefix)
    {
      var l := OverloadLabel(labelArg);
      var p := PrefixOf(prefix);
      var connected := l in connection;
      threw := false;
      var i := 0;
      while i < |channels| && !threw
        invariant 0 <= i <= |channels|
        invariant connected ==> !threw && Mux() == UnsubscribeChannels(old(Mux()), l, channels[..i], h, p)
        invariant !connected ==> (Mux(), threw) == UnsubscribeChannelsNoClient(old(Mux()), l, channels[..i], h, p)
        invariant connection == old(connection) && pending == old(pending) && settled == old(settled) && clientsCreated == old(clientsCreated)
        invariant prefix == old(prefix)
      {
        threw := UnsubscribeOne(l, channels[i], h, p, connected);
        assert channels[..i + 1][..i] == channels[..i];
        i := i + 1;
      }
      if threw {
        UnsubscribeNoClientStops(old(Mux()), l, channels, h, p, i);
      } else {
        assert channels[..i] == channels;
      }
      if connected {
        UnsubscribeChannelsKeepsInv(old(Mux()), l, channels, h, p);
      } else {
        UnsubscribeNoClientKeepsInv(old(Mux()), l, channels, h, p);
      }
    }

    /** One channel of `unsubscribe`'s loop: unbind the handler once; if a
        listener went away, decrement the number; if the number is set and not
        positive, reset it to 0 and UNSUBSCRIBE on the label's client, or throw
        when the label has no client. */
    method UnsubscribeOne(l: string, c: string, h: Handler, p: Option<string>, connected: bool) returns (threw: bool)
      modifies this
      ensures var next := UnsubscribeChannel(old(Mux()), l, c, h, p);
        && threw == (!connected && next.log != old(log))
        && Mux() == if threw then next.(log := old(log)) else next
      ensures connection == old(connection) && pending == old(pending) && settled == old(settled) && clientsCreated == old(clientsCreated)
      ensures prefix == old(prefix)
    {
      var k := (l, c);
      var before := if k in handlers then handlers[k] else [];
      var after := RemoveLast(before, h);
      handlers := handlers[k := after];
      if |after| < |before| {
        counts := counts[k := (if k in counts then counts[k] else 0) - 1];
      }
      threw := false;
      if k in counts && counts[k] <= 0 {
        counts := counts[k := 0];
        if connected {
          log := log + [Cmd.Unsubscribe(l, Prefixed(p, c))];
        } else {
          threw := true;
        }
      }
    }

    /** The `message` listener of a label's client as written: the handlers
        of the channel `ChannelOfWire` extracts are called in order; a label
        that never subscribed has no listener. */
    function OnMessageAsWritten(connLabel: string, wire: string, message: string): (ds: seq<Delivery>)
      reads this
      ensures connLabel !in emitters ==> ds == []
      ensures connLabel in emitters ==> ds == Deliveries(Mux(), connLabel, ChannelOfWire(wire), message)
    {
      if connLabel in emitters then Deliveries(Mux(), connLabel, ChannelOfWire(wire), message) else []
    }

    /** The `message` listener as the prefix is meant to work: the configured
        prefix is stripped from the wire name, so a message published on
        `Prefix(c)` reaches exactly the handlers of `c`, whatever colons `c`
        and the prefix contain. */
    function OnMessage(connLabel: string, wire: string, message: string): (ds: seq<Delivery>)
      reads this
      ensures connLabel !in emitters ==> ds == []
      ensures connLabel in emitters ==> ds == Deliveries(Mux(), connLabel, StripPrefix(PrefixOf(prefix), wire), message)
    {
      if connLabel in emitters then Deliveries(Mux(), connLabel, StripPrefix(PrefixOf(prefix), wire), message) else []
    }
  }

  // ---------------------------------------------------------------------------
  // Scenarios

  /** Two `connect` calls on the default label, the second after the first
      client is ready: the second resolves with the pooled client, no second
      client is made, and one exit hook is registered. */
  method SequentialConnectsShareClient() returns (first: ConnectStart, second: ConnectStart, hooks: seq<Hook>)
    ensures first.Created? && second == Reused(first.client)
    ensures hooks == [RedisDisconnect(DefaultConnectionLabel)]
  {
    var pool := new Pool();
    var cleaner := new Cleaner.Coordinator();
    first := pool.Connect(Undefined);
    var _ := pool.OnReady(first.client, cleaner);
    second := pool.Connect(Str("main"));
    hooks := cleaner.onExitFunctions;
  }

  /** Two `connect` calls on one label before either client is ready: both
      make a client, the one ready last is the one pooled, and two exit hooks
      are registered for the label. */
  method OverlappingConnectsMakeTwoClients() returns (a: ConnectStart, b: ConnectStart, pooled: Client, hooks: seq<Hook>)
    ensures a.Created? && b.Created? && a.client != b.client
    ensures pooled == b.client
    ensures hooks == [RedisDisconnect("cache"), RedisDisconnect("cache")]
  {
    var pool := new Pool();
    var cleaner := new Cleaner.Coordinator();
    a := pool.Connect(Str("cache"));
    b := pool.Connect(Str("cache"));
    var _ := pool.OnReady(a.client, cleaner);
    var _ := pool.OnReady(b.client, cleaner);
    pooled := pool.connection["cache"];
    hooks := cleaner.onExitFunctions;
  }

  /** Two overlapping `connect` calls where the first client becomes ready and
      the second fails: the failure deletes the label, so the ready client is no
      longer pooled. */
  method LateConnectErrorUnpoolsReadyClient() returns (r: Option<Outcome>, stillPooled: bool)
    ensures r.Some? && r.value.Rejects? && !stillPooled
  {
    var pool := new Pool();
    var cleaner := new Cleaner.Coordinator();
    var a := pool.Connect(Str("cache"));
    var b := pool.Connect(Str("cache"));
    var _ := pool.OnReady(a.client, cleaner);
    r := pool.OnConnectError(b.client, ErrorObject("Error", "connect ECONNREFUSED"));
    stillPooled := "cache" in pool.connection;
  }

  /** A client that reports `error` and later `ready` (the driver reconnects):
      `connect` rejects, yet the client is pooled under the label and a
      disconnect hook is registered for it. */
  method RejectedConnectStillPools() returns (a: ConnectStart, first: Option<Outcome>, second: Option<Client>, pooled: Client, hooks: seq<Hook>)
    ensures a.Created? && first == Some(Rejects(ErrorObject("Error", "connect ECONNREFUSED")))
    ensures second == None
    ensures pooled == a.client && hooks == [RedisDisconnect(DefaultConnectionLabel)]
  {
    var pool := new Pool();
    var cleaner := new Cleaner.Coordinator();
    a := pool.Connect(Undefined);
    first := pool.OnConnectError(a.client, ErrorObject("Error", "connect ECONNREFUSED"));
    second := pool.OnReady(a.client, cleaner);
    pooled := pool.connection[DefaultConnectionLabel];
    hooks := cleaner.onExitFunctions;
  }

  /** A failed client keeps its `error` listener: after a retried `connect`
      has pooled a new client for the label, a second `error` of the failed
      one deletes the label again, and its promise does not change. */
  method RepeatedErrorUnpoolsLaterClient() returns (again: Option<Outcome>, stillPooled: bool)
    ensures again == None && !stillPooled
  {
    var pool := new Pool();
    var cleaner := new Cleaner.Coordinator();
    var a := pool.Connect(Str("cache"));
    var _ := pool.OnConnectError(a.client, ErrorObject("Error", "connect ECONNREFUSED"));
    var b := pool.Connect(Str("cache"));
    var _ := pool.OnReady(b.client, cleaner);
    again := pool.OnConnectError(a.client, ErrorObject("Error", "connection lost"));
    stillPooled := "cache" in pool.connection;
  }

  /** With the intended error listener, a failed `connect` leaves the pool
      clean: the label holds no client, no hook is registered, and the client
      listens for nothing more, so it can never be pooled. */
  method FailedConnectLeavesPoolClean() returns (r: Option<Outcome>, pooled: bool, listening: bool, hooks: seq<Hook>)
    ensures r == Some(Rejects(ErrorObject("Error", "connect ECONNREFUSED")))
    ensures !pooled && !listening && hooks == []
  {
    var pool := new Pool();
    var cleaner := new Cleaner.Coordinator();
    var a := pool.Connect(Undefined);
    r := pool.OnConnectErrorDetached(a.client, ErrorObject("Error", "connect ECONNREFUSED"));
    pooled := DefaultConnectionLabel in pool.connection;
    listening := a.client in pool.pending;
    hooks := cleaner.onExitFunctions;
  }

  /** `disconnect` as written on a connected label: it resolves, but sends no
      QUIT and the client stays pooled. */
  method DisconnectAsWrittenKeepsClient() returns (r: Outcome, stillPooled: bool, sent: seq<Cmd>)
    ensures r == Resolves(Null) && stillPooled && sent == []
  {
    var pool := new Pool();
    var cleaner := new Cleaner.Coordinator();
    var a := pool.Connect(Undefined);
    var _ := pool.OnReady(a.client, cleaner);
    r := pool.DisconnectAsWritten(Undefined);
    stillPooled := DefaultConnectionLabel in pool.connection;
    sent := pool.log;
  }

  /** `disconnect` as written on a label that was never connected rejects
      instead of resolving. */
  method DisconnectAsWrittenRejectsUnknownLabel() returns (r: Outcome)
    ensures r == Rejects(TypeErrorValue)
  {
    var pool := new Pool();
    r := pool.DisconnectAsWritten(Str("cache"));
  }

  /** The documented `disconnect` on a connected label: QUIT is sent and the
      label leaves the pool. */
  method DisconnectClosesClient() returns (r: Outcome, stillPooled: bool, sent: seq<Cmd>)
    ensures r == Resolves(Null) && !stillPooled && sent == [Quit(DefaultConnectionLabel)]
  {
    var pool := new Pool();
    var cleaner := new Cleaner.Coordinator();
    var a := pool.Connect(Undefined);
    var _ := pool.OnReady(a.client, cleaner);
    r := pool.Disconnect(Undefined);
    stillPooled := DefaultConnectionLabel in pool.connection;
    sent := pool.log;
  }

  /** With prefix "env", publishing on "env-topic" sends the wire key
      "env:env-topic". */
  lemma EnvTopicWireName()
    ensures Prefixed(Some("env"), "env-topic") == "env:env-topic"
  {
  }

  method PublishUnderPrefix() returns (r: Outcome, sent: seq<Cmd>)
    ensures r == Resolves(Number(1))
    ensures sent == [Cmd.Publish("main", "env:env-topic", "hello")]
  {
    var pool := new Pool();
    var cleaner := new Cleaner.Coordinator();
    var _ := pool.SetPrefix(Str("env"));
    var a := pool.Connect(Undefined);
    var _ := pool.OnReady(a.client, cleaner);
    r := pool.Publish(None, "env-topic", "hello", Null, Number(1));
    EnvTopicWireName();
    sent := pool.log;
  }

  /** How a Redis exit hook decides Cleaner.js's exit code when it is the only
      hook: a resolved `disconnect` gives 0, a rejected one (such as the
      TypeError of `disconnect` as written on a label without a client) gives
      1. */
  lemma DisconnectHookExitCode(r: Outcome)
    requires r.Resolves? || Truthy(r.error)
    ensures r.Resolves? ==> Cleaner.ExitCode([DisconnectHookRun(r)]) == ExitWith(0)
    ensures r.Rejects? ==> Cleaner.ExitCode([DisconnectHookRun(r)]) == ExitWith(1)
  {
    var runs := [DisconnectHookRun(r)];
    if r.Rejects? {
      assert Wrapped(runs[0]).Rejected?;
    }
  }
}
