/** The reference-counted pub/sub multiplexer of Redis.js (`subscribe`,
    `unsubscribe` and the message listener), as functions of its state. The
    source's two nested tables `_subscribeCounts[label][channel]` and the
    per-label event emitters are flattened into maps keyed by
    (connection label, channel). */
module Multiplexer {
  import opened Hooks
  import opened KeyPrefix
  import opened RedisCommands

  /** A subscriber's callback, identified by an id; the same id may be added
      several times. */
  type Handler = nat

  /** The multiplexer's state: the labels that have an event emitter, the
      labels on whose client a `message` listener was attached (in order), each
      emitter's listener list per channel, the labels that have a table in
      `_subscribeCounts`, the numbers in those tables, and the command log. */
  datatype Mux = Mux(
    emitters: set<string>,
    listenerLog: seq<string>,
    handlers: map<(string, string), seq<Handler>>,
    countTables: set<string>,
    counts: map<(string, string), int>,
    log: seq<Cmd>)

  /** One call of a handler by the message listener: `(channel, message)`. */
  datatype Delivery = Delivery(handler: Handler, channel: string, message: string)

  function Handlers(m: Mux, connLabel: string, channel: string): seq<Handler> {
    if (connLabel, channel) in m.handlers then m.handlers[(connLabel, channel)] else []
  }

  /** The number `_subscribeCounts[label][channel]` holds, 0 when unset. */
  function Count(m: Mux, connLabel: string, channel: string): int {
    if (connLabel, channel) in m.counts then m.counts[(connLabel, channel)] else 0
  }

  predicate NoDuplicates(s: seq<string>) {
    forall i, j :: 0 <= i < j < |s| ==> s[i] != s[j]
  }

  /** The invariant `subscribe` and `unsubscribe` keep: each set count equals
      the number of handlers of its channel (so it is never negative), a channel
      with handlers has a count, counts live in tables of labels that have an
      emitter, and each emitter label had exactly one `message` listener
      attached. */
  ghost predicate Inv(m: Mux) {
    && (forall k | k in m.counts :: k.0 in m.countTables && m.counts[k] == |Handlers(m, k.0, k.1)|)
    && (forall k | k in m.handlers && m.handlers[k] != [] :: k in m.counts)
    && m.countTables <= m.emitters
    && (forall l :: l in m.listenerLog <==> l in m.emitters)
    && NoDuplicates(m.listenerLog)
  }

  function Empty(): (m: Mux)
    ensures Inv(m)
  {
    Mux({}, [], map[], {}, map[], [])
  }

  /** Removes the most recently added occurrence of `h`, as an event emitter's
      `removeListener` does; a list without `h` is returned unchanged. */
  function RemoveLast(s: seq<Handler>, h: Handler): (r: seq<Handler>)
    ensures h !in s ==> r == s
    ensures |r| == if h in s then |s| - 1 else |s|
  {
    if s == [] then []
    else if s[|s| - 1] == h then s[..|s| - 1]
    else
      assert s == s[..|s| - 1] + [s[|s| - 1]];
      RemoveLast(s[..|s| - 1], h) + [s[|s| - 1]]
  }

  /** `RemoveLast` drops exactly the last occurrence: if `h` sits at `i` and not
      after it, the result is the list without position `i`. */
  lemma {:induction false} RemoveLastAt(s: seq<Handler>, h: Handler, i: nat)
    requires i < |s| && s[i] == h && h !in s[i + 1..]
    ensures RemoveLast(s, h) == s[..i] + s[i + 1..]
    decreases |s|
  {
    var last := |s| - 1;
    if i < last {
      var init := s[..last];
      assert s[last] in s[i + 1..];
      assert init[i + 1..] == s[i + 1..last];
      assert s[i + 1..] == init[i + 1..] + [s[last]];
      RemoveLastAt(init, h, i);
      assert s[i + 1..] == init[i + 1..] + [s[last]];
      assert s[..i] == init[..i];
      assert s == init + [s[last]];
    } else {
      assert s == s[..last] + [h];
    }
  }

  /** `RemoveLast` takes exactly one `h` out of the list's contents. */
  lemma RemoveLastContents(s: seq<Handler>, h: Handler)
    requires h in s
    ensures multiset(RemoveLast(s, h)) == multiset(s) - multiset{h}
  {
    var i := LastIndexOf(s, h);
    RemoveLastAt(s, h, i);
    var a, b := s[..i], s[i + 1..];
    assert s == a + [h] + b;
    assert multiset(s) == multiset(a) + multiset{h} + multiset(b);
    assert multiset(a + b) == multiset(a) + multiset(b);
  }

  /** The position of the last occurrence of `h`. */
  function LastIndexOf(s: seq<Handler>, h: Handler): (i: nat)
    requires h in s
    ensures i < |s| && s[i] == h && h !in s[i + 1..]
  {
    if s[|s| - 1] == h then |s| - 1
    else
      assert s == s[..|s| - 1] + [s[|s| - 1]];
      LastIndexOf(s[..|s| - 1], h)
  }

  /** `subscribe`, before its loop: creates the label's emitter and attaches
      the single `message` listener to the label's client, once per label
      (Redis.js lines 214-222). */
  function AddEmitter(m: Mux, connLabel: string): (r: Mux)
    ensures r.emitters == m.emitters + {connLabel}
    ensures connLabel in m.emitters ==> r == m
    ensures r.handlers == m.handlers && r.countTables == m.countTables && r.counts == m.counts && r.log == m.log
  {
    if connLabel in m.emitters then m
    else m.(emitters := m.emitters + {connLabel}, listenerLog := m.listenerLog + [connLabel])
  }

  /** One iteration of `subscribe`'s loop (Redis.js lines 228-244): make sure a
      table and a number exist, send SUBSCRIBE for the prefixed channel when
      the number is not positive, count the subscription and add the handler. */
  function SubscribeChannel(m: Mux, connLabel: string, channel: string, h: Handler, prefix: Option<string>): (r: Mux)
    ensures r.emitters == m.emitters && r.listenerLog == m.listenerLog && r.countTables == m.countTables + {connLabel}
    ensures Count(r, connLabel, channel) == Count(m, connLabel, channel) + 1
  {
    var n := Count(m, connLabel, channel);
    m.(countTables := m.countTables + {connLabel},
       counts := m.counts[(connLabel, channel) := n + 1],
       log := if n <= 0 then m.log + [Subscribe(connLabel, Prefixed(prefix, channel))] else m.log,
       handlers := m.handlers[(connLabel, channel) := Handlers(m, connLabel, channel) + [h]])
  }

  /** `subscribe`'s loop over the channels, in order. */
  function SubscribeChannels(m: Mux, connLabel: string, channels: seq<string>, h: Handler, prefix: Option<string>): (r: Mux)
    ensures r.emitters == m.emitters && r.listenerLog == m.listenerLog
    ensures r.countTables == if channels == [] then m.countTables else m.countTables + {connLabel}
    decreases |channels|
  {
    if channels == [] then m
    else
      var last := |channels| - 1;
      SubscribeChannel(SubscribeChannels(m, connLabel, channels[..last], h, prefix), connLabel, channels[last], h, prefix)
  }

  /** `Redis.subscribe(label, channels, handler)` with the prefix of the time. */
  function AfterSubscribe(m: Mux, connLabel: string, channels: seq<string>, h: Handler, prefix: Option<string>): (r: Mux)
    ensures r.emitters == m.emitters + {connLabel}
    ensures channels != [] ==> connLabel in r.countTables
  {
    SubscribeChannels(AddEmitter(m, connLabel), connLabel, channels, h, prefix)
  }

  /** One iteration of `unsubscribe`'s loop (Redis.js lines 270-287): remove the
      handler once; if the list shrank, decrement the number; if the number is
      then set and not positive, reset it to 0 and send UNSUBSCRIBE. An unset
      number (`undefined <= 0` is false) sends nothing. */
  function UnsubscribeChannel(m: Mux, connLabel: string, channel: string, h: Handler, prefix: Option<string>): (r: Mux)
    ensures r.emitters == m.emitters && r.listenerLog == m.listenerLog && r.countTables == m.countTables
    ensures r.log == m.log || r.log == m.log + [Unsubscribe(connLabel, Prefixed(prefix, channel))]
  {
    var k := (connLabel, channel);
    var before := Handlers(m, connLabel, channel);
    var after := RemoveLast(before, h);
    var counts1 := if |after| < |before| then m.counts[k := Count(m, connLabel, channel) - 1] else m.counts;
    var drop := k in counts1 && counts1[k] <= 0;
    m.(handlers := m.handlers[k := after],
       counts := if drop then counts1[k := 0] else counts1,
       log := if drop then m.log + [Unsubscribe(connLabel, Prefixed(prefix, channel))] else m.log)
  }

  /** `unsubscribe`'s loop over the channels, in order. */
  function UnsubscribeChannels(m: Mux, connLabel: string, channels: seq<string>, h: Handler, prefix: Option<string>): (r: Mux)
    ensures r.emitters == m.emitters && r.listenerLog == m.listenerLog && r.countTables == m.countTables
    ensures |r.log| >= |m.log| && r.log[..|m.log|] == m.log
    decreases |channels|
  {
    if channels == [] then m
    else
      var last := |channels| - 1;
      UnsubscribeChannel(UnsubscribeChannels(m, connLabel, channels[..last], h, prefix), connLabel, channels[last], h, prefix)
  }

  /** `unsubscribe`'s loop on a label whose client is gone: each channel is
      handled as with a client until the first one whose step would send
      UNSUBSCRIBE. That step still resets the number to 0 (Redis.js line 285),
      but reading `unsubscribe` of the missing client throws (line 286), so
      nothing is sent and the loop ends there. The flag says whether the call
      threw. */
  function UnsubscribeChannelsNoClient(m: Mux, connLabel: string, channels: seq<string>, h: Handler, prefix: Option<string>): (r: (Mux, bool))
    ensures r.0.log == m.log
    ensures r.0.emitters == m.emitters && r.0.listenerLog == m.listenerLog && r.0.countTables == m.countTables
    decreases |channels|
  {
    if channels == [] then (m, false)
    else
      var last := |channels| - 1;
      var before := UnsubscribeChannelsNoClient(m, connLabel, channels[..last], h, prefix);
      if before.1 then before
      else
        var next := UnsubscribeChannel(before.0, connLabel, channels[last], h, prefix);
        if next.log == before.0.log then (next, false) else (next.(log := before.0.log), true)
  }

  /** What the label's `message` listener does once it has a bare channel
      name: every handler of that channel is called, in registration order,
      with the channel and the message. */
  function Deliveries(m: Mux, connLabel: string, channel: string, message: string): (r: seq<Delivery>)
    ensures var hs := Handlers(m, connLabel, channel);
      |r| == |hs| && forall i :: 0 <= i < |r| ==> r[i] == Delivery(hs[i], channel, message)
  {
    var hs := Handlers(m, connLabel, channel);
    seq(|hs|, i requires 0 <= i < |hs| => Delivery(hs[i], channel, message))
  }

  // ---------------------------------------------------------------------------
  // What one iteration does

  /** Under the invariant, a channel's number is its number of handlers (0 and
      no handler when unset). */
  lemma CountIsHandlers(m: Mux, connLabel: string, channel: string)
    requires Inv(m)
    ensures Count(m, connLabel, channel) == |Handlers(m, connLabel, channel)|
  {
    var k := (connLabel, channel);
    if k in m.counts {
      assert m.counts[k] == |Handlers(m, k.0, k.1)|;
    } else if k in m.handlers {
      assert m.handlers[k] == [];
    }
  }

  /** One `subscribe` step: the handler is appended, the count grows by exactly
      one, SUBSCRIBE is sent exactly when the channel had no handler on the
      label (the count goes from 0 to 1). */
  lemma SubscribeChannelEffect(m: Mux, connLabel: string, channel: string, h: Handler, prefix: Option<string>)
    requires Inv(m)
    ensures var r := SubscribeChannel(m, connLabel, channel, h, prefix);
      && Handlers(r, connLabel, channel) == Handlers(m, connLabel, channel) + [h]
      && Count(r, connLabel, channel) == Count(m, connLabel, channel) + 1
      && r.log == m.log + (if Handlers(m, connLabel, channel) == [] then [Subscribe(connLabel, Prefixed(prefix, channel))] else [])
  {
    CountIsHandlers(m, connLabel, channel);
  }

  /** One `unsubscribe` step: the handler is removed once if present; the count
      drops by exactly one when it was present and stays otherwise; it is never
      negative; UNSUBSCRIBE is sent exactly when the channel has a count and no
      handler is left, whether or not a handler was removed. */
  lemma UnsubscribeChannelEffect(m: Mux, connLabel: string, channel: string, h: Handler, prefix: Option<string>)
    requires Inv(m)
    ensures var r := UnsubscribeChannel(m, connLabel, channel, h, prefix);
      && Handlers(r, connLabel, channel) == RemoveLast(Handlers(m, connLabel, channel), h)
      && Count(r, connLabel, channel) == (if h in Handlers(m, connLabel, channel) then Count(m, connLabel, channel) - 1 else Count(m, connLabel, channel))
      && Count(r, connLabel, channel) >= 0
      && r.log == m.log + (if (connLabel, channel) in m.counts && Handlers(r, connLabel, channel) == []
                           then [Unsubscribe(connLabel, Prefixed(prefix, channel))] else [])
  {
    CountIsHandlers(m, connLabel, channel);
  }

  /** Both steps touch only their own (label, channel). */
  lemma ChannelStepsAreLocal(m: Mux, connLabel: string, channel: string, h: Handler, prefix: Option<string>, l: string, c: string)
    requires (l, c) != (connLabel, channel)
    ensures var r := SubscribeChannel(m, connLabel, channel, h, prefix);
      Handlers(r, l, c) == Handlers(m, l, c) && Count(r, l, c) == Count(m, l, c)
    ensures var r := UnsubscribeChannel(m, connLabel, channel, h, prefix);
      Handlers(r, l, c) == Handlers(m, l, c) && Count(r, l, c) == Count(m, l, c)
  {
  }

  // ---------------------------------------------------------------------------
  // The invariant is kept

  lemma SubscribeChannelKeepsInv(m: Mux, connLabel: string, channel: string, h: Handler, prefix: Option<string>)
    requires Inv(m) && connLabel in m.emitters
    ensures Inv(SubscribeChannel(m, connLabel, channel, h, prefix))
  {
    var r := SubscribeChannel(m, connLabel, channel, h, prefix);
    SubscribeChannelEffect(m, connLabel, channel, h, prefix);
    forall k | k in r.counts
      ensures k.0 in r.countTables && r.counts[k] == |Handlers(r, k.0, k.1)|
    {
      if k != (connLabel, channel) {
        ChannelStepsAreLocal(m, connLabel, channel, h, prefix, k.0, k.1);
      }
    }
  }

  lemma {:induction false} SubscribeChannelsKeepsInv(m: Mux, connLabel: string, channels: seq<string>, h: Handler, prefix: Option<string>)
    requires Inv(m) && connLabel in m.emitters
    ensures var r := SubscribeChannels(m, connLabel, channels, h, prefix);
      Inv(r) && connLabel in r.emitters && r.emitters == m.emitters && r.listenerLog == m.listenerLog
    decreases |channels|
  {
    if channels != [] {
      var last := |channels| - 1;
      SubscribeChannelsKeepsInv(m, connLabel, channels[..last], h, prefix);
      SubscribeChannelKeepsInv(SubscribeChannels(m, connLabel, channels[..last], h, prefix), connLabel, channels[last], h, prefix);
    }
  }

  lemma AddEmitterKeepsInv(m: Mux, connLabel: string)
    requires Inv(m)
    ensures var r := AddEmitter(m, connLabel);
      Inv(r) && connLabel in r.emitters && r.handlers == m.handlers && r.counts == m.counts && r.log == m.log
  {
    var r := AddEmitter(m, connLabel);
    if connLabel !in m.emitters {
      assert connLabel !in m.listenerLog;
      forall i, j | 0 <= i < j < |r.listenerLog| ensures r.listenerLog[i] != r.listenerLog[j] {
        if j == |m.listenerLog| {
          assert r.listenerLog[i] == m.listenerLog[i];
        }
      }
    }
  }

  /** `subscribe` keeps the invariant; in particular every label has at most one
      `message` listener, however many times it subscribes. */
  lemma SubscribeKeepsInv(m: Mux, connLabel: string, channels: seq<string>, h: Handler, prefix: Option<string>)
    requires Inv(m)
    ensures Inv(AfterSubscribe(m, connLabel, channels, h, prefix))
  {
    AddEmitterKeepsInv(m, connLabel);
    SubscribeChannelsKeepsInv(AddEmitter(m, connLabel), connLabel, channels, h, prefix);
  }

  lemma UnsubscribeChannelKeepsInv(m: Mux, connLabel: string, channel: string, h: Handler, prefix: Option<string>)
    requires Inv(m)
    ensures var r := UnsubscribeChannel(m, connLabel, channel, h, prefix);
      Inv(r) && r.emitters == m.emitters && r.listenerLog == m.listenerLog && r.countTables == m.countTables
  {
    var r := UnsubscribeChannel(m, connLabel, channel, h, prefix);
    var k := (connLabel, channel);
    UnsubscribeChannelEffect(m, connLabel, channel, h, prefix);
    forall k' | k' in r.counts
      ensures k'.0 in r.countTables && r.counts[k'] == |Handlers(r, k'.0, k'.1)|
    {
      if k' != k {
        ChannelStepsAreLocal(m, connLabel, channel, h, prefix, k'.0, k'.1);
      } else {
        assert k in m.counts;
        assert m.counts[k] == |Handlers(m, connLabel, channel)|;
      }
    }
    forall k' | k' in r.handlers && r.handlers[k'] != []
      ensures k' in r.counts
    {
      if k' == k {
        assert |Handlers(m, connLabel, channel)| > 0;
      }
    }
  }

  /** `unsubscribe` keeps the invariant; in particular no count ever becomes
      negative. */
  lemma {:induction false} UnsubscribeChannelsKeepsInv(m: Mux, connLabel: string, channels: seq<string>, h: Handler, prefix: Option<string>)
    requires Inv(m)
    ensures var r := UnsubscribeChannels(m, connLabel, channels, h, prefix);
      Inv(r) && r.emitters == m.emitters && r.listenerLog == m.listenerLog && r.countTables == m.countTables
    decreases |channels|
  {
    if channels != [] {
      var last := |channels| - 1;
      UnsubscribeChannelsKeepsInv(m, connLabel, channels[..last], h, prefix);
      UnsubscribeChannelKeepsInv(UnsubscribeChannels(m, connLabel, channels[..last], h, prefix), connLabel, channels[last], h, prefix);
    }
  }

  // ---------------------------------------------------------------------------
  // Whole calls

  function Occurrences(channels: seq<string>, c: string): nat {
    |set i | 0 <= i < |channels| && channels[i] == c|
  }

  function Repeat(h: Handler, n: nat): (r: seq<Handler>)
    ensures |r| == n && forall i :: 0 <= i < n ==> r[i] == h
  {
    if n == 0 then [] else Repeat(h, n - 1) + [h]
  }

  lemma RepeatOneMore(h: Handler, n: nat)
    ensures multiset(Repeat(h, n + 1)) == multiset(Repeat(h, n)) + multiset{h}
  {
    assert Repeat(h, n + 1) == Repeat(h, n) + [h];
  }

  /** Counting one more channel at the end of the list. */
  lemma OccurrencesSnoc(channels: seq<string>, x: string, c: string)
    ensures Occurrences(channels + [x], c) == Occurrences(channels, c) + (if x == c then 1 else 0)
  {
    var s := channels + [x];
    var a := set i | 0 <= i < |channels| && channels[i] == c;
    var b := set i | 0 <= i < |s| && s[i] == c;
    if x == c {
      assert b == a + {|channels|};
    } else {
      assert b == a;
    }
  }

  /** A whole `subscribe` call counts each channel once per listing. */
  lemma {:induction false} SubscribeChannelsCounts(m: Mux, connLabel: string, channels: seq<string>, h: Handler, prefix: Option<string>, c: string)
    requires Inv(m) && connLabel in m.emitters
    ensures Count(SubscribeChannels(m, connLabel, channels, h, prefix), connLabel, c) == Count(m, connLabel, c) + Occurrences(channels, c)
    decreases |channels|
  {
    if channels != [] {
      var last := |channels| - 1;
      var init := channels[..last];
      var x := channels[last];
      assert channels == init + [x];
      var mid := SubscribeChannels(m, connLabel, init, h, prefix);
      SubscribeChannelsCounts(m, connLabel, init, h, prefix, c);
      SubscribeChannelsKeepsInv(m, connLabel, init, h, prefix);
      OccurrencesSnoc(init, x, c);
      if c == x {
        SubscribeChannelEffect(mid, connLabel, x, h, prefix);
      } else {
        ChannelStepsAreLocal(mid, connLabel, x, h, prefix, connLabel, c);
      }
    }
  }

  /** A whole `subscribe` call appends the handler to each channel once per
      listing. */
  lemma {:induction false} SubscribeChannelsHandlers(m: Mux, connLabel: string, channels: seq<string>, h: Handler, prefix: Option<string>, c: string)
    ensures Handlers(SubscribeChannels(m, connLabel, channels, h, prefix), connLabel, c) ==
      Handlers(m, connLabel, c) + Repeat(h, Occurrences(channels, c))
    decreases |channels|
  {
    if channels != [] {
      var last := |channels| - 1;
      var init := channels[..last];
      var x := channels[last];
      assert channels == init + [x];
      var mid := SubscribeChannels(m, connLabel, init, h, prefix);
      SubscribeChannelsHandlers(m, connLabel, init, h, prefix, c);
      OccurrencesSnoc(init, x, c);
      if c == x {
        assert Repeat(h, Occurrences(init, c) + 1) == Repeat(h, Occurrences(init, c)) + [h];
      } else {
        ChannelStepsAreLocal(mid, connLabel, x, h, prefix, connLabel, c);
      }
    }
  }

  /** A whole `subscribe` call changes nothing for other labels. */
  lemma {:induction false} SubscribeChannelsOtherLabels(m: Mux, connLabel: string, channels: seq<string>, h: Handler, prefix: Option<string>, l: string, c: string)
    requires l != connLabel
    ensures var r := SubscribeChannels(m, connLabel, channels, h, prefix);
      Count(r, l, c) == Count(m, l, c) && Handlers(r, l, c) == Handlers(m, l, c)
    decreases |channels|
  {
    if channels != [] {
      var last := |channels| - 1;
      SubscribeChannelsOtherLabels(m, connLabel, channels[..last], h, prefix, l, c);
      ChannelStepsAreLocal(SubscribeChannels(m, connLabel, channels[..last], h, prefix), connLabel, channels[last], h, prefix, l, c);
    }
  }

  /** A whole `unsubscribe` call changes nothing for other labels, nor for
      the channels it does not list. */
  lemma {:induction false} UnsubscribeChannelsElsewhere(m: Mux, connLabel: string, channels: seq<string>, h: Handler, prefix: Option<string>, l: string, c: string)
    requires l != connLabel || c !in channels
    ensures var r := UnsubscribeChannels(m, connLabel, channels, h, prefix);
      Count(r, l, c) == Count(m, l, c) && Handlers(r, l, c) == Handlers(m, l, c)
    decreases |channels|
  {
    if channels != [] {
      var last := |channels| - 1;
      assert channels == channels[..last] + [channels[last]];
      UnsubscribeChannelsElsewhere(m, connLabel, channels[..last], h, prefix, l, c);
      ChannelStepsAreLocal(UnsubscribeChannels(m, connLabel, channels[..last], h, prefix), connLabel, channels[last], h, prefix, l, c);
    }
  }

  /** Removing one copy of `h` from a list whose multiset is `a - r` leaves
      `a - (r + {h})`, whether or not a copy was left. */
  lemma RemoveLastFromDifference(s: seq<Handler>, h: Handler, a: multiset<Handler>, rm: multiset<Handler>)
    requires multiset(s) == a - rm
    ensures multiset(RemoveLast(s, h)) == a - (rm + multiset{h})
  {
    if h in s {
      RemoveLastContents(s, h);
    } else {
      assert multiset(s)[h] == 0;
    }
  }

  /** One unsubscribe step on the channel removes one more copy of `h`. */
  lemma UnsubscribeStepHandlers(m: Mux, connLabel: string, c: string, h: Handler, prefix: Option<string>, a: multiset<Handler>, rm: multiset<Handler>)
    requires multiset(Handlers(m, connLabel, c)) == a - rm
    ensures multiset(Handlers(UnsubscribeChannel(m, connLabel, c, h, prefix), connLabel, c)) == a - (rm + multiset{h})
  {
    var r := UnsubscribeChannel(m, connLabel, c, h, prefix);
    assert Handlers(r, connLabel, c) == RemoveLast(Handlers(m, connLabel, c), h);
    RemoveLastFromDifference(Handlers(m, connLabel, c), h, a, rm);
  }

  /** Listing the channel once more at the end removes one more copy. */
  lemma UnsubscribeSnocSame(m: Mux, connLabel: string, init: seq<string>, c: string, h: Handler, prefix: Option<string>)
    requires multiset(Handlers(UnsubscribeChannels(m, connLabel, init, h, prefix), connLabel, c)) ==
      multiset(Handlers(m, connLabel, c)) - multiset(Repeat(h, Occurrences(init, c)))
    ensures multiset(Handlers(UnsubscribeChannels(m, connLabel, init + [c], h, prefix), connLabel, c)) ==
      multiset(Handlers(m, connLabel, c)) - multiset(Repeat(h, Occurrences(init + [c], c)))
  {
    var channels := init + [c];
    assert channels[..|channels| - 1] == init;
    var mid := UnsubscribeChannels(m, connLabel, init, h, prefix);
    assert UnsubscribeChannels(m, connLabel, channels, h, prefix) == UnsubscribeChannel(mid, connLabel, c, h, prefix);
    var n := Occurrences(init, c);
    OccurrencesSnoc(init, c, c);
    RepeatOneMore(h, n);
    UnsubscribeStepHandlers(mid, connLabel, c, h, prefix, multiset(Handlers(m, connLabel, c)), multiset(Repeat(h, n)));
  }

  /** Listing another channel at the end leaves this one's handlers alone. */
  lemma UnsubscribeSnocOther(m: Mux, connLabel: string, init: seq<string>, x: string, h: Handler, prefix: Option<string>, c: string)
    requires x != c
    ensures Handlers(UnsubscribeChannels(m, connLabel, init + [x], h, prefix), connLabel, c) ==
      Handlers(UnsubscribeChannels(m, connLabel, init, h, prefix), connLabel, c)
    ensures Occurrences(init + [x], c) == Occurrences(init, c)
  {
    var channels := init + [x];
    assert channels[..|channels| - 1] == init;
    var mid := UnsubscribeChannels(m, connLabel, init, h, prefix);
    assert UnsubscribeChannels(m, connLabel, channels, h, prefix) == UnsubscribeChannel(mid, connLabel, x, h, prefix);
    OccurrencesSnoc(init, x, c);
    ChannelStepsAreLocal(mid, connLabel, x, h, prefix, connLabel, c);
  }

  /** A whole `unsubscribe` call removes one copy of the handler from a
      channel per listing of that channel, as long as copies are left. */
  lemma {:induction false} UnsubscribeChannelsHandlers(m: Mux, connLabel: string, channels: seq<string>, h: Handler, prefix: Option<string>, c: string)
    ensures multiset(Handlers(UnsubscribeChannels(m, connLabel, channels, h, prefix), connLabel, c)) ==
      multiset(Handlers(m, connLabel, c)) - multiset(Repeat(h, Occurrences(channels, c)))
    decreases |channels|
  {
    if channels == [] {
      assert Occurrences(channels, c) == 0;
    } else {
      var last := |channels| - 1;
      assert channels == channels[..last] + [channels[last]];
      UnsubscribeChannelsHandlers(m, connLabel, channels[..last], h, prefix, c);
      if channels[last] == c {
        UnsubscribeSnocSame(m, connLabel, channels[..last], c, h, prefix);
      } else {
        UnsubscribeSnocOther(m, connLabel, channels[..last], channels[last], h, prefix, c);
      }
    }
  }

  /** After a whole `unsubscribe` call, a channel's count is the number of
      handlers left: its old handlers less one copy of `h` per listing. */
  lemma UnsubscribeChannelsCounts(m: Mux, connLabel: string, channels: seq<string>, h: Handler, prefix: Option<string>, c: string)
    requires Inv(m)
    ensures Count(UnsubscribeChannels(m, connLabel, channels, h, prefix), connLabel, c) ==
      |multiset(Handlers(m, connLabel, c)) - multiset(Repeat(h, Occurrences(channels, c)))|
  {
    var r := UnsubscribeChannels(m, connLabel, channels, h, prefix);
    UnsubscribeChannelsKeepsInv(m, connLabel, channels, h, prefix);
    CountIsHandlers(r, connLabel, c);
    UnsubscribeChannelsHandlers(m, connLabel, channels, h, prefix, c);
  }

  /** Without a client, `unsubscribe` throws exactly when the same call with a
      client would have sent some UNSUBSCRIBE; when it does not throw, it does
      exactly what the call with a client does. */
  lemma {:induction false} UnsubscribeNoClientThrowsIffCommandDue(m: Mux, connLabel: string, channels: seq<string>, h: Handler, prefix: Option<string>)
    ensures var r := UnsubscribeChannelsNoClient(m, connLabel, channels, h, prefix);
      var withClient := UnsubscribeChannels(m, connLabel, channels, h, prefix);
      && (r.1 <==> withClient.log != m.log)
      && (!r.1 ==> r.0 == withClient)
    decreases |channels|
  {
    if channels != [] {
      var last := |channels| - 1;
      UnsubscribeNoClientThrowsIffCommandDue(m, connLabel, channels[..last], h, prefix);
      var wc := UnsubscribeChannels(m, connLabel, channels[..last], h, prefix);
      if wc.log != m.log {
        assert |wc.log| > |m.log|;
      }
    }
  }

  /** Without a client, `unsubscribe` keeps the invariant, also when it throws. */
  lemma {:induction false} UnsubscribeNoClientKeepsInv(m: Mux, connLabel: string, channels: seq<string>, h: Handler, prefix: Option<string>)
    requires Inv(m)
    ensures Inv(UnsubscribeChannelsNoClient(m, connLabel, channels, h, prefix).0)
    decreases |channels|
  {
    if channels != [] {
      var last := |channels| - 1;
      UnsubscribeNoClientKeepsInv(m, connLabel, channels[..last], h, prefix);
      var before := UnsubscribeChannelsNoClient(m, connLabel, channels[..last], h, prefix);
      UnsubscribeChannelKeepsInv(before.0, connLabel, channels[last], h, prefix);
    }
  }

  /** Once the loop without a client has thrown, the channels after that point
      are never reached. */
  lemma {:induction false} UnsubscribeNoClientStops(m: Mux, connLabel: string, channels: seq<string>, h: Handler, prefix: Option<string>, k: nat)
    requires k <= |channels| && UnsubscribeChannelsNoClient(m, connLabel, channels[..k], h, prefix).1
    ensures UnsubscribeChannelsNoClient(m, connLabel, channels, h, prefix) == UnsubscribeChannelsNoClient(m, connLabel, channels[..k], h, prefix)
    decreases |channels|
  {
    if k < |channels| {
      var last := |channels| - 1;
      assert channels[..last][..k] == channels[..k];
      UnsubscribeNoClientStops(m, connLabel, channels[..last], h, prefix, k);
    } else {
      assert channels[..k] == channels;
    }
  }

  /** Two `subscribe` calls of one channel on a fresh multiplexer. */
  lemma TwoSubscribers(connLabel: string, c: string, h1: Handler, h2: Handler, prefix: Option<string>)
    ensures var m := AfterSubscribe(AfterSubscribe(Empty(), connLabel, [c], h1, prefix), connLabel, [c], h2, prefix);
      Inv(m) && Handlers(m, connLabel, c) == [h1, h2]
  {
    var m1 := AfterSubscribe(Empty(), connLabel, [c], h1, prefix);
    SubscribeKeepsInv(Empty(), connLabel, [c], h1, prefix);
    SubscribeKeepsInv(m1, connLabel, [c], h2, prefix);
    var a := AddEmitter(Empty(), connLabel);
    assert [c][..0] == [];
    assert SubscribeChannels(a, connLabel, [c], h1, prefix) == SubscribeChannel(a, connLabel, c, h1, prefix);
    assert Handlers(m1, connLabel, c) == [h1];
    assert AddEmitter(m1, connLabel) == m1;
    assert SubscribeChannels(m1, connLabel, [c], h2, prefix) == SubscribeChannel(m1, connLabel, c, h2, prefix);
  }

  /** `unsubscribe` of a single channel without a client is one step. */
  lemma UnsubscribeOneChannelNoClient(m: Mux, connLabel: string, c: string, h: Handler, prefix: Option<string>)
    ensures var next := UnsubscribeChannel(m, connLabel, c, h, prefix);
      UnsubscribeChannelsNoClient(m, connLabel, [c], h, prefix) ==
        if next.log == m.log then (next, false) else (next.(log := m.log), true)
  {
    assert [c][..0] == [];
  }

  /** Without a client, removing one of two handlers from a channel completes,
      sends nothing and leaves the other handler. */
  lemma FirstOfTwoWithoutClient(m: Mux, connLabel: string, c: string, h1: Handler, h2: Handler, prefix: Option<string>)
    requires Inv(m) && Handlers(m, connLabel, c) == [h1, h2]
    ensures var r := UnsubscribeChannelsNoClient(m, connLabel, [c], h1, prefix);
      !r.1 && r.0.log == m.log && Inv(r.0) && Handlers(r.0, connLabel, c) == [h2]
  {
    if h1 == h2 {
      RemoveLastAt([h1, h2], h1, 1);
    } else {
      RemoveLastAt([h1, h2], h1, 0);
    }
    UnsubscribeChannelEffect(m, connLabel, c, h1, prefix);
    UnsubscribeChannelKeepsInv(m, connLabel, c, h1, prefix);
    UnsubscribeOneChannelNoClient(m, connLabel, c, h1, prefix);
    var n1 := UnsubscribeChannel(m, connLabel, c, h1, prefix);
    assert Handlers(n1, connLabel, c) == [h2];
    CountIsHandlers(n1, connLabel, c);
  }

  /** Without a client, removing the only handler of a channel throws, sends
      nothing, and the channel's number is 0 all the same. */
  lemma OnlyHandlerWithoutClient(m: Mux, connLabel: string, c: string, h: Handler, prefix: Option<string>)
    requires Inv(m) && Handlers(m, connLabel, c) == [h]
    ensures var r := UnsubscribeChannelsNoClient(m, connLabel, [c], h, prefix);
      r.1 && r.0.log == m.log && Count(r.0, connLabel, c) == 0
  {
    CountIsHandlers(m, connLabel, c);
    RemoveLastAt([h], h, 0);
    UnsubscribeChannelEffect(m, connLabel, c, h, prefix);
    UnsubscribeOneChannelNoClient(m, connLabel, c, h, prefix);
  }

  /** Two handlers on one channel of a label whose client is gone: removing
      the first one completes and sends nothing; removing the last one throws,
      and its number is 0 all the same. */
  lemma LastHandlerWithoutClientThrows(connLabel: string, c: string, h1: Handler, h2: Handler, prefix: Option<string>)
    ensures var m := AfterSubscribe(AfterSubscribe(Empty(), connLabel, [c], h1, prefix), connLabel, [c], h2, prefix);
      var r1 := UnsubscribeChannelsNoClient(m, connLabel, [c], h1, prefix);
      var r2 := UnsubscribeChannelsNoClient(r1.0, connLabel, [c], h2, prefix);
      && !r1.1 && r1.0.log == m.log && Handlers(r1.0, connLabel, c) == [h2]
      && r2.1 && r2.0.log == m.log && Count(r2.0, connLabel, c) == 0
  {
    var m := AfterSubscribe(AfterSubscribe(Empty(), connLabel, [c], h1, prefix), connLabel, [c], h2, prefix);
    TwoSubscribers(connLabel, c, h1, h2, prefix);
    FirstOfTwoWithoutClient(m, connLabel, c, h1, h2, prefix);
    OnlyHandlerWithoutClient(UnsubscribeChannelsNoClient(m, connLabel, [c], h1, prefix).0, connLabel, c, h2, prefix);
  }

  /** Subscribing then dispatching as written: once `h` subscribed to a
      colon-free channel on a label, a message on that channel's wire name (with
      a colon-free prefix) is handed to `h` by the listener that keeps the
      second `:`-separated segment, with the bare channel name. */
  lemma SubscriberReceives(m: Mux, connLabel: string, channel: string, h: Handler, prefix: Option<string>, message: string)
    requires ':' !in channel && (prefix.Some? ==> ':' !in prefix.value)
    ensures var r := AfterSubscribe(m, connLabel, [channel], h, prefix);
      connLabel in r.emitters &&
      Delivery(h, channel, message) in Deliveries(r, connLabel, ChannelOfWire(Prefixed(prefix, channel)), message)
  {
    var m1 := AddEmitter(m, connLabel);
    assert [channel][..0] == [];
    assert SubscribeChannels(m1, connLabel, [], h, prefix) == m1;
    var r := SubscribeChannel(m1, connLabel, channel, h, prefix);
    assert SubscribeChannels(m1, connLabel, [channel], h, prefix) == r;
    assert AfterSubscribe(m, connLabel, [channel], h, prefix) == r;
    var hs := Handlers(r, connLabel, channel);
    assert hs == Handlers(m1, connLabel, channel) + [h];
    DispatchRecoversPlainChannel(prefix, channel);
    var ds := Deliveries(r, connLabel, channel, message);
    assert ds[|hs| - 1] == Delivery(h, channel, message);
  }

  /** The first subscriber of a fresh multiplexer, with the corrected dispatch
      that strips the configured prefix: one SUBSCRIBE of the prefixed channel
      is sent, and a message on that wire name is handed to that subscriber
      alone, for every channel name and prefix, colons included. */
  lemma SoleSubscriberReceives(connLabel: string, channel: string, h: Handler, prefix: Option<string>, message: string)
    ensures var m := AfterSubscribe(Empty(), connLabel, [channel], h, prefix);
      && m.log == [Subscribe(connLabel, Prefixed(prefix, channel))]
      && connLabel in m.emitters
      && Deliveries(m, connLabel, StripPrefix(prefix, Prefixed(prefix, channel)), message) == [Delivery(h, channel, message)]
  {
    var m1 := AddEmitter(Empty(), connLabel);
    assert [channel][..0] == [];
    assert SubscribeChannels(m1, connLabel, [], h, prefix) == m1;
    var m := SubscribeChannel(m1, connLabel, channel, h, prefix);
    assert SubscribeChannels(m1, connLabel, [channel], h, prefix) == m;
    assert Handlers(m, connLabel, channel) == [h];
    StripPrefixRoundTrip(prefix, channel);
    var ds := Deliveries(m, connLabel, channel, message);
    assert |ds| == 1 && ds[0] == Delivery(h, channel, message);
  }

  /** A message whose wire name the listener as written maps to another
      channel than the subscribed one reaches nobody on a fresh multiplexer. */
  lemma MisroutedMessageIsLost(connLabel: string, channel: string, h: Handler, prefix: Option<string>, message: string)
    requires ChannelOfWire(Prefixed(prefix, channel)) != channel
    ensures var m := AfterSubscribe(Empty(), connLabel, [channel], h, prefix);
      Deliveries(m, connLabel, ChannelOfWire(Prefixed(prefix, channel)), message) == []
  {
    var m1 := AddEmitter(Empty(), connLabel);
    assert [channel][..0] == [];
    assert SubscribeChannels(m1, connLabel, [], h, prefix) == m1;
    var m := SubscribeChannel(m1, connLabel, channel, h, prefix);
    assert SubscribeChannels(m1, connLabel, [channel], h, prefix) == m;
    var c := ChannelOfWire(Prefixed(prefix, channel));
    ChannelStepsAreLocal(m1, connLabel, channel, h, prefix, connLabel, c);
    assert Handlers(m, connLabel, c) == [];
  }

  /** The subscriber of a channel containing a colon misses its messages with
      the dispatch as written: under prefix "env", `h` subscribed to "a:b"
      gets nothing from a message on "env:a:b", which the listener emits on
      "a"; the corrected dispatch hands it to `h`. */
  lemma ColonChannelSubscriberMissesMessages(connLabel: string, h: Handler, message: string)
    ensures var m := AfterSubscribe(Empty(), connLabel, ["a:b"], h, Some("env"));
      && Deliveries(m, connLabel, ChannelOfWire("env:a:b"), message) == []
      && Deliveries(m, connLabel, StripPrefix(Some("env"), "env:a:b"), message) == [Delivery(h, "a:b", message)]
  {
    DispatchMisroutesColonChannel();
    assert "a" != "a:b";
    MisroutedMessageIsLost(connLabel, "a:b", h, Some("env"), message);
    SoleSubscriberReceives(connLabel, "a:b", h, Some("env"), message);
  }

  /** UNSUBSCRIBE without a 1-to-0 transition: once a channel's count is back to
      0, every further `unsubscribe` of it, even of a handler that was never
      added, sends UNSUBSCRIBE again. */
  lemma UnsubscribeRepeatsCommand(m: Mux, connLabel: string, channel: string, h: Handler, prefix: Option<string>)
    requires Inv(m) && (connLabel, channel) in m.counts && Handlers(m, connLabel, channel) == []
    ensures var r := UnsubscribeChannel(m, connLabel, channel, h, prefix);
      Count(r, connLabel, channel) == Count(m, connLabel, channel) == 0 &&
      r.log == m.log + [Unsubscribe(connLabel, Prefixed(prefix, channel))]
  {
    UnsubscribeChannelEffect(m, connLabel, channel, h, prefix);
    assert m.counts[(connLabel, channel)] == 0;
  }

  /** Unsubscribing undoes subscribing: subscribing `h` to a channel and then
      unsubscribing it restores the channel's handlers and count, and the pair
      sends SUBSCRIBE and UNSUBSCRIBE exactly when the channel had no handler. */
  lemma SubscribeThenUnsubscribe(m: Mux, connLabel: string, channel: string, h: Handler, prefix: Option<string>)
    requires Inv(m) && connLabel in m.emitters
    ensures var r := UnsubscribeChannel(SubscribeChannel(m, connLabel, channel, h, prefix), connLabel, channel, h, prefix);
      && Handlers(r, connLabel, channel) == Handlers(m, connLabel, channel)
      && Count(r, connLabel, channel) == Count(m, connLabel, channel)
      && r.log == m.log + (if Handlers(m, connLabel, channel) == []
                           then [Subscribe(connLabel, Prefixed(prefix, channel)), Unsubscribe(connLabel, Prefixed(prefix, channel))]
                           else [])
  {
    var m1 := SubscribeChannel(m, connLabel, channel, h, prefix);
    SubscribeChannelEffect(m, connLabel, channel, h, prefix);
    SubscribeChannelKeepsInv(m, connLabel, channel, h, prefix);
    UnsubscribeChannelEffect(m1, connLabel, channel, h, prefix);
    assert RemoveLast(Handlers(m, connLabel, channel) + [h], h) == Handlers(m, connLabel, channel);
  }
}
