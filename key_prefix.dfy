/** The global key prefix of Redis.js and the two ways a wire channel name is
    turned back into a bare channel name: the one the message listener uses
    (the second `:`-separated segment) and the intended one (strip the
    configured prefix). */
module KeyPrefix {
  import opened Hooks

  /** `Redis._prefix` as `_.isString` sees it: only a string value is a prefix. */
  function PrefixOf(v: JsValue): (p: Option<string>)
    ensures p.Some? <==> v.Str?
    ensures p.Some? ==> p.value == v.s
  {
    if v.Str? then Some(v.s) else None
  }

  /** `Redis.prefix(str)`, and the same expression written out in `publish`,
      `lpushlim`, `subscribe` and `unsubscribe`. */
  function Prefixed(prefix: Option<string>, key: string): (r: string)
    ensures prefix.None? ==> r == key
    ensures prefix.Some? ==> |r| == |prefix.value| + 1 + |key|
  {
    match prefix
    case None => key
    case Some(p) => p + ":" + key
  }

  /** A prefixed key is the prefix, a colon and the key, in that order. */
  lemma PrefixedShape(prefix: Option<string>, key: string)
    ensures var r := Prefixed(prefix, key);
      |r| >= |key| && r[|r| - |key|..] == key &&
      (prefix.Some? ==> r[..|prefix.value|] == prefix.value && r[|prefix.value|] == ':')
  {
    if prefix.Some? {
      var p := prefix.value;
      var r := p + ":" + key;
      assert r[|r| - |key|..] == key;
      assert r[..|p|] == p;
    }
  }

  /** The intended inverse: removes `<prefix>:` from a wire name that carries it
      and leaves any other name as it is. */
  function StripPrefix(prefix: Option<string>, wire: string): (r: string)
    ensures prefix.None? ==> r == wire
    ensures |r| <= |wire|
    ensures r != wire ==> prefix.Some? && wire == prefix.value + ":" + r
  {
    match prefix
    case None => wire
    case Some(p) =>
      if |wire| > |p| && wire[..|p|] == p && wire[|p|] == ':' then wire[|p| + 1..] else wire
  }

  /** Stripping undoes prefixing, for every prefix and every key. */
  lemma StripPrefixRoundTrip(prefix: Option<string>, key: string)
    ensures StripPrefix(prefix, Prefixed(prefix, key)) == key
  {
    if prefix.Some? {
      var p := prefix.value;
      var w := Prefixed(prefix, key);
      assert w[|p| + 1..] == key;
    }
  }

  /** Prefixing never sends two different keys to the same wire name. */
  lemma PrefixedInjective(prefix: Option<string>, a: string, b: string)
    requires Prefixed(prefix, a) == Prefixed(prefix, b)
    ensures a == b
  {
    StripPrefixRoundTrip(prefix, a);
    StripPrefixRoundTrip(prefix, b);
  }

  /** `s.indexOf(c)` for a character that occurs in `s`. */
  function IndexOf(s: string, c: char): (i: nat)
    requires c in s
    ensures i < |s| && s[i] == c && c !in s[..i]
  {
    if s[0] == c then 0
    else
      assert s == [s[0]] + s[1..];
      1 + IndexOf(s[1..], c)
  }

  /** The first occurrence is the only position `IndexOf` can return. */
  lemma {:induction false} IndexOfIsFirst(s: string, c: char, k: nat)
    requires k < |s| && s[k] == c && c !in s[..k]
    ensures IndexOf(s, c) == k
  {
    if k > 0 {
      assert s[0] == s[..k][0];
      assert s[1..][..k - 1] == s[..k][1..];
      IndexOfIsFirst(s[1..], c, k - 1);
    }
  }

  /** Joins parts with a separator; the inverse of `Split`. */
  function Join(parts: seq<string>, sep: char): string
    requires |parts| >= 1
  {
    if |parts| == 1 then parts[0] else parts[0] + [sep] + Join(parts[1..], sep)
  }

  /** `s.split(sep)` for a one-character separator: the maximal separator-free
      segments, which join back to `s`. */
  function Split(s: string, sep: char): (parts: seq<string>)
    ensures |parts| >= 1
    ensures sep in s <==> |parts| >= 2
    ensures forall i :: 0 <= i < |parts| ==> sep !in parts[i]
    ensures Join(parts, sep) == s
    decreases |s|
  {
    if sep !in s then [s]
    else
      var i := IndexOf(s, sep);
      var rest := Split(s[i + 1..], sep);
      assert s == s[..i] + [sep] + s[i + 1..];
      [s[..i]] + rest
  }

  /** The channel name the message listener of `subscribe` emits on (Redis.js
      line 218): the second `:`-separated segment when the wire name has a colon,
      the wire name itself otherwise. */
  function ChannelOfWire(wire: string): (r: string)
    ensures ':' !in wire ==> r == wire
    ensures ':' in wire ==> ':' !in r
  {
    if ':' in wire then Split(wire, ':')[1] else wire
  }

  /** An independent description of `ChannelOfWire`: after the first colon,
      everything up to the next colon, or to the end. */
  lemma ChannelOfWireIsSecondSegment(wire: string)
    requires ':' in wire
    ensures var rest := wire[IndexOf(wire, ':') + 1..];
      ChannelOfWire(wire) == if ':' in rest then rest[..IndexOf(rest, ':')] else rest
  {
    var i := IndexOf(wire, ':');
    var rest := wire[i + 1..];
    assert Split(wire, ':') == [wire[..i]] + Split(rest, ':');
    if ':' in rest {
      assert Split(rest, ':')[0] == rest[..IndexOf(rest, ':')];
    }
  }

  /** Behind a colon-free prefix, the listener keeps the channel up to its own
      first colon. */
  lemma ChannelOfPrefixedWire(p: string, channel: string)
    requires ':' !in p
    ensures ChannelOfWire(p + ":" + channel) ==
      if ':' in channel then channel[..IndexOf(channel, ':')] else channel
  {
    var w := p + ":" + channel;
    assert w[..|p|] == p;
    IndexOfIsFirst(w, ':', |p|);
    assert w[|p| + 1..] == channel;
    ChannelOfWireIsSecondSegment(w);
  }

  /** When neither the prefix nor the channel contains a colon, the listener
      recovers the channel from its wire name. */
  lemma DispatchRecoversPlainChannel(prefix: Option<string>, channel: string)
    requires ':' !in channel
    requires prefix.Some? ==> ':' !in prefix.value
    ensures ChannelOfWire(Prefixed(prefix, channel)) == channel
  {
    if prefix.Some? {
      ChannelOfPrefixedWire(prefix.value, channel);
    }
  }

  /** The listener misroutes a channel containing a colon: under prefix "env",
      messages for the subscribers of "a:b" are emitted on "a". */
  lemma DispatchMisroutesColonChannel()
    ensures Prefixed(Some("env"), "a:b") == "env:a:b"
    ensures ChannelOfWire("env:a:b") == "a"
  {
    ChannelOfPrefixedWire("env", "a:b");
    IndexOfIsFirst("a:b", ':', 1);
  }

  /** Without a prefix, messages for the subscribers of "a:b" are emitted on "b". */
  lemma DispatchMisroutesUnprefixedColonChannel()
    ensures Prefixed(None, "a:b") == "a:b"
    ensures ChannelOfWire("a:b") == "b"
  {
    IndexOfIsFirst("a:b", ':', 1);
    ChannelOfWireIsSecondSegment("a:b");
    assert "a:b"[2..] == "b";
  }

  /** A prefix containing a colon sends every channel to the same name: under
      prefix "app:env", messages on any channel are emitted on "env". */
  lemma DispatchMisroutesColonPrefix(app: string, env: string, channel: string)
    requires ':' !in app && ':' !in env
    ensures ChannelOfWire(Prefixed(Some(app + ":" + env), channel)) == env
  {
    var rest := env + ":" + channel;
    assert Prefixed(Some(app + ":" + env), channel) == app + ":" + rest;
    ChannelOfPrefixedWire(app, rest);
    assert rest[..|env|] == env;
    IndexOfIsFirst(rest, ':', |env|);
  }

  /** A prefix round trip: with prefix "env", channel "env-topic" is sent as
      "env:env-topic" and comes back as "env-topic". */
  lemma PrefixRoundTripExample()
    ensures Prefixed(Some("env"), "env-topic") == "env:env-topic"
    ensures ChannelOfWire("env:env-topic") == "env-topic"
  {
    DispatchRecoversPlainChannel(Some("env"), "env-topic");
  }
}
