/** The commands the Redis pool sends through its clients, and what the list
    commands used by `lpushlim` do to a list on the server (LPUSH prepends;
    LTRIM keeps an inclusive index range, counting negative indices from the
    end). */
module RedisCommands {

  /** One list command inside a MULTI transaction. */
  datatype ListOp = LPush(key: string, value: string) | LTrim(key: string, start: int, stop: int)

  /** A command sent on the client of a connection label. */
  datatype Cmd =
    | Subscribe(connLabel: string, channel: string)
    | Unsubscribe(connLabel: string, channel: string)
    | Publish(connLabel: string, channel: string, message: string)
    | Multi(connLabel: string, ops: seq<ListOp>)
    | Quit(connLabel: string)

  function Min(a: int, b: int): int { if a <= b then a else b }
  function Max(a: int, b: int): int { if a >= b then a else b }

  /** LTRIM on a list: negative indices count from the end, the start is
      clamped at 0 and the stop at the last index; an empty range empties the
      list. */
  function Trim<T>(l: seq<T>, start: int, stop: int): (r: seq<T>)
    ensures |r| <= |l|
    ensures 0 <= start <= stop ==> r == l[Min(start, |l|)..Min(stop + 1, |l|)]
    ensures start == 0 && stop < 0 ==> r == l[..Max(0, |l| + stop + 1)]
  {
    var n := |l|;
    var s := if start < 0 then n + start else start;
    var e := if stop < 0 then n + stop else stop;
    var s' := if s < 0 then 0 else s;
    if s' > e || s' >= n then []
    else
      var e' := if e >= n then n - 1 else e;
      l[s'..e' + 1]
  }

  /** The list stored under a key; a missing key reads as the empty list. */
  function ListAt(store: map<string, seq<string>>, key: string): seq<string> {
    if key in store then store[key] else []
  }

  function ApplyOp(store: map<string, seq<string>>, op: ListOp): map<string, seq<string>> {
    match op
    case LPush(k, v) => store[k := [v] + ListAt(store, k)]
    case LTrim(k, start, stop) => store[k := Trim(ListAt(store, k), start, stop)]
  }

  /** Executes the commands of a MULTI transaction in order. */
  function ApplyOps(store: map<string, seq<string>>, ops: seq<ListOp>): map<string, seq<string>>
    decreases |ops|
  {
    if ops == [] then store else ApplyOps(ApplyOp(store, ops[0]), ops[1..])
  }

  /** The transaction `lpushlim` sends (Redis.js lines 162-165). */
  function PushLimOps(key: string, value: string, maxlen: int): (ops: seq<ListOp>)
    ensures |ops| == 2 && forall i :: 0 <= i < |ops| ==> ops[i].key == key
    ensures ops[0] == LPush(key, value) && ops[1].LTrim? && ops[1].start == 0 && ops[1].stop == maxlen - 1
  {
    [LPush(key, value), LTrim(key, 0, maxlen - 1)]
  }

  /** The list after `lpushlim`: the new value first, then as much of the old
      list as LTRIM 0 (maxlen - 1) keeps. With maxlen of 1 or more that is the
      newest maxlen elements; a maxlen of 0 keeps everything, and a negative
      maxlen drops that many elements from the end. */
  function PushLim(l: seq<string>, value: string, maxlen: int): (r: seq<string>)
    ensures maxlen >= 1 ==> r == ([value] + l)[..Min(maxlen, |l| + 1)]
    ensures maxlen <= 0 ==> r == ([value] + l)[..Max(0, |l| + 1 + maxlen)]
    ensures maxlen >= 1 ==> |r| <= maxlen && r[0] == value
  {
    Trim([value] + l, 0, maxlen - 1)
  }

  /** Running the transaction stores `PushLim` of the old list under the key and
      touches no other key. */
  lemma PushLimTransaction(store: map<string, seq<string>>, key: string, value: string, maxlen: int)
    ensures var after := ApplyOps(store, PushLimOps(key, value, maxlen));
      ListAt(after, key) == PushLim(ListAt(store, key), value, maxlen) &&
      forall k :: k != key ==> ListAt(after, k) == ListAt(store, k)
  {
    var ops := PushLimOps(key, value, maxlen);
    var s1 := ApplyOp(store, ops[0]);
    var s2 := ApplyOp(s1, ops[1]);
    assert ops[1..][1..] == [];
    assert ApplyOps(s1, ops[1..]) == ApplyOps(s2, []);
    assert ApplyOps(store, ops) == s2;
  }

  /** The values in the order LPUSH leaves them: newest first. */
  function NewestFirst(vs: seq<string>): (r: seq<string>)
    ensures |r| == |vs|
  {
    if vs == [] then [] else NewestFirst(vs[1..]) + [vs[0]]
  }

  /** `lpushlim` of each value in turn, oldest first. */
  function PushAll(l: seq<string>, vs: seq<string>, maxlen: int): seq<string>
    decreases |vs|
  {
    if vs == [] then l else PushAll(PushLim(l, vs[0], maxlen), vs[1..], maxlen)
  }

  lemma TakeOfTake(a: seq<string>, b: seq<string>, m: nat)
    ensures (a + b[..Min(m, |b|)])[..Min(m, |a| + Min(m, |b|))] == (a + b)[..Min(m, |a| + |b|)]
  {
    var lhs := (a + b[..Min(m, |b|)])[..Min(m, |a| + Min(m, |b|))];
    var rhs := (a + b)[..Min(m, |a| + |b|)];
    assert |lhs| == |rhs|;
    forall i | 0 <= i < |lhs| ensures lhs[i] == rhs[i] {
      if i >= |a| {
        assert lhs[i] == b[i - |a|];
      }
    }
  }

  /** A bounded list keeps the most recent pushes: after pushing `vs` with
      maxlen of 1 or more, the list holds the newest maxlen elements of all
      that were pushed and all that were there, most recent first. A list
      longer than maxlen is cut by the first push; with nothing pushed it is
      left as it is, so then it must be no longer than maxlen already. */
  lemma {:induction false} PushAllKeepsNewest(l: seq<string>, vs: seq<string>, maxlen: int)
    requires maxlen >= 1 && (vs != [] || |l| <= maxlen)
    ensures PushAll(l, vs, maxlen) == (NewestFirst(vs) + l)[..Min(maxlen, |vs| + |l|)]
    decreases |vs|
  {
    if vs == [] {
      assert NewestFirst(vs) + l == l;
    } else {
      var l1 := PushLim(l, vs[0], maxlen);
      PushAllKeepsNewest(l1, vs[1..], maxlen);
      var a := NewestFirst(vs[1..]);
      var b := [vs[0]] + l;
      assert l1 == b[..Min(maxlen, |b|)];
      TakeOfTake(a, b, maxlen);
      assert NewestFirst(vs) + l == a + b;
    }
  }

  /** Pushing five values into an empty list with maxlen 3 leaves the three
      most recent, most recent first. */
  lemma PushFiveKeepThree(a: string, b: string, c: string, d: string, e: string)
    ensures PushAll([], [a, b, c, d, e], 3) == [e, d, c]
  {
    var vs := [a, b, c, d, e];
    PushAllKeepsNewest([], vs, 3);
    assert vs[1..][1..][1..][1..][1..] == [];
    assert NewestFirst([e]) == [e];
    assert NewestFirst([d, e]) == [e, d];
    assert NewestFirst([c, d, e]) == [e, d, c];
    assert NewestFirst([b, c, d, e]) == [e, d, c, b];
    assert NewestFirst(vs) == [e, d, c, b, a];
  }
}
