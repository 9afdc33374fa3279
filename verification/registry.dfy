/**
 * The session registry (`ChannelManager.getChannelMap()`): account-id text
 * to connection. `ChannelManager`'s internals are not modelled; its
 * `removeChannel(c)` is taken to drop every entry whose connection is `c`.
 * Fan-out over the registry is specified here for any iteration order.
 */
module Registry {
  import opened Protocol

  type Sessions = map<string, ConnId>

  /** `ChannelManager.removeChannel(c)`. */
  function RemoveChannel(m: Sessions, c: ConnId): (r: Sessions)
    ensures forall k :: k in r <==> k in m && m[k] != c
    ensures forall k :: k in r ==> r[k] == m[k]
  {
    map k | k in m && m[k] != c :: m[k]
  }

  /** The keys registered for connection `c`. */
  function KeysOf(m: Sessions, c: ConnId): set<string>
  {
    set k | k in m && m[k] == c
  }

  predicate Distinct(order: seq<string>)
  {
    forall i, j :: 0 <= i < j < |order| ==> order[i] != order[j]
  }

  /** `order` lists every key of `keys` exactly once: one pass of an entry-set iterator. */
  ghost predicate Enumerates(order: seq<string>, keys: set<string>)
  {
    Distinct(order) && forall k :: k in order <==> k in keys
  }

  /** The writes issued by visiting the entries of `m` in `order`, each sending `msg`. */
  function FanOut(m: Sessions, order: seq<string>, msg: Message): (r: seq<Send>)
    requires forall k :: k in order ==> k in m
    decreases |order|
  {
    if order == [] then []
    else FanOut(m, order[..|order| - 1], msg) + [Send(m[order[|order| - 1]], msg)]
  }

  /** How many writes in `sends` go to connection `c`. */
  function CountTo(sends: seq<Send>, c: ConnId): nat
    decreases |sends|
  {
    if sends == [] then 0
    else CountTo(sends[..|sends| - 1], c) + (if sends[|sends| - 1].conn == c then 1 else 0)
  }

  lemma {:induction false} CountToAppend(a: seq<Send>, b: seq<Send>, c: ConnId)
    ensures CountTo(a + b, c) == CountTo(a, c) + CountTo(b, c)
    decreases |b|
  {
    if b == [] {
      assert a + b == a;
    } else {
      var b' := b[..|b| - 1];
      assert (a + b)[..|a + b| - 1] == a + b';
      CountToAppend(a, b', c);
    }
  }

  /** Every write of a fan-out carries `msg` unchanged to a registered connection. */
  lemma {:induction false} FanOutSendsUnmodified(m: Sessions, order: seq<string>, msg: Message)
    requires forall k :: k in order ==> k in m
    ensures |FanOut(m, order, msg)| == |order|
    ensures forall i :: 0 <= i < |order| ==>
      FanOut(m, order, msg)[i] == Send(m[order[i]], msg)
    decreases |order|
  {
    if order != [] {
      FanOutSendsUnmodified(m, order[..|order| - 1], msg);
    }
  }

  /** The writes of a fan-out to `c` are exactly as many as the listed keys bound to `c`. */
  lemma {:induction false} FanOutCount(m: Sessions, order: seq<string>, msg: Message, c: ConnId)
    requires forall k :: k in order ==> k in m
    requires Distinct(order)
    ensures CountTo(FanOut(m, order, msg), c) == |set k | k in order && m[k] == c|
    decreases |order|
  {
    if order != [] {
      var init, last := order[..|order| - 1], order[|order| - 1];
      assert forall k :: k in init ==> k in order;
      assert Distinct(init);
      FanOutCount(m, init, msg, c);
      var sends := FanOut(m, init, msg) + [Send(m[last], msg)];
      assert sends[..|sends| - 1] == FanOut(m, init, msg);
      var before := set k | k in init && m[k] == c;
      var after := set k | k in order && m[k] == c;
      assert last !in init;
      assert order == init + [last];
      if m[last] == c {
        assert after == before + {last};
      } else {
        assert after == before;
      }
    }
  }

  /**
   * A full pass over the registry writes `msg` to each connection once per
   * key it is registered under, and to nothing else.
   */
  lemma FanOutReachesEveryEntry(m: Sessions, order: seq<string>, msg: Message, c: ConnId)
    requires Enumerates(order, m.Keys)
    ensures CountTo(FanOut(m, order, msg), c) == |KeysOf(m, c)|
    ensures c !in m.Values ==> CountTo(FanOut(m, order, msg), c) == 0
  {
    FanOutCount(m, order, msg, c);
    assert (set k | k in order && m[k] == c) == KeysOf(m, c);
    if c !in m.Values {
      assert KeysOf(m, c) == {};
    }
  }
}
