/** promptAcceptanceCache of daemon/cmd/daemon/prompt_state.go: a map bounded by
    a ring of keys. */
module AcceptanceCache {
  import opened Durable

  /** The last n elements. */
  function LastOf<T>(s: seq<T>, n: nat): seq<T> {
    if |s| <= n then s else s[|s| - n..]
  }

  /** The reference: keep the newest max keys, ignore a key that is present. */
  function Added(held: seq<Key>, max: nat, k: Key): seq<Key> {
    if k in held then held else LastOf(held + [k], max)
  }

  /** The keys that were new when they came, oldest first. */
  function NewKeys(max: nat, ks: seq<Key>): seq<Key>
    decreases |ks|
  {
    if ks == [] then []
    else
      var before := NewKeys(max, ks[..|ks| - 1]);
      var k := ks[|ks| - 1];
      if k in LastOf(before, max) then before else before + [k]
  }

  function AddedAll(max: nat, ks: seq<Key>): seq<Key>
    decreases |ks|
  {
    if ks == [] then [] else Added(AddedAll(max, ks[..|ks| - 1]), max, ks[|ks| - 1])
  }

  predicate Distinct(s: seq<Key>) {
    forall i, j :: 0 <= i < j < |s| ==> s[i] != s[j]
  }

  lemma LastOfLast(s: seq<Key>, n: nat, k: Key)
    ensures LastOf(LastOf(s, n) + [k], n) == LastOf(s + [k], n)
  {
  }

  lemma LastDistinct(s: seq<Key>, n: nat)
    requires Distinct(s)
    ensures Distinct(LastOf(s, n)) && |LastOf(s, n)| <= n
  {
    var r := LastOf(s, n);
    forall i, j | 0 <= i < j < |r| ensures r[i] != r[j] {
      assert r[i] == s[|s| - |r| + i] && r[j] == s[|s| - |r| + j];
    }
  }

  lemma AddedDistinct(held: seq<Key>, max: nat, k: Key)
    requires Distinct(held)
    ensures Distinct(Added(held, max, k))
    ensures |held| <= max ==> |Added(held, max, k)| <= max
  {
    if k !in held {
      var all := held + [k];
      assert Distinct(all);
      LastDistinct(all, max);
    }
  }

  /** After any sequence of adds the cache holds exactly the last max keys that
      were new, without repetition. */
  lemma {:induction false} HoldsLastNew(max: nat, ks: seq<Key>)
    requires max > 0
    ensures AddedAll(max, ks) == LastOf(NewKeys(max, ks), max) && Distinct(AddedAll(max, ks)) && |AddedAll(max, ks)| <= max
    decreases |ks|
  {
    if ks != [] {
      HoldsLastNew(max, ks[..|ks| - 1]);
      var before, k := NewKeys(max, ks[..|ks| - 1]), ks[|ks| - 1];
      LastOfLast(before, max, k);
      AddedDistinct(AddedAll(max, ks[..|ks| - 1]), max, k);
    }
  }

  predicate Ring(max: nat, order: seq<Key>, next: nat) {
    && max > 0 && |order| <= max && next <= |order|
    && (|order| < max ==> next == 0) && (|order| == max ==> next < max)
  }

  ghost predicate Lists(order: seq<Key>, keys: set<Key>) {
    forall k :: k in keys <==> k in order
  }

  class Cache<V> {
    const max: nat
    var entries: map<Key, V>
    var order: seq<Key>
    var next: nat

    /** The ring read from next: oldest first. */
    function Held(): seq<Key>
      requires next <= |order|
      reads this
    {
      order[next..] + order[..next]
    }

    ghost predicate Valid()
      reads this
    {
      Ring(max, order, next) && Distinct(order) && Lists(order, entries.Keys)
    }

    /** A non-positive limit means the default of 4096. */
    constructor (limit: int)
      ensures Valid() && order == [] && next == 0 && max == if limit <= 0 then 4096 else limit
    {
      max := if limit <= 0 then 4096 else limit;
      entries, order, next := map[], [], 0;
    }

    lemma HeldDistinct()
      requires Valid()
      ensures Distinct(Held()) && |Held()| == |order| && (forall k :: k in Held() <==> k in order)
    {
      var h := Held();
      forall i, j | 0 <= i < j < |h| ensures h[i] != h[j] {
        var n := |order| - next;
        assert h[i] == order[if i < n then next + i else i - n];
        assert h[j] == order[if j < n then next + j else j - n];
      }
      assert order == order[..next] + order[next..];
    }

    /** An empty client id is ignored, and so is a key that is present. */
    method Add(k: Key, v: V)
      requires Valid()
      modifies this
      ensures Valid()
      ensures k.client == [] ==> Held() == old(Held()) && entries == old(entries)
      ensures k.client != [] ==> Held() == Added(old(Held()), max, k)
      ensures k in old(entries) ==> entries == old(entries)
      ensures k.client != [] && k !in old(entries) ==> k in entries && entries[k] == v
      ensures forall j :: j in entries && j in old(entries) ==> entries[j] == old(entries)[j]
    {
      HeldDistinct();
      if k.client == [] || k in entries { return; }
      if |order| < max {
        order := order + [k];
        entries := entries[k := v];
      } else {
        Overwrite(k, v);
      }
    }

    /** The full ring: the oldest key makes room. */
    method Overwrite(k: Key, v: V)
      requires Valid() && |order| == max && k !in entries && k.client != []
      modifies this
      ensures Valid() && Held() == LastOf(old(Held()) + [k], max)
      ensures entries == (old(entries) - {old(order[next])})[k := v]
    {
      hide Following, Distinct, LastOf, Lists;
      Overwritten(order, next, max, k, entries.Keys);
      var oldest := order[next];
      entries := (entries - {oldest})[k := v];
      order := order[next := k];
      next := Following(next, max);
      assert entries.Keys == old(entries).Keys - {oldest} + {k};
    }

    method Get(k: Key) returns (r: Option<V>)
      requires Valid()
      ensures r.Some? <==> k.client != [] && k in Held()
      ensures r.Some? ==> r.value == entries[k]
    {
      HeldDistinct();
      if k.client == [] || k !in entries { return None; }
      r := Some(entries[k]);
    }
  }

  lemma Overwritten(order: seq<Key>, at: nat, max: nat, k: Key, keys: set<Key>)
    requires Ring(max, order, at) && |order| == max && Distinct(order) && Lists(order, keys) && k !in keys
    ensures var ring, next := order[at := k], Following(at, max);
      && Ring(max, ring, next) && Distinct(ring) && Lists(ring, keys - {order[at]} + {k})
      && ring[next..] + ring[..next] == LastOf(order[at..] + order[..at] + [k], max)
  {
    Stepped(at, max);
    hide Following;
    RingAdvances(order, Following(at, max), max, k);
    hide LastOf;
    RingKeys(order, at, k);
    hide Distinct;
  }

  /** The next slot of the ring. */
  function Following(at: nat, max: nat): nat
    requires max > 0
  {
    (at + 1) % max
  }

  lemma Stepped(at: nat, max: nat)
    requires at < max
    ensures var next := Following(at, max); next < max && at == if next == 0 then max - 1 else next - 1
  {
    if at + 1 < max { Remainder(at + 1, max); } else { Multiple(max); }
  }

  lemma Remainder(a: nat, m: nat)
    requires a < m
    ensures a % m == a
  {
  }

  lemma Multiple(m: nat)
    requires m > 0
    ensures m % m == 0
  {
  }

  lemma RingKeys(before: seq<Key>, at: nat, k: Key)
    requires at < |before| && Distinct(before) && k !in before
    ensures Distinct(before[at := k])
    ensures forall j :: j in before[at := k] <==> (j in before && j != before[at]) || j == k
  {
    var ring := before[at := k];
    forall j | j in before && j != before[at] ensures j in ring {
      var i :| 0 <= i < |before| && before[i] == j;
      assert ring[i] == j;
    }
    assert ring[at] == k;
  }

  /** Overwriting the oldest slot and stepping on reads as dropping the first
      key and appending the new one. */
  lemma RingAdvances(before: seq<Key>, next: nat, max: nat, k: Key)
    requires max > 0 && |before| == max && next < max
    ensures var at := if next == 0 then max - 1 else next - 1;
      before[at := k][next..] + before[at := k][..next] == LastOf(before[at..] + before[..at] + [k], max)
  {
    var at := if next == 0 then max - 1 else next - 1;
    var ring := before[at := k];
    var a := ring[next..] + ring[..next];
    var b := LastOf(before[at..] + before[..at] + [k], max);
    assert |a| == max == |b|;
    assert forall i :: 0 <= i < max ==> a[i] == b[i];
  }
}
