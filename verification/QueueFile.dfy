/** The queue file: what persist writes and what loadPromptQueue makes of it. */
module QueueFile {
  import opened Durable
  import opened QueueModel

  const VERSION := 2
  const LEGACY_VERSION := 1

  datatype File = File(version: int, items: seq<Item>)

  /** s holds the items of the map, each once, by increasing order. */
  ghost predicate Lists(items: Items, s: seq<Item>) {
    Drawn(items, s) && Complete(items, s) && Ascending(s)
  }

  ghost predicate Drawn(items: Items, s: seq<Item>) {
    forall i :: 0 <= i < |s| ==> s[i].Name() in items && items[s[i].Name()] == s[i]
  }

  ghost predicate Complete(items: Items, s: seq<Item>) {
    forall k :: k in items ==> items[k] in s
  }

  ghost predicate Ascending(s: seq<Item>) {
    forall i, j :: 0 <= i < j < |s| ==> s[i].order < s[j].order
  }

  /** The repairs that loading applies to one stored item. */
  function Normalized(version: int, i: Item): Item {
    var j := if i.status.Running? || (version == LEGACY_VERSION && i.status == Other(PAUSED))
             then i.(status := BlockedIndeterminate) else i;
    if j.status.Terminal() then j.(prompt := [], attachments := [], envelope := []) else j
  }

  function Added(q: Queue, i: Item): Queue {
    Queue(q.items[i.Name() := i], if i.order > q.nextId then i.order else q.nextId)
  }

  /** None stands for the errors of an invalid or repeated item. */
  function LoadItems(rules: Rules, version: int, list: seq<Item>, sofar: Queue): Option<Queue>
    decreases |list|
  {
    if list == [] then Some(sofar)
    else
      var i := Normalized(version, list[0]);
      if !ValidItem(rules, i) || i.Name() in sofar.items then None
      else LoadItems(rules, version, list[1..], Added(sofar, i))
  }

  function Load(rules: Rules, file: File): Option<Queue> {
    if file.version != VERSION && file.version != LEGACY_VERSION then None
    else LoadItems(rules, file.version, file.items, Queue(map[], 0))
  }

  ghost function Names(s: seq<Item>, n: nat): set<Key>
    requires n <= |s|
  {
    set i | 0 <= i < n :: s[i].Name()
  }

  /** The part of the restarted queue that the first n stored items make up. */
  ghost function Loaded(q: Queue, s: seq<Item>, n: nat): Queue
    requires n <= |s|
  {
    Queue(map k | k in q.items && k in Names(s, n) :: Downgraded(q.items[k]), if n == 0 then 0 else s[n - 1].order)
  }

  lemma NormalizedIsDowngraded(rules: Rules, i: Item)
    requires ValidItem(rules, i)
    ensures Normalized(VERSION, i) == Downgraded(i) && ValidItem(rules, Downgraded(i))
  {
  }

  lemma LoadedStep(rules: Rules, q: Queue, s: seq<Item>, n: nat)
    requires Valid(rules, q) && Lists(q.items, s) && n < |s|
    ensures Normalized(VERSION, s[n]) == Downgraded(s[n]) && ValidItem(rules, Downgraded(s[n]))
    ensures s[n].Name() !in Loaded(q, s, n).items
    ensures Added(Loaded(q, s, n), Downgraded(s[n])) == Loaded(q, s, n + 1)
  {
    hide ValidItem, Normalized, DistinctOrders, SingleRunner, LargestOrder;
    var i := s[n];
    assert q.items[i.Name()] == i;
    NormalizedIsDowngraded(rules, i);
    assert Names(s, n + 1) == Names(s, n) + {i.Name()};
    assert i.Name() !in Names(s, n);
    hide Names;
    assert Loaded(q, s, n + 1).items == Loaded(q, s, n).items[i.Name() := Downgraded(i)];
  }

  lemma LoadedAll(rules: Rules, q: Queue, s: seq<Item>)
    requires Valid(rules, q) && Lists(q.items, s)
    ensures Loaded(q, s, |s|) == Restarted(q)
  {
    forall k | k in q.items ensures k in Names(s, |s|) {
      var i :| 0 <= i < |s| && s[i] == q.items[k];
      assert q.items[k].Name() == k;
    }
    LastIsNext(rules, q, s);
    hide Valid, Lists, Names, Downgraded;
    assert Loaded(q, s, |s|).items == Restarted(q).items;
  }

  /** nextId is the order of the last stored item. */
  lemma LastIsNext(rules: Rules, q: Queue, s: seq<Item>)
    requires Valid(rules, q) && Lists(q.items, s)
    ensures q.nextId == if s == [] then 0 else s[|s| - 1].order
  {
    hide WellNamed, DistinctOrders, SingleRunner;
    if q.nextId != 0 {
      var k :| k in q.items && q.items[k].order == q.nextId;
      var i :| 0 <= i < |s| && s[i] == q.items[k];
    }
  }

  lemma {:induction false} LoadFrom(rules: Rules, q: Queue, s: seq<Item>, n: nat)
    requires Valid(rules, q) && Lists(q.items, s) && n <= |s|
    ensures LoadItems(rules, VERSION, s[n..], Loaded(q, s, n)) == Some(Restarted(q))
    decreases |s| - n
  {
    hide Valid, Lists, ValidItem, Loaded, Normalized;
    if n == |s| {
      LoadedAll(rules, q, s);
    } else {
      LoadedStep(rules, q, s, n);
      LoadFrom(rules, q, s, n + 1);
      assert s[n..][1..] == s[n + 1..] && s[n..][0] == s[n];
      assert Downgraded(s[n]).Name() == s[n].Name();
    }
  }

  /** Each item of the list is valid once repaired, and no name comes twice. */
  ghost predicate Loadable(rules: Rules, version: int, list: seq<Item>) {
    && (forall i :: 0 <= i < |list| ==> ValidItem(rules, Normalized(version, list[i])))
    && (forall i, j :: 0 <= i < j < |list| ==> list[i].Name() != list[j].Name())
  }

  /** q holds exactly the repaired items of the list besides those of sofar. */
  ghost predicate LoadedFrom(version: int, list: seq<Item>, sofar: Queue, q: Queue) {
    && q.items.Keys == sofar.items.Keys + Names(list, |list|)
    && (forall k :: k in sofar.items ==> q.items[k] == sofar.items[k])
    && (forall i :: 0 <= i < |list| ==> q.items[list[i].Name()] == Normalized(version, list[i]))
  }

  lemma SplitNames(list: seq<Item>)
    requires list != []
    ensures Names(list, |list|) == {list[0].Name()} + Names(list[1..], |list| - 1)
  {
    forall k | k in Names(list, |list|) ensures k == list[0].Name() || k in Names(list[1..], |list| - 1) {
      var i :| 0 <= i < |list| && list[i].Name() == k;
      if i > 0 { assert list[1..][i - 1] == list[i]; }
    }
    forall i | 0 <= i < |list| - 1 ensures list[1..][i].Name() in Names(list, |list|) {
      assert list[1..][i] == list[i + 1];
    }
  }

  lemma {:induction false} LoadItemsExact(rules: Rules, version: int, list: seq<Item>, sofar: Queue)
    ensures LoadItems(rules, version, list, sofar).Some? <==> Loadable(rules, version, list) && Names(list, |list|) !! sofar.items.Keys
    ensures LoadItems(rules, version, list, sofar).Some? ==>
              LoadedFrom(version, list, sofar, LoadItems(rules, version, list, sofar).value)
    decreases |list|
  {
    hide ValidItem;
    if list == [] {
      assert Names(list, 0) == {};
    } else {
      var i := Normalized(version, list[0]);
      assert i.Name() == list[0].Name();
      LoadItemsExact(rules, version, list[1..], Added(sofar, i));
      SplitNames(list);
      SplitLoadable(rules, version, list);
      hide Loadable, Normalized, Names;
      if LoadItems(rules, version, list, sofar).Some? {
        LoadedMore(version, list, sofar, LoadItems(rules, version, list, sofar).value);
      }
    }
  }

  lemma SplitLoadable(rules: Rules, version: int, list: seq<Item>)
    requires list != []
    ensures Loadable(rules, version, list) <==>
      ValidItem(rules, Normalized(version, list[0])) && Loadable(rules, version, list[1..]) && list[0].Name() !in Names(list[1..], |list| - 1)
  {
    var rest := list[1..];
    assert forall i :: 0 <= i < |rest| ==> rest[i] == list[i + 1];
    if list[0].Name() in Names(rest, |list| - 1) {
      var i :| 0 <= i < |rest| && rest[i].Name() == list[0].Name();
      assert list[i + 1].Name() == list[0].Name();
    } else {
      forall i | 0 < i < |list| ensures list[i].Name() != list[0].Name() && list[i] == rest[i - 1] {
        assert rest[i - 1].Name() in Names(rest, |list| - 1);
      }
    }
    hide ValidItem, Normalized;
  }

  lemma LoadedMore(version: int, list: seq<Item>, sofar: Queue, q: Queue)
    requires list != [] && list[0].Name() !in sofar.items && Normalized(version, list[0]).Name() == list[0].Name()
    requires Names(list, |list|) == {list[0].Name()} + Names(list[1..], |list| - 1)
    requires LoadedFrom(version, list[1..], Added(sofar, Normalized(version, list[0])), q)
    ensures LoadedFrom(version, list, sofar, q)
  {
    hide Normalized;
    forall i | 0 <= i < |list| ensures q.items[list[i].Name()] == Normalized(version, list[i]) {
      if i > 0 { assert list[1..][i - 1] == list[i]; }
    }
  }

  /** A file loads exactly when its version is known, every item is valid once
      repaired, and no name comes twice; the queue then holds just those items. */
  lemma LoadExact(rules: Rules, file: File)
    ensures Load(rules, file).Some? <==> (file.version == 1 || file.version == 2) && Loadable(rules, file.version, file.items)
    ensures Load(rules, file).Some? ==> LoadedFrom(file.version, file.items, Queue(map[], 0), Load(rules, file).value)
  {
    LoadItemsExact(rules, file.version, file.items, Queue(map[], 0));
    hide Loadable, LoadedFrom, LoadItems;
  }

  /** The repairs: what ran is blocked as indeterminate, and so is what version 1
      called paused; a finished item loses its payload; nothing else changes. */
  lemma RepairOutcome(version: int, i: Item)
    ensures var j := Normalized(version, i);
      && j.Name() == i.Name() && j.order == i.order && j.agent == i.agent && j.createdAt == i.createdAt && j.mode == i.mode
      && (i.status == Running || (version == 1 && i.status == Other(PAUSED)) ==> j == i.(status := BlockedIndeterminate))
      && (i.status == Completed || i.status == Cancelled ==> j.status == i.status && j.Empty())
      && (i.status in {Queued, BlockedFailed, BlockedInterrupted, BlockedIndeterminate} ==> j == i)
  {
  }

  /** Whatever valid queue is persisted, loading succeeds and restores it with
      nothing changed but running items downgraded; nextId, which the file does
      not store, comes back as the same largest order. */
  lemma ReloadExact(rules: Rules, q: Queue, s: seq<Item>)
    requires Valid(rules, q) && Lists(q.items, s)
    ensures Load(rules, File(VERSION, s)) == Some(Restarted(q))
  {
    hide Valid, Lists, LoadItems;
    LoadFrom(rules, q, s, 0);
    assert s[0..] == s;
    assert Loaded(q, s, 0) == Queue(map[], 0);
  }

  /** The list that persist writes determines the queue it was written from. */
  lemma ListsOnce(a: Items, b: Items, s: seq<Item>)
    requires Lists(a, s) && Lists(b, s)
    requires forall k :: k in a ==> a[k].Name() == k
    requires forall k :: k in b ==> b[k].Name() == k
    ensures a == b
  {
    forall k | k in a ensures k in b && a[k] == b[k] {
      var i :| 0 <= i < |s| && s[i] == a[k];
    }
    forall k | k in b ensures k in a {
      var i :| 0 <= i < |s| && s[i] == b[k];
    }
  }

  /** loadPromptQueue after the file is parsed. */
  method LoadPromptQueue(rules: Rules, file: File) returns (r: Option<Queue>)
    ensures r == Load(rules, file)
  {
    if file.version != VERSION && file.version != LEGACY_VERSION { return None; }
    var queue := Queue(map[], 0);
    var n := 0;
    while n < |file.items|
      invariant n <= |file.items|
      invariant Load(rules, file) == LoadItems(rules, file.version, file.items[n..], queue)
    {
      var item := Normalized(file.version, file.items[n]);
      assert file.items[n..][0] == file.items[n] && file.items[n..][1..] == file.items[n + 1..];
      if !ValidItem(rules, item) { return None; }
      if item.Name() in queue.items { return None; }
      queue := Added(queue, item);
      n := n + 1;
    }
    r := Some(queue);
  }

  /** The list that persist writes: every item, sorted by order. */
  method Listed(items: Items) returns (s: seq<Item>)
    requires DistinctOrders(items)
    requires forall k :: k in items ==> items[k].Name() == k
    ensures Lists(items, s)
  {
    s := [];
    var rest := items.Keys;
    while rest != {}
      invariant rest <= items.Keys
      invariant Lists(items - rest, s)
      decreases |rest|
    {
      var k :| k in rest;
      var at := Place(s, items[k].order);
      InsertLists(items, rest, s, k, at);
      s := s[..at] + [items[k]] + s[at..];
      rest := rest - {k};
    }
    assert items - rest == items;
  }

  method Place(s: seq<Item>, order: nat) returns (at: nat)
    requires forall i, j :: 0 <= i < j < |s| ==> s[i].order < s[j].order
    ensures at <= |s|
    ensures forall i :: 0 <= i < at ==> s[i].order < order
    ensures forall i :: at <= i < |s| ==> order <= s[i].order
  {
    at := 0;
    while at < |s| && s[at].order < order
      invariant at <= |s|
      invariant forall i :: 0 <= i < at ==> s[i].order < order
    {
      at := at + 1;
    }
  }

  lemma InsertLists(items: Items, rest: set<Key>, s: seq<Item>, k: Key, at: nat)
    requires DistinctOrders(items)
    requires forall j :: j in items ==> items[j].Name() == j
    requires rest <= items.Keys && k in rest && Lists(items - rest, s) && at <= |s|
    requires forall i :: 0 <= i < at ==> s[i].order < items[k].order
    requires forall i :: at <= i < |s| ==> items[k].order <= s[i].order
    ensures Lists(items - (rest - {k}), s[..at] + [items[k]] + s[at..])
  {
    var before, next := items - rest, items - (rest - {k});
    var t := s[..at] + [items[k]] + s[at..];
    forall i | at <= i < |s| ensures items[k].order < s[i].order {
      assert s[i].Name() in before && items[s[i].Name()] == s[i];
    }
    assert next == before[k := items[k]];
    hide DistinctOrders, Drawn, Complete, Ascending;
    InsertAscends(s, items[k], at);
    InsertKeeps(s, items[k], at);
    InsertDrawn(before, s, k, items[k], t);
  }

  lemma InsertKeeps(s: seq<Item>, x: Item, at: nat)
    requires at <= |s|
    ensures forall y :: y in s[..at] + [x] + s[at..] <==> y in s || y == x
  {
    assert s == s[..at] + s[at..];
  }

  lemma InsertAscends(s: seq<Item>, x: Item, at: nat)
    requires Ascending(s) && at <= |s|
    requires forall i :: 0 <= i < at ==> s[i].order < x.order
    requires forall i :: at <= i < |s| ==> x.order < s[i].order
    ensures Ascending(s[..at] + [x] + s[at..])
  {
  }

  lemma InsertDrawn(items: Items, s: seq<Item>, k: Key, x: Item, t: seq<Item>)
    requires Drawn(items, s) && Complete(items, s) && x.Name() == k && k !in items
    requires forall y :: y in t <==> y in s || y == x
    ensures Drawn(items[k := x], t) && Complete(items[k := x], t)
  {
    forall i | 0 <= i < |t| ensures t[i].Name() in items[k := x] && items[k := x][t[i].Name()] == t[i] {
      assert t[i] in t;
    }
  }
}
