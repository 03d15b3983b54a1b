/** The mutable queue object: loops over the item map, persist, then expose. */
module PromptQueueClass {
  import opened Durable
  import opened QueueModel
  import opened QueueSteps
  import opened QueueFile

  datatype ClaimResult = Nothing | Handed(item: Item) | ClaimFailed(key: Key)
  datatype EnqueueResult = Refused | Existing(item: Item) | Stored(item: Item)

  // --------------------------------------------------- loops over a snapshot

  /** Number of items of the session that are not tombstones. */
  method CountActive(items: Items, s: Text) returns (n: nat)
    ensures n == |Active(items, s)|
  {
    n := 0;
    var rest := items.Keys;
    assert Active(items - rest, s) == {};
    while rest != {}
      invariant rest <= items.Keys
      invariant n == |Active(items - rest, s)|
      decreases |rest|
    {
      var k :| k in rest;
      var active := items[k].session == s && !items[k].status.Terminal();
      assert Active(items - (rest - {k}), s) == Active(items - rest, s) + (if active then {k} else {});
      if active { n := n + 1; }
      rest := rest - {k};
    }
    assert items - rest == items;
  }

  /** The scan of claimNext: None when a runner or blocker exists or nothing is queued. */
  method OldestCandidate(items: Items, s: Text) returns (r: Option<Key>)
    ensures r.Some? ==> OldestQueued(items, s, r.value) && !HasBlocker(items, s)
    ensures r.None? ==> HasBlocker(items, s) || forall k :: !OldestQueued(items, s, k)
  {
    r := None;
    var rest := items.Keys;
    while rest != {}
      invariant rest <= items.Keys
      invariant forall k :: k in items && k !in rest ==> !Blocks(items[k], s)
      invariant r.Some? ==> r.value in items && items[r.value].session == s && items[r.value].status.Queued?
      invariant forall k :: k in items && k !in rest && items[k].session == s && items[k].status.Queued? ==>
                              r.Some? && items[r.value].order <= items[k].order
      decreases |rest|
    {
      var k :| k in rest;
      if Blocks(items[k], s) {
        assert HasBlocker(items, s);
        return None;
      }
      if items[k].session == s && items[k].status.Queued? && (r.None? || items[k].order < items[r.value].order) {
        r := Some(k);
      }
      rest := rest - {k};
    }
  }

  method PositionOf(items: Items, k: Key) returns (n: nat)
    ensures n == Position(items, k)
  {
    if k !in items || !items[k].status.Queued? { return 0; }
    n := 1;
    var rest := items.Keys;
    ghost var ahead: set<Key> := {};
    while rest != {}
      invariant rest <= items.Keys
      invariant ahead == set j | j in items && j !in rest && items[j].session == k.session && items[j].status.Queued? && items[j].order < items[k].order
      invariant n == 1 + |ahead|
      decreases |rest|
    {
      var j :| j in rest;
      if items[j].session == k.session && items[j].status.Queued? && items[j].order < items[k].order {
        n := n + 1;
        ahead := ahead + {j};
      }
      rest := rest - {j};
    }
    assert ahead == set j | j in items && items[j].session == k.session && items[j].status.Queued? && items[j].order < items[k].order;
  }

  /** The tombstones of one session as a map of their own. */
  function Dead(items: Items, s: Text): Items {
    map k | k in items && items[k].session == s && items[k].status.Terminal() :: items[k]
  }

  ghost function NamesFrom(list: seq<Item>, n: nat): set<Key>
    requires n <= |list|
  {
    set i | n <= i < |list| :: list[i].Name()
  }

  lemma {:induction false} NamesFromCount(list: seq<Item>, n: nat)
    requires n <= |list|
    requires forall i, j :: 0 <= i < j < |list| ==> list[i].Name() != list[j].Name()
    ensures |NamesFrom(list, n)| == |list| - n
    decreases |list| - n
  {
    if n == |list| {
      assert NamesFrom(list, n) == {};
    } else {
      NamesFromCount(list, n + 1);
      assert list[n].Name() !in NamesFrom(list, n + 1);
      assert NamesFrom(list, n) == NamesFrom(list, n + 1) + {list[n].Name()};
    }
  }

  /** In the sorted list, the items above index i are exactly those after it. */
  lemma SortedRank(items: Items, s: Text, list: seq<Item>, i: nat)
    requires DistinctOrders(items) && Lists(Dead(items, s), list) && i < |list|
    requires forall k :: k in items ==> items[k].Name() == k
    ensures list[i].Name() in Tombstones(items, s)
    ensures |Newer(items, Tombstones(items, s), list[i].Name())| == |list| - i - 1
  {
    assert list[i].Name() in Dead(items, s);
    NewerIsLater(items, s, list, i);
    NamesDiffer(items, s, list);
    hide Newer, NamesFrom, Lists;
    NamesFromCount(list, i + 1);
  }

  lemma NamesDiffer(items: Items, s: Text, list: seq<Item>)
    requires Lists(Dead(items, s), list)
    ensures forall i, j :: 0 <= i < j < |list| ==> list[i].Name() != list[j].Name()
  {
    forall i, j | 0 <= i < j < |list| ensures list[i].Name() != list[j].Name() {
      assert list[i].order < list[j].order;
    }
  }

  lemma NewerIsLater(items: Items, s: Text, list: seq<Item>, i: nat)
    requires Lists(Dead(items, s), list) && i < |list| && list[i].Name() in Tombstones(items, s)
    requires forall k :: k in items ==> items[k].Name() == k
    ensures Newer(items, Tombstones(items, s), list[i].Name()) == NamesFrom(list, i + 1)
  {
    var dead, k := Tombstones(items, s), list[i].Name();
    assert Dead(items, s)[k] == list[i];
    forall j | j in Newer(items, dead, k) ensures j in NamesFrom(list, i + 1) {
      assert j in Dead(items, s);
      var m :| 0 <= m < |list| && list[m] == Dead(items, s)[j];
      assert list[m].Name() == j;
    }
    forall m | i + 1 <= m < |list| ensures list[m].Name() in Newer(items, dead, k) {
      assert list[m].Name() in Dead(items, s);
    }
  }

  lemma DeadCount(items: Items, s: Text, list: seq<Item>)
    requires Lists(Dead(items, s), list)
    requires forall k :: k in items ==> items[k].Name() == k
    ensures |list| == |Tombstones(items, s)|
  {
    forall k | k in Tombstones(items, s) ensures k in NamesFrom(list, 0) {
      assert k in Dead(items, s);
      var i :| 0 <= i < |list| && list[i] == Dead(items, s)[k];
    }
    assert NamesFrom(list, 0) == Tombstones(items, s);
    NamesFromCount(list, 0);
  }

  lemma DroppedSet(items: Items, s: Text, list: seq<Item>)
    requires DistinctOrders(items) && Lists(Dead(items, s), list) && |list| >= RETAINED
    requires forall k :: k in items ==> items[k].Name() == k
    ensures Tombstones(items, s) - Newest(items, Tombstones(items, s), RETAINED)
         == Names(list, |list| - RETAINED)
  {
    var dead := Tombstones(items, s);
    forall k | k in dead ensures k in Newest(items, dead, RETAINED) <==> k !in Names(list, |list| - RETAINED) {
      assert k in Dead(items, s);
      var i :| 0 <= i < |list| && list[i] == Dead(items, s)[k];
      SortedRank(items, s, list, i);
      assert list[i].Name() == k;
    }
    forall k | k in Names(list, |list| - RETAINED) ensures k in dead {
      var i :| 0 <= i < |list| - RETAINED && list[i].Name() == k;
      assert list[i].Name() in Dead(items, s);
    }
  }

  /** compactPromptQueueTombstones: sort the tombstones and delete all but the newest 128. */
  method CompactTombstones(items: Items, s: Text) returns (kept: Items)
    requires DistinctOrders(items)
    requires forall k :: k in items ==> items[k].Name() == k
    ensures kept == Compact(items, s)
  {
    var list := Listed(Dead(items, s));
    DeadCount(items, s, list);
    kept := items;
    if |list| < COMPACT_AT { return; }
    var n := 0;
    DroppedSet(items, s, list);
    hide Lists, DistinctOrders, Newest, Tombstones;
    while n < |list| - RETAINED
      invariant 0 <= n <= |list| - RETAINED
      invariant kept == items - Names(list, n)
    {
      NextDropped(items, list, n);
      kept := kept - {list[n].Name()};
      n := n + 1;
    }
  }

  lemma NextDropped(items: Items, list: seq<Item>, n: nat)
    requires n < |list|
    ensures items - Names(list, n + 1) == items - Names(list, n) - {list[n].Name()}
  {
    assert Names(list, n + 1) == Names(list, n) + {list[n].Name()};
  }

  method ResumeAll(items: Items, s: Text) returns (next: Items)
    ensures next == ResumedAll(items, s)
  {
    next := items;
    var rest := items.Keys;
    while rest != {}
      invariant rest <= items.Keys && next.Keys == items.Keys
      invariant forall k :: k in items ==> next[k] == if k in rest then items[k] else Resumed(items[k], s)
      decreases |rest|
    {
      var k :| k in rest;
      next := next[k := Resumed(items[k], s)];
      rest := rest - {k};
    }
  }

  // ---------------------------------------------------------------- the object

  /** What a call of op with write outcome p does to memory and file. */
  ghost predicate Effect(rules: Rules, q: Queue, file: File, op: Op, p: Persist, q': Queue, file': File) {
    if Enabled(rules, q, op) then
      && q' == Exposed(q, Next(rules, q, op), p)
      && if p.NotWritten? then file' == file else Holding(Next(rules, q, op).items, file')
    else q' == q && file' == file
  }

  ghost predicate Holding(items: Items, file: File) {
    file.version == VERSION && Lists(items, file.items)
  }

  class PromptQueue {
    const rules: Rules
    var items: Items
    var nextId: nat
    var file: File

    ghost function Value(): Queue
      reads this
    {
      Queue(items, nextId)
    }

    ghost predicate Ok()
      reads this
    {
      QueueModel.Valid(rules, Value())
    }

    /** An empty queue whose file was just created. */
    constructor (rules: Rules)
      ensures this.rules == rules && Value() == Queue(map[], 0) && Ok() && Holding(items, file)
    {
      this.rules := rules;
      items, nextId := map[], 0;
      file := File(VERSION, []);
    }

    method Persist(next: Items, p: Persist) returns (ok: bool)
      requires WellNamed(rules, next) && DistinctOrders(next)
      modifies this`file
      ensures ok == p.Saved?
      ensures if p.NotWritten? then file == old(file) else Holding(next, file)
    {
      if !p.NotWritten? {
        var list := Listed(next);
        file := File(VERSION, list);
      }
      ok := p.Saved?;
    }

    method Commit(ghost op: Op, next: Items, nextId': nat, p: Persist) returns (ok: bool)
      requires Ok() && Enabled(rules, Value(), op) && Queue(next, nextId') == Next(rules, Value(), op)
      modifies this
      ensures Ok() && ok == p.Saved?
      ensures Effect(rules, old(Value()), old(file), op, p, Value(), file)
    {
      NextValid(rules, Value(), op);
      ok := Persist(next, p);
      if ok { items, nextId := next, nextId'; }
    }

    method Enqueue(item: Item, now: int, p: Persist) returns (r: EnqueueResult)
      requires Ok()
      modifies this
      ensures Ok() && Effect(rules, old(Value()), old(file), Op.Enqueue(item, now), p, Value(), file)
      ensures r.Existing? ==> item.Name() in old(items) && r.item == old(items)[item.Name()]
      ensures r.Stored? <==> p.Saved? && Admissible(rules, old(Value()), item, now)
      ensures r.Stored? ==> item.Name() in items && r.item == items[item.Name()] == Admitted(old(Value()), item, now)
    {
      hide SingleRunner, LargestOrder, Compact, Active, ValidPayload, ValidNames, ValidItem;
      if !ValidNames(rules, item) || !ValidPayload(rules, item) { return Refused; }
      if item.Name() in items { return Existing(items[item.Name()]); }
      var n := CountActive(items, item.session);
      if n >= MAX_ACTIVE { return Refused; }
      var stored := item.(order := (nextId + 1) % ORDER_LIMIT, createdAt := now, status := Queued);
      if !ValidItem(rules, stored) { return Refused; }
      var next := CompactTombstones(items, item.session);
      var ok := Commit(Op.Enqueue(item, now), next[item.Name() := stored], stored.order, p);
      r := if ok then Stored(stored) else Refused;
    }

    method ClaimNext(s: Text, p: Persist) returns (r: ClaimResult)
      requires Ok()
      modifies this
      ensures Ok()
      ensures r.Nothing? ==> Value() == old(Value()) && file == old(file) && forall k :: !Enabled(rules, old(Value()), Claim(s, k))
      ensures r.Handed? ==> p.Saved? && r.item.Name() in items && r.item == items[r.item.Name()]
      ensures r.Handed? ==> Enabled(rules, old(Value()), Claim(s, r.item.Name()))
      ensures r.Handed? ==> Effect(rules, old(Value()), old(file), Claim(s, r.item.Name()), p, Value(), file)
      ensures r.ClaimFailed? ==> !p.Saved? && Effect(rules, old(Value()), old(file), Claim(s, r.key), p, Value(), file)
    {
      var c := OldestCandidate(items, s);
      if c.None? { return Nothing; }
      var claimed := items[c.value].(status := Running);
      assert claimed.Name() == c.value;
      var ok := Commit(Claim(s, c.value), items[c.value := claimed], nextId, p);
      r := if ok then Handed(claimed) else ClaimFailed(c.value);
    }

    method ReleaseClaim(k: Key, p: Persist) returns (ok: bool)
      requires Ok()
      modifies this
      ensures Ok() && Effect(rules, old(Value()), old(file), Release(k), p, Value(), file)
      ensures ok <==> k in old(items) && (old(items)[k].status.Queued? || (old(items)[k].status.Running? && p.Saved?))
    {
      if k !in items { return false; }
      if items[k].status.Queued? { return true; }
      if !items[k].status.Running? { return false; }
      ok := Commit(Release(k), items[k := items[k].(status := Queued)], nextId, p);
    }

    method Complete(k: Key, p: Persist) returns (ok: bool)
      requires Ok()
      modifies this
      ensures Ok() && Effect(rules, old(Value()), old(file), Op.Complete(k), p, Value(), file)
      ensures ok <==> k in old(items) && old(items)[k].status.Running? && p.Saved?
    {
      if k !in items || !items[k].status.Running? { return false; }
      ok := Bury(Op.Complete(k), k, Completed, p);
    }

    method Cancel(k: Key, p: Persist) returns (ok: bool)
      requires Ok()
      modifies this
      ensures Ok() && Effect(rules, old(Value()), old(file), Op.Cancel(k), p, Value(), file)
      ensures ok <==> k in old(items) && (old(items)[k].status.Cancelled? || (Enabled(rules, old(Value()), Op.Cancel(k)) && p.Saved?))
    {
      if k !in items { return false; }
      if items[k].status.Cancelled? { return true; }
      if !items[k].status.Queued? && !items[k].status.Blocked() { return false; }
      ok := Bury(Op.Cancel(k), k, Cancelled, p);
    }

    method SkipIndeterminate(k: Key, p: Persist) returns (ok: bool)
      requires Ok()
      modifies this
      ensures Ok() && Effect(rules, old(Value()), old(file), Skip(k), p, Value(), file)
      ensures ok <==> k in old(items) && old(items)[k].status.BlockedIndeterminate? && p.Saved?
    {
      if k !in items || !items[k].status.BlockedIndeterminate? { return false; }
      ok := Bury(Skip(k), k, Completed, p);
    }

    /** The shared tail of complete, cancel and skip. */
    method Bury(ghost op: Op, k: Key, status: Status, p: Persist) returns (ok: bool)
      requires Ok() && k in items && status.Terminal()
      requires Enabled(rules, Value(), op) && Next(rules, Value(), op) == Finished(Value(), k, status)
      modifies this
      ensures Ok() && ok == p.Saved? && Effect(rules, old(Value()), old(file), op, p, Value(), file)
    {
      var next := CompactTombstones(Buried(items, k, status), k.session);
      ok := Commit(op, next, nextId, p);
    }

    method Block(k: Key, status: Status, p: Persist) returns (ok: bool)
      requires Ok()
      modifies this
      ensures Ok() && Effect(rules, old(Value()), old(file), Op.Block(k, status), p, Value(), file)
      ensures ok <==> Enabled(rules, old(Value()), Op.Block(k, status)) && p.Saved?
    {
      if k !in items || !status.Blocked() || !items[k].status.Live() { return false; }
      ok := Commit(Op.Block(k, status), items[k := items[k].(status := status)], nextId, p);
    }

    method ResumeSession(s: Text, p: Persist) returns (ok: bool)
      requires Ok()
      modifies this
      ensures Ok() && Effect(rules, old(Value()), old(file), Resume(s), p, Value(), file)
    {
      var next := ResumeAll(items, s);
      if next == items { return true; }
      ok := Commit(Resume(s), next, nextId, p);
    }
  }
}
