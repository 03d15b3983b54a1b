/** The per-session prompt FIFO of daemon/cmd/daemon/prompt_queue.go, on values. */
module QueueModel {
  import opened Durable

  const MAX_ACTIVE := 20
  const COMPACT_AT := 256
  const RETAINED := 128
  const ORDER_LIMIT := 0x1_0000_0000_0000_0000
  const PLAN: Text := [112, 108, 97, 110]
  const PAUSED: Text := [112, 97, 117, 115, 101, 100]

  /** Other covers every string that is not a status of the current format. */
  datatype Status =
    | Queued | Running | Completed
    | BlockedFailed | BlockedInterrupted | BlockedIndeterminate
    | Cancelled | Other(name: Text)
  {
    predicate Terminal() { Completed? || Cancelled? }
    predicate Blocked() { BlockedFailed? || BlockedInterrupted? || BlockedIndeterminate? }
    predicate Live() { Queued? || Running? }
  }

  datatype Item = Item(session: Text, client: Text, agent: Text,
                       prompt: Text, attachments: Text, envelope: Text, mode: Text,
                       createdAt: int, order: nat, status: Status)
  {
    function Name(): Key { Key(session, client) }
    predicate Empty() { prompt == [] && attachments == [] && envelope == [] }
    /** clearPromptQueuePayload. */
    function Cleared(): Item { this.(prompt := [], attachments := [], envelope := [], mode := []) }
  }

  /** The library checks that the queue calls: TrimSpace(t) == "", utf8.ValidString and json.Valid. */
  datatype Rules = Rules(blank: Text -> bool, utf8: Text -> bool, json: Text -> bool)

  type Items = map<Key, Item>

  datatype Queue = Queue(items: Items, nextId: nat)

  predicate ValidText(rules: Rules, t: Text, max: nat) {
    !rules.blank(t) && |t| <= max && rules.utf8(t)
  }

  predicate ValidNames(rules: Rules, i: Item) {
    && ValidText(rules, i.session, 512)
    && ValidText(rules, i.client, 256)
    && ValidText(rules, i.agent, 64)
  }

  predicate ValidPayload(rules: Rules, i: Item) {
    && (i.prompt == [] || rules.utf8(i.prompt))
    && (i.attachments == [] || rules.json(i.attachments))
    && (i.envelope == [] || (i.prompt == [] && i.attachments == []))
    && !i.Empty()
  }

  /** validatePromptQueueItem. */
  predicate ValidItem(rules: Rules, i: Item) {
    && ValidNames(rules, i)
    && i.order != 0 && i.createdAt > 0
    && if i.status.Terminal() then i.Empty() else
         && ValidPayload(rules, i)
         && (i.mode == [] || i.mode == PLAN)
         && !i.status.Other?
  }

  // ---------------------------------------------------------------- counting

  ghost function InSession(items: Items, s: Text): set<Key> {
    set k | k in items && items[k].session == s
  }

  ghost function Active(items: Items, s: Text): set<Key> {
    set k | k in items && items[k].session == s && !items[k].status.Terminal()
  }

  ghost function Tombstones(items: Items, s: Text): set<Key> {
    set k | k in items && items[k].session == s && items[k].status.Terminal()
  }

  /** Members of ks whose order exceeds that of k. */
  ghost function Newer(items: Items, ks: set<Key>, k: Key): set<Key>
    requires ks <= items.Keys && k in items
  {
    set j | j in ks && items[j].order > items[k].order
  }

  /** The n members of ks with the largest orders. */
  ghost function Newest(items: Items, ks: set<Key>, n: nat): set<Key>
    requires ks <= items.Keys
  {
    set k | k in ks && |Newer(items, ks, k)| < n
  }

  /** compactPromptQueueTombstones. */
  ghost function Compact(items: Items, s: Text): Items {
    var dead := Tombstones(items, s);
    if |dead| < COMPACT_AT then items
    else items - (dead - Newest(items, dead, RETAINED))
  }

  // -------------------------------------------------------------- operations

  predicate Blocks(i: Item, s: Text) {
    i.session == s && (i.status.Running? || i.status.Blocked())
  }

  ghost predicate OldestQueued(items: Items, s: Text, k: Key) {
    && k in items && items[k].session == s && items[k].status.Queued?
    && forall j :: j in items && items[j].session == s && items[j].status.Queued? ==> items[k].order <= items[j].order
  }

  ghost predicate HasBlocker(items: Items, s: Text) {
    exists k :: k in items && Blocks(items[k], s)
  }

  /** One-based place of k among the queued items of its session, 0 when it is not queued. */
  ghost function Position(items: Items, k: Key): nat {
    if k !in items || !items[k].status.Queued? then 0
    else 1 + |set j | j in items && items[j].session == k.session && items[j].status.Queued? && items[j].order < items[k].order|
  }

  datatype Op =
    | Enqueue(item: Item, now: int)
    | Claim(session: Text, key: Key)
    | Release(key: Key)
    | Complete(key: Key)
    | Block(key: Key, status: Status)
    | Cancel(key: Key)
    | Resume(session: Text)
    | Skip(key: Key)

  /** The item that enqueue stores; the order is a uint64 and may wrap to the refused 0. */
  function Admitted(q: Queue, item: Item, now: int): Item {
    item.(order := (q.nextId + 1) % ORDER_LIMIT, createdAt := now, status := Queued)
  }

  ghost predicate Admissible(rules: Rules, q: Queue, item: Item, now: int) {
    && ValidNames(rules, item) && ValidPayload(rules, item)
    && item.Name() !in q.items
    && |Active(q.items, item.session)| < MAX_ACTIVE
    && ValidItem(rules, Admitted(q, item, now))
  }

  ghost function Enqueued(q: Queue, item: Item, now: int): Queue {
    var stored := Admitted(q, item, now);
    Queue(Compact(q.items, item.session)[item.Name() := stored], stored.order)
  }

  ghost function Relabelled(q: Queue, k: Key, status: Status): Queue
    requires k in q.items
  {
    q.(items := q.items[k := q.items[k].(status := status)])
  }

  function Buried(items: Items, k: Key, status: Status): Items
    requires k in items
  {
    items[k := items[k].Cleared().(status := status)]
  }

  /** A tombstone replaces the item, then the session is compacted. */
  ghost function Finished(q: Queue, k: Key, status: Status): Queue
    requires k in q.items
  {
    q.(items := Compact(Buried(q.items, k, status), k.session))
  }

  function Resumed(i: Item, s: Text): Item {
    if i.session == s && (i.status.BlockedFailed? || i.status.BlockedInterrupted?)
    then i.Cleared().(status := Completed) else i
  }

  function ResumedAll(items: Items, s: Text): Items {
    map k | k in items :: Resumed(items[k], s)
  }

  /** What a restart makes of an item: a running prompt has an unknown outcome. */
  function Downgraded(i: Item): Item {
    if i.status.Running? then i.(status := BlockedIndeterminate) else i
  }

  function Restarted(q: Queue): Queue {
    q.(items := map k | k in q.items :: Downgraded(q.items[k]))
  }

  /** Whether an operation gets as far as writing. */
  ghost predicate Enabled(rules: Rules, q: Queue, op: Op) {
    match op
    case Enqueue(item, now) => Admissible(rules, q, item, now)
    case Claim(s, k) => OldestQueued(q.items, s, k) && !HasBlocker(q.items, s)
    case Release(k) => k in q.items && q.items[k].status.Running?
    case Complete(k) => k in q.items && q.items[k].status.Running?
    case Block(k, status) => k in q.items && q.items[k].status.Live() && status.Blocked()
    case Cancel(k) => k in q.items && (q.items[k].status.Queued? || q.items[k].status.Blocked())
    case Resume(s) => ResumedAll(q.items, s) != q.items
    case Skip(k) => k in q.items && q.items[k].status.BlockedIndeterminate?
  }

  /** The queue that an enabled operation tries to persist. */
  ghost function Next(rules: Rules, q: Queue, op: Op): Queue
    requires Enabled(rules, q, op)
  {
    match op
    case Enqueue(item, now) => Enqueued(q, item, now)
    case Claim(_, k) => Relabelled(q, k, Running)
    case Release(k) => Relabelled(q, k, Queued)
    case Complete(k) => Finished(q, k, Completed)
    case Block(k, status) => Relabelled(q, k, status)
    case Cancel(k) => Finished(q, k, Cancelled)
    case Resume(s) => q.(items := ResumedAll(q.items, s))
    case Skip(k) => Finished(q, k, Completed)
  }

  // --------------------------------------------------------------- invariant

  ghost predicate DistinctOrders(items: Items) {
    forall j, k :: j in items && k in items && items[j].order == items[k].order ==> j == k
  }

  /** nextId is the largest stored order, 0 for an empty queue. */
  ghost predicate LargestOrder(items: Items, n: nat) {
    && (forall k :: k in items ==> items[k].order <= n)
    && (n == 0 || exists k :: k in items && items[k].order == n)
  }

  /** At most one item of a session runs, and it is older than all queued ones. */
  ghost predicate SingleRunner(items: Items) {
    forall j, k :: j in items && k in items && j != k && j.session == k.session && items[j].status.Running? ==>
      !items[k].status.Running? && (items[k].status.Queued? ==> items[j].order < items[k].order)
  }

  ghost predicate WellNamed(rules: Rules, items: Items) {
    forall k :: k in items ==> items[k].Name() == k && ValidItem(rules, items[k])
  }

  ghost predicate Valid(rules: Rules, q: Queue) {
    && WellNamed(rules, q.items)
    && DistinctOrders(q.items)
    && LargestOrder(q.items, q.nextId)
    && SingleRunner(q.items)
    && q.nextId < ORDER_LIMIT
  }

  /** What a session may hold: 20 active items and 275 in total. */
  ghost predicate WithinCapacity(items: Items) {
    forall s :: |Active(items, s)| <= MAX_ACTIVE && |InSession(items, s)| <= COMPACT_AT - 1 + MAX_ACTIVE
  }

  // -------------------------------------------------------------- compaction

  /** Compaction retains exactly the n newest members. */
  lemma {:induction false} NewestCount(items: Items, ks: set<Key>, n: nat)
    requires ks <= items.Keys && DistinctOrders(items)
    ensures |Newest(items, ks, n)| == if n <= |ks| then n else |ks|
  {
    if n == 0 {
      assert Newest(items, ks, 0) == {};
    } else {
      NewestCount(items, ks, n - 1);
      NewestBetween(items, ks, n);
      hide Newest;
      if ks <= Newest(items, ks, n - 1) {
        assert Newest(items, ks, n - 1) == ks == Newest(items, ks, n);
      } else {
        NewestGrows(items, ks, n - 1);
      }
    }
  }

  lemma NewestGrows(items: Items, ks: set<Key>, n: nat)
    requires ks <= items.Keys && DistinctOrders(items)
    requires |Newest(items, ks, n)| == (if n <= |ks| then n else |ks|) && !(ks <= Newest(items, ks, n))
    ensures |Newest(items, ks, n + 1)| == n + 1 <= |ks|
  {
    var x := NextNewest(items, ks, n);
    NewestStep(items, ks, n, x);
    hide Newest, Newer, DistinctOrders;
  }

  lemma NewestBetween(items: Items, ks: set<Key>, n: nat)
    requires ks <= items.Keys && n > 0
    ensures Newest(items, ks, n - 1) <= Newest(items, ks, n) <= ks
  {
    hide Newer;
  }

  /** As long as some member is outside the n newest, one has exactly n above it. */
  lemma NextNewest(items: Items, ks: set<Key>, n: nat) returns (x: Key)
    requires ks <= items.Keys && DistinctOrders(items)
    requires |Newest(items, ks, n)| == if n <= |ks| then n else |ks|
    requires !(ks <= Newest(items, ks, n))
    ensures x in ks && |Newer(items, ks, x)| == n && n < |ks|
  {
    var rest := ks - Newest(items, ks, n);
    var w :| w in ks && w !in Newest(items, ks, n);
    assert w in rest;
    x := MaxOrder(items, rest);
    RankOfNext(items, ks, n, x);
    assert ks == Newest(items, ks, n) + rest;
  }

  /** Raising n by one adds exactly the member with n others above it. */
  lemma NewestStep(items: Items, ks: set<Key>, n: nat, x: Key)
    requires ks <= items.Keys && DistinctOrders(items)
    requires x in ks && |Newer(items, ks, x)| == n
    ensures Newest(items, ks, n + 1) == Newest(items, ks, n) + {x}
    ensures x !in Newest(items, ks, n)
  {
    forall k | k in ks ensures |Newer(items, ks, k)| == n <==> k == x {
      if k != x && items[k].order < items[x].order { NewerCounts(items, ks, k, x); }
      if k != x && items[x].order < items[k].order { NewerCounts(items, ks, x, k); }
    }
    hide Newer;
  }

  /** The older of two members has more above it. */
  lemma NewerCounts(items: Items, ks: set<Key>, j: Key, k: Key)
    requires ks <= items.Keys && j in ks && k in ks && items[j].order < items[k].order
    ensures |Newer(items, ks, k)| < |Newer(items, ks, j)|
  {
    SubsetSize(Newer(items, ks, k) + {k}, Newer(items, ks, j));
  }

  lemma SubsetSize<T>(a: set<T>, b: set<T>)
    requires a <= b
    ensures |a| <= |b|
  {
    assert b == a + (b - a);
  }

  lemma MaxOrder(items: Items, ks: set<Key>) returns (x: Key)
    requires ks <= items.Keys && ks != {}
    ensures x in ks && forall k :: k in ks ==> items[k].order <= items[x].order
  {
    x :| x in ks;
    if ks != {x} {
      var y := MaxOrder(items, ks - {x});
      if items[y].order > items[x].order { x := y; }
    }
  }

  /** The largest member outside the n newest has exactly those n above it. */
  lemma RankOfNext(items: Items, ks: set<Key>, n: nat, x: Key)
    requires ks <= items.Keys && DistinctOrders(items)
    requires x in ks - Newest(items, ks, n)
    requires forall k :: k in ks - Newest(items, ks, n) ==> items[k].order <= items[x].order
    requires |Newest(items, ks, n)| == if n <= |ks| then n else |ks|
    ensures Newer(items, ks, x) == Newest(items, ks, n) && |Newer(items, ks, x)| == n
  {
    forall k | k in Newest(items, ks, n) ensures k in Newer(items, ks, x) {
      if items[k].order <= items[x].order {
        assert Newer(items, ks, x) <= Newer(items, ks, k);
        SubsetSize(Newer(items, ks, x), Newer(items, ks, k));
      }
    }
    assert Newer(items, ks, x) == Newest(items, ks, n);
    assert x in ks - Newest(items, ks, n);
    assert ks == Newest(items, ks, n) + (ks - Newest(items, ks, n));
  }

  /** Compaction drops nothing but tombstones of its session, keeps the newest
      of them, and never drops the item with the largest order. */
  lemma CompactKeeps(items: Items, s: Text, k: Key)
    requires k in items
    requires !(items[k].session == s && items[k].status.Terminal()) || (forall j :: j in items ==> items[j].order <= items[k].order)
    ensures k in Compact(items, s)
    ensures forall j :: j in Compact(items, s) ==> j in items && Compact(items, s)[j] == items[j]
  {
    var dead := Tombstones(items, s);
    if k in dead {
      assert Newer(items, dead, k) == {};
    }
  }

  lemma CompactSize(items: Items, s: Text)
    requires DistinctOrders(items)
    ensures |Tombstones(items, s)| < COMPACT_AT ==> Compact(items, s) == items
    ensures |Tombstones(Compact(items, s), s)| <= COMPACT_AT - 1
    ensures |Tombstones(items, s)| >= COMPACT_AT ==> |Tombstones(Compact(items, s), s)| == RETAINED
    ensures |Tombstones(Compact(items, s), s)| <= |Tombstones(items, s)|
    ensures forall t :: Active(Compact(items, s), t) == Active(items, t)
    ensures forall t :: t != s ==> InSession(Compact(items, s), t) == InSession(items, t)
  {
    var dead := Tombstones(items, s);
    var after := Compact(items, s);
    assert forall t :: Active(after, t) == Active(items, t);
    assert forall t :: t != s ==> InSession(after, t) == InSession(items, t);
    if |dead| >= COMPACT_AT {
      NewestCount(items, dead, RETAINED);
      assert Tombstones(after, s) == Newest(items, dead, RETAINED);
    }
  }

  lemma SessionSplit(items: Items, s: Text)
    ensures |InSession(items, s)| == |Active(items, s)| + |Tombstones(items, s)|
  {
    assert InSession(items, s) == Active(items, s) + Tombstones(items, s);
    assert Active(items, s) !! Tombstones(items, s);
  }
}
