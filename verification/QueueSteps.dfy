/** What every queue operation keeps. */
module QueueSteps {
  import opened Durable
  import opened QueueModel

  /** after lists the same items, each with its name and order, and no item becomes live. */
  ghost predicate Restated(rules: Rules, before: Items, after: Items) {
    && after.Keys == before.Keys
    && (forall k :: k in before ==> after[k].Name() == before[k].Name() && after[k].order == before[k].order)
    && (forall k :: k in before ==> ValidItem(rules, after[k]))
    && (forall k :: k in before && after[k].status.Live() ==> after[k].status == before[k].status)
  }

  lemma RestatedValid(rules: Rules, q: Queue, after: Items)
    requires Valid(rules, q) && Restated(rules, q.items, after)
    ensures Valid(rules, Queue(after, q.nextId))
  {
    if q.nextId != 0 {
      var k :| k in q.items && q.items[k].order == q.nextId;
      assert k in after && after[k].order == q.nextId;
    }
  }

  lemma CompactValid(rules: Rules, q: Queue, s: Text)
    requires Valid(rules, q)
    ensures Valid(rules, Queue(Compact(q.items, s), q.nextId))
  {
    if q.nextId != 0 {
      var k :| k in q.items && q.items[k].order == q.nextId;
      CompactKeeps(q.items, s, k);
    }
  }

  lemma FinishedValid(rules: Rules, q: Queue, k: Key, status: Status)
    requires Valid(rules, q) && k in q.items && status.Terminal()
    ensures Valid(rules, Finished(q, k, status))
  {
    var after := Buried(q.items, k, status);
    BuriedRestates(rules, q.items, k, status);
    hide Valid, Restated, Compact;
    RestatedValid(rules, q, after);
    CompactValid(rules, Queue(after, q.nextId), k.session);
  }

  lemma EnqueuedValid(rules: Rules, q: Queue, item: Item, now: int)
    requires Valid(rules, q) && Admissible(rules, q, item, now)
    ensures Valid(rules, Enqueued(q, item, now))
  {
    CompactValid(rules, q, item.session);
    AdmittedOrder(rules, q, item, now);
    AddedValid(rules, Queue(Compact(q.items, item.session), q.nextId), Admitted(q, item, now));
  }

  lemma AddedValid(rules: Rules, q: Queue, stored: Item)
    requires Valid(rules, q) && ValidItem(rules, stored) && stored.status.Queued? && stored.Name() !in q.items
    requires stored.order == q.nextId + 1 < ORDER_LIMIT
    ensures Valid(rules, Queue(q.items[stored.Name() := stored], stored.order))
  {
    var after := q.items[stored.Name() := stored];
    assert stored.Name() in after && after[stored.Name()].order == stored.order;
  }

  /** Relabelling keeps names, orders and so the largest order. */
  lemma RelabelledShape(rules: Rules, q: Queue, k: Key, status: Status)
    requires Valid(rules, q) && k in q.items && !q.items[k].status.Terminal() && !status.Terminal() && !status.Other?
    ensures var after := Relabelled(q, k, status);
      WellNamed(rules, after.items) && DistinctOrders(after.items) && LargestOrder(after.items, after.nextId)
  {
    var after := Relabelled(q, k, status);
    if q.nextId != 0 {
      var m :| m in q.items && q.items[m].order == q.nextId;
      assert m in after.items && after.items[m].order == q.nextId;
    }
  }

  lemma ClaimedValid(rules: Rules, q: Queue, s: Text, k: Key)
    requires Valid(rules, q) && OldestQueued(q.items, s, k) && !HasBlocker(q.items, s)
    ensures Valid(rules, Relabelled(q, k, Running))
  {
    RelabelledShape(rules, q, k, Running);
  }

  lemma ReleasedValid(rules: Rules, q: Queue, k: Key)
    requires Valid(rules, q) && k in q.items && q.items[k].status.Running?
    ensures Valid(rules, Relabelled(q, k, Queued))
  {
    RelabelledShape(rules, q, k, Queued);
  }

  lemma BlockedValid(rules: Rules, q: Queue, k: Key, status: Status)
    requires Valid(rules, q) && k in q.items && q.items[k].status.Live() && status.Blocked()
    ensures Valid(rules, Relabelled(q, k, status))
  {
    RelabelledShape(rules, q, k, status);
  }

  lemma RestartedValid(rules: Rules, q: Queue)
    requires Valid(rules, q)
    ensures Valid(rules, Restarted(q))
  {
    RestartedRestates(rules, q.items, Restarted(q).items);
    RestartedItems(q);
    hide Valid, Restarted;
    RestatedValid(rules, q, Restarted(q).items);
  }

  lemma RestartedRestates(rules: Rules, items: Items, after: Items)
    requires WellNamed(rules, items) && after == map k | k in items :: Downgraded(items[k])
    ensures Restated(rules, items, after)
  {
    forall k | k in items ensures ItemRestated(rules, items[k], after[k]) { DowngradedItem(rules, items[k]); }
    hide Downgraded, ValidItem;
  }

  predicate ItemRestated(rules: Rules, i: Item, j: Item) {
    ValidItem(rules, j) && j.Name() == i.Name() && j.order == i.order && (j.status.Live() ==> j.status == i.status)
  }

  lemma DowngradedItem(rules: Rules, i: Item)
    requires ValidItem(rules, i)
    ensures ItemRestated(rules, i, Downgraded(i))
  {
  }

  lemma BuriedRestates(rules: Rules, items: Items, k: Key, status: Status)
    requires WellNamed(rules, items) && k in items && status.Terminal()
    ensures Restated(rules, items, Buried(items, k, status))
  {
    assert ItemRestated(rules, items[k], items[k].Cleared().(status := status));
    forall j | j in items ensures ItemRestated(rules, items[j], Buried(items, k, status)[j]) {
      hide ValidItem;
    }
    hide Buried, ValidItem;
  }

  lemma RestartedItems(q: Queue)
    ensures Restarted(q) == Queue(Restarted(q).items, q.nextId)
  {
  }

  lemma ResumedValid(rules: Rules, q: Queue, s: Text)
    requires Valid(rules, q)
    ensures Valid(rules, q.(items := ResumedAll(q.items, s)))
  {
    RestatedValid(rules, q, ResumedAll(q.items, s));
  }

  /** Every operation keeps the queue invariant: names, unique orders, nextId
      equal to the largest order, and the single runner ahead of its queue. */
  lemma NextValid(rules: Rules, q: Queue, op: Op)
    requires Valid(rules, q) && Enabled(rules, q, op)
    ensures Valid(rules, Next(rules, q, op))
  {
    match op {
      case Enqueue(item, now) => EnqueuedValid(rules, q, item, now);
      case Claim(s, k) => ClaimedValid(rules, q, s, k);
      case Release(k) => ReleasedValid(rules, q, k);
      case Complete(k) => FinishedValid(rules, q, k, Completed);
      case Cancel(k) => FinishedValid(rules, q, k, Cancelled);
      case Skip(k) => FinishedValid(rules, q, k, Completed);
      case Block(k, status) => BlockedValid(rules, q, k, status);
      case Resume(s) => ResumedValid(rules, q, s);
    }
  }

  // ---------------------------------------------------------------- capacity

  lemma RestatedCapacity(rules: Rules, before: Items, after: Items)
    requires WithinCapacity(before) && after.Keys == before.Keys
    requires forall k :: k in before ==> after[k].session == before[k].session
    requires forall k :: k in before && before[k].status.Terminal() ==> after[k].status.Terminal()
    ensures WithinCapacity(after)
  {
    forall s ensures |Active(after, s)| <= MAX_ACTIVE && |InSession(after, s)| <= COMPACT_AT - 1 + MAX_ACTIVE {
      assert InSession(after, s) == InSession(before, s);
      SubsetSize(Active(after, s), Active(before, s));
    }
  }

  lemma CompactCapacity(items: Items, s: Text)
    requires WithinCapacity(items) && DistinctOrders(items)
    ensures WithinCapacity(Compact(items, s))
  {
    CompactSize(items, s);
    forall t ensures |InSession(Compact(items, s), t)| <= |InSession(items, t)| {
      SubsetSize(InSession(Compact(items, s), t), InSession(items, t));
    }
  }

  lemma EnqueuedCapacity(rules: Rules, q: Queue, item: Item, now: int)
    requires Valid(rules, q) && WithinCapacity(q.items) && Admissible(rules, q, item, now)
    ensures WithinCapacity(Enqueued(q, item, now).items)
  {
    CompactSize(q.items, item.session);
    CompactCapacity(q.items, item.session);
    AddedCapacity(Compact(q.items, item.session), Admitted(q, item, now));
  }

  lemma AddedCapacity(items: Items, stored: Item)
    requires WithinCapacity(items) && stored.Name() !in items && !stored.status.Terminal()
    requires |Active(items, stored.session)| < MAX_ACTIVE && |Tombstones(items, stored.session)| < COMPACT_AT
    ensures WithinCapacity(items[stored.Name() := stored])
  {
    var s, k := stored.session, stored.Name();
    var after := items[k := stored];
    assert Active(after, s) == Active(items, s) + {k};
    assert Tombstones(after, s) == Tombstones(items, s);
    SessionSplit(after, s);
    forall t | t != s ensures Active(after, t) == Active(items, t) && InSession(after, t) == InSession(items, t) {}
    hide Active, InSession, Tombstones;
  }

  lemma FinishedCapacity(rules: Rules, q: Queue, k: Key, status: Status)
    requires Valid(rules, q) && WithinCapacity(q.items) && k in q.items && status.Terminal()
    ensures WithinCapacity(Finished(q, k, status).items)
  {
    var after := Buried(q.items, k, status);
    RestatedCapacity(rules, q.items, after);
    CompactCapacity(after, k.session);
  }

  lemma RelabelledCapacity(rules: Rules, q: Queue, k: Key, status: Status)
    requires WithinCapacity(q.items) && k in q.items && !q.items[k].status.Terminal()
    ensures WithinCapacity(Relabelled(q, k, status).items)
  {
    RestatedCapacity(rules, q.items, Relabelled(q, k, status).items);
  }

  /** From an empty start no session ever holds more than 20 active items or 275 in total. */
  lemma NextCapacity(rules: Rules, q: Queue, op: Op)
    requires Valid(rules, q) && WithinCapacity(q.items) && Enabled(rules, q, op)
    ensures WithinCapacity(Next(rules, q, op).items)
  {
    match op {
      case Enqueue(item, now) => EnqueuedCapacity(rules, q, item, now);
      case Claim(_, k) => RelabelledCapacity(rules, q, k, Running);
      case Release(k) => RelabelledCapacity(rules, q, k, Queued);
      case Block(k, status) => RelabelledCapacity(rules, q, k, status);
      case Complete(k) => FinishedCapacity(rules, q, k, Completed);
      case Cancel(k) => FinishedCapacity(rules, q, k, Cancelled);
      case Skip(k) => FinishedCapacity(rules, q, k, Completed);
      case Resume(s) => ResumedCapacity(rules, q, s);
    }
  }

  lemma RestartedCapacity(rules: Rules, q: Queue)
    requires WithinCapacity(q.items)
    ensures WithinCapacity(Restarted(q).items)
  {
    RestatedCapacity(rules, q.items, Restarted(q).items);
  }

  lemma ResumedCapacity(rules: Rules, q: Queue, s: Text)
    requires WithinCapacity(q.items)
    ensures WithinCapacity(ResumedAll(q.items, s))
  {
    RestatedCapacity(rules, q.items, ResumedAll(q.items, s));
  }

  // ------------------------------------------------- facts that never go away

  /** Statements about one order that no later operation can undo. */
  datatype Fact =
    | Retired(order: nat)                // it is no longer queued or running
    | Floor(session: Text, order: nat)   // nothing older is live in the session
    | Held(key: Key, order: nat)         // only key carries it, and not in the queued state
    | Owned(key: Key, order: nat)        // only key carries it

  ghost predicate Holds(f: Fact, q: Queue) {
    && f.order <= q.nextId
    && match f
       case Retired(o) => forall k :: k in q.items && q.items[k].order == o ==> !q.items[k].status.Live()
       case Floor(s, o) => forall k :: k in q.items && k.session == s && q.items[k].status.Live() ==> o <= q.items[k].order
       case Held(h, o) => forall k :: k in q.items && q.items[k].order == o ==> k == h && !q.items[k].status.Queued?
       case Owned(h, o) => forall k :: k in q.items && q.items[k].order == o ==> k == h
  }

  /** Items only leave, stay, or keep their order without becoming live. */
  ghost predicate Fades(before: Items, after: Items) {
    forall k :: k in after ==>
      (k in before && after[k].order == before[k].order && (after[k].status.Live() ==> after[k].status == before[k].status))
  }

  lemma FadingKeepsFact(q: Queue, after: Items, f: Fact)
    requires Holds(f, q) && Fades(q.items, after)
    ensures Holds(f, Queue(after, q.nextId))
  {
  }

  lemma AddedKeepsFact(q: Queue, stored: Item, f: Fact)
    requires Holds(f, q) && stored.order == q.nextId + 1
    ensures Holds(f, Queue(q.items[stored.Name() := stored], stored.order))
  {
  }

  lemma EnqueuedKeepsFact(rules: Rules, q: Queue, item: Item, now: int, f: Fact)
    requires Valid(rules, q) && Admissible(rules, q, item, now) && Holds(f, q)
    ensures Holds(f, Enqueued(q, item, now))
  {
    hide Valid, Holds, ValidNames, ValidPayload, Active;
    var kept := Compact(q.items, item.session);
    FadingKeepsFact(q, kept, f);
    assert Admitted(q, item, now).order == q.nextId + 1 by { AdmittedOrder(rules, q, item, now); }
    AddedKeepsFact(q.(items := kept), Admitted(q, item, now), f);
  }

  /** A stored order never wraps: the wrapped value 0 is refused. */
  lemma AdmittedOrder(rules: Rules, q: Queue, item: Item, now: int)
    requires Valid(rules, q) && ValidItem(rules, Admitted(q, item, now))
    ensures Admitted(q, item, now).order == q.nextId + 1 < ORDER_LIMIT
  {
  }

  lemma FinishedFades(q: Queue, k: Key, status: Status)
    requires k in q.items && status.Terminal()
    ensures Fades(q.items, Finished(q, k, status).items)
  {
    assert Fades(q.items, Buried(q.items, k, status));
    assert Fades(Buried(q.items, k, status), Finished(q, k, status).items);
  }

  lemma SwitchKeepsFact(rules: Rules, q: Queue, k: Key, status: Status, f: Fact)
    requires Valid(rules, q) && k in q.items && Holds(f, q)
    requires status.Live() && q.items[k].status.Live()
    requires f.Held? && status.Queued? ==> k != f.key
    ensures Holds(f, Relabelled(q, k, status))
  {
  }

  lemma NextKeepsFact(rules: Rules, q: Queue, op: Op, f: Fact)
    requires Valid(rules, q) && Enabled(rules, q, op) && Holds(f, q)
    requires f.Held? ==> op != Release(f.key)
    ensures Holds(f, Next(rules, q, op))
  {
    match op {
      case Enqueue(item, now) => EnqueuedKeepsFact(rules, q, item, now, f);
      case Claim(_, k) => SwitchKeepsFact(rules, q, k, Running, f);
      case Release(k) => SwitchKeepsFact(rules, q, k, Queued, f);
      case _ =>
        NextFades(rules, q, op);
        FadingKeepsFact(q, Next(rules, q, op).items, f);
    }
  }

  lemma NextFades(rules: Rules, q: Queue, op: Op)
    requires Enabled(rules, q, op) && !op.Enqueue? && !op.Claim? && !op.Release?
    ensures Next(rules, q, op).nextId == q.nextId && Fades(q.items, Next(rules, q, op).items)
  {
    match op {
      case Block(k, status) =>
      case Complete(k) => FinishedFades(q, k, Completed);
      case Cancel(k) => FinishedFades(q, k, Cancelled);
      case Skip(k) => FinishedFades(q, k, Completed);
      case Resume(s) =>
    }
  }

  /** A released claim is again first in line. */
  lemma ReleasedIsFirst(rules: Rules, q: Queue, k: Key)
    requires Valid(rules, q) && Enabled(rules, q, Release(k))
    ensures Position(Next(rules, q, Release(k)).items, k) == 1
  {
    var after := Relabelled(q, k, Queued).items;
    var ahead := set j | j in after && after[j].session == k.session && after[j].status.Queued? && after[j].order < after[k].order;
    assert ahead == {};
  }

  /** A claim takes the item at position 1 of a session without a runner or blocker. */
  lemma ClaimTakesFirst(rules: Rules, q: Queue, s: Text, k: Key)
    requires Valid(rules, q) && Enabled(rules, q, Claim(s, k))
    ensures k.session == s && Position(q.items, k) == 1 && !HasBlocker(q.items, s)
    ensures Holds(Floor(s, q.items[k].order), Next(rules, q, Claim(s, k)))
    ensures Holds(Held(k, q.items[k].order), Next(rules, q, Claim(s, k)))
  {
    var ahead := set j | j in q.items && q.items[j].session == k.session && q.items[j].status.Queued? && q.items[j].order < q.items[k].order;
    assert ahead == {};
  }
}
