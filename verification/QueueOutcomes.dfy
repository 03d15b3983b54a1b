/** What each queue operation does to statuses, payloads and orders, seen from
    outside, and exactly when it can be done. */
module QueueOutcomes {
  import opened Durable
  import opened QueueModel
  import opened QueueSteps

  /** k has the new status and is otherwise as before. */
  ghost predicate Moves(before: Items, after: Items, k: Key, status: Status) {
    k in before && k in after && after[k] == before[k].(status := status)
  }

  /** k is a tombstone without payload in its old place, or is gone because its
      session had 255 tombstones already. */
  ghost predicate Retires(before: Items, after: Items, k: Key, status: Status) {
    && k in before
    && (k in after ==>
          after[k].status == status && after[k].Empty() && after[k].order == before[k].order && after[k].Name() == before[k].Name())
    && (k !in after ==> |Tombstones(before, k.session)| >= 255)
  }

  /** Everything but k is as before, except that tombstones may be gone. */
  ghost predicate Spares(before: Items, after: Items, k: Key) {
    && (forall j :: j in before && j != k && !before[j].status.Terminal() ==> j in after)
    && (forall j :: j in after && j != k ==> j in before && after[j] == before[j])
  }

  lemma RetiredOutcome(rules: Rules, q: Queue, k: Key, status: Status)
    requires Valid(rules, q) && k in q.items && !q.items[k].status.Terminal() && status.Terminal()
    ensures Finished(q, k, status).nextId == q.nextId
    ensures Retires(q.items, Finished(q, k, status).items, k, status) && Spares(q.items, Finished(q, k, status).items, k)
  {
    assert q.items[k].Name() == k;
    hide Valid;
    RetiredOne(q.items, k, status);
    SparedRest(q.items, k, status);
    hide Retires, Spares, Compact;
  }

  lemma RetiredOne(items: Items, k: Key, status: Status)
    requires k in items && items[k].Name() == k && !items[k].status.Terminal() && status.Terminal()
    ensures Retires(items, Compact(Buried(items, k, status), k.session), k, status)
  {
    var buried := Buried(items, k, status);
    assert Tombstones(buried, k.session) == Tombstones(items, k.session) + {k};
    CompactedOnly(buried, k.session);
    hide Compact, Tombstones;
  }

  lemma SparedRest(items: Items, k: Key, status: Status)
    requires k in items && status.Terminal()
    ensures Spares(items, Compact(Buried(items, k, status), k.session), k)
  {
    var buried := Buried(items, k, status);
    forall j | j in items && j != k && !items[j].status.Terminal() ensures j in Compact(buried, k.session) {
      CompactKeeps(buried, k.session, j);
    }
    CompactedOnly(buried, k.session);
    hide Compact;
  }

  /** Compaction adds and changes nothing, and drops only from 256 tombstones on. */
  lemma CompactedOnly(items: Items, s: Text)
    ensures forall j :: j in Compact(items, s) ==> j in items && Compact(items, s)[j] == items[j]
    ensures |Tombstones(items, s)| < 256 ==> Compact(items, s) == items
  {
  }

  /** The table of outcomes. */
  lemma OperationOutcome(rules: Rules, q: Queue, op: Op)
    requires Valid(rules, q) && Enabled(rules, q, op) && !op.Enqueue? && !op.Resume?
    ensures var after := Next(rules, q, op); after.nextId == q.nextId && Spares(q.items, after.items, op.key)
    ensures var after := Next(rules, q, op).items;
      match op
      case Claim(_, k) => q.items[k].status.Queued? && Moves(q.items, after, k, Running)
      case Release(k) => q.items[k].status.Running? && Moves(q.items, after, k, Queued)
      case Block(k, status) => q.items[k].status.Live() && Moves(q.items, after, k, status)
      case Complete(k) => q.items[k].status.Running? && Retires(q.items, after, k, Completed)
      case Cancel(k) => (q.items[k].status.Queued? || q.items[k].status.Blocked()) && Retires(q.items, after, k, Cancelled)
      case Skip(k) => q.items[k].status.BlockedIndeterminate? && Retires(q.items, after, k, Completed)
      case _ => true
  {
    match op
    case Complete(k) => RetiredOutcome(rules, q, k, Completed);
    case Cancel(k) => RetiredOutcome(rules, q, k, Cancelled);
    case Skip(k) => RetiredOutcome(rules, q, k, Completed);
    case _ =>
  }

  /** A new prompt waits last: its order is one more than any before. */
  lemma EnqueueOutcome(rules: Rules, q: Queue, item: Item, now: int)
    requires Valid(rules, q) && Enabled(rules, q, Enqueue(item, now))
    ensures var after := Next(rules, q, Enqueue(item, now));
      && item.Name() !in q.items && item.Name() in after.items && Spares(q.items, after.items, item.Name()) && after.nextId == q.nextId + 1
      && after.items[item.Name()] == item.(order := q.nextId + 1, createdAt := now, status := Queued)
  {
    AdmittedOrder(rules, q, item, now);
    forall j | j in q.items && !q.items[j].status.Terminal() ensures j in Compact(q.items, item.session) {
      CompactKeeps(q.items, item.session, j);
    }
  }

  /** Resuming retires failed and interrupted blockers of the session and nothing else. */
  lemma ResumeOutcome(rules: Rules, q: Queue, s: Text)
    requires Enabled(rules, q, Resume(s))
    ensures var after := Next(rules, q, Resume(s));
      && after.nextId == q.nextId && after.items.Keys == q.items.Keys
      && forall k :: k in q.items ==>
           if q.items[k].session == s && (q.items[k].status == BlockedFailed || q.items[k].status == BlockedInterrupted)
           then after.items[k].status == Completed && after.items[k].Empty() && after.items[k].order == q.items[k].order
           else after.items[k] == q.items[k]
  {
  }

  /** A restart blocks what was running, payload and place kept, and changes nothing else. */
  lemma RestartOutcome(q: Queue)
    ensures var after := Restarted(q);
      && after.nextId == q.nextId && after.items.Keys == q.items.Keys
      && forall k :: k in q.items ==>
           if q.items[k].status == Running then Moves(q.items, after.items, k, BlockedIndeterminate) else after.items[k] == q.items[k]
  {
  }

  // -------------------------------------------------------- when it can be done

  /** The items of a session that still count against its limit. */
  ghost function Unfinished(items: Items, s: Text): set<Key> {
    set k | k in items && items[k].session == s && items[k].status != Completed && items[k].status != Cancelled
  }

  /** A prompt is admitted exactly when it is well formed, new, the session has
      fewer than 20 unfinished items, and the order does not wrap. */
  lemma EnqueueExact(rules: Rules, q: Queue, item: Item, now: int)
    requires Valid(rules, q)
    ensures Enabled(rules, q, Enqueue(item, now)) <==>
      && ValidNames(rules, item) && ValidPayload(rules, item) && (item.mode == [] || item.mode == PLAN) && now > 0
      && item.Name() !in q.items && |Unfinished(q.items, item.session)| < 20 && q.nextId + 1 < ORDER_LIMIT
  {
    assert Active(q.items, item.session) == Unfinished(q.items, item.session);
    var order := (q.nextId + 1) % ORDER_LIMIT;
    assert q.nextId + 1 < ORDER_LIMIT ==> order == q.nextId + 1;
    assert q.nextId + 1 == ORDER_LIMIT ==> order == 0;
  }

  /** When the other operations can be done, status by status. */
  lemma OperationExact(rules: Rules, q: Queue, k: Key, status: Status)
    ensures Enabled(rules, q, Release(k)) <==> k in q.items && q.items[k].status == Running
    ensures Enabled(rules, q, Complete(k)) <==> k in q.items && q.items[k].status == Running
    ensures Enabled(rules, q, Block(k, status)) <==>
      k in q.items && q.items[k].status in {Queued, Running} && status in {BlockedFailed, BlockedInterrupted, BlockedIndeterminate}
    ensures Enabled(rules, q, Cancel(k)) <==>
      k in q.items && q.items[k].status in {Queued, BlockedFailed, BlockedInterrupted, BlockedIndeterminate}
    ensures Enabled(rules, q, Skip(k)) <==> k in q.items && q.items[k].status == BlockedIndeterminate
  {
  }

  /** Resuming is for a session that a failed or interrupted item blocks. */
  lemma ResumeExact(rules: Rules, q: Queue, s: Text)
    ensures Enabled(rules, q, Resume(s)) <==>
      exists j :: j in q.items && q.items[j].session == s && q.items[j].status in {BlockedFailed, BlockedInterrupted}
  {
    if j :| j in q.items && q.items[j].session == s && q.items[j].status in {BlockedFailed, BlockedInterrupted} {
      assert ResumedAll(q.items, s)[j].status == Completed;
    } else {
      assert ResumedAll(q.items, s) == q.items;
    }
  }

  predicate Stops(i: Item, s: Text) {
    i.session == s && i.status in {Running, BlockedFailed, BlockedInterrupted, BlockedIndeterminate}
  }

  /** A prompt waits and nothing of its session runs or blocks. */
  ghost predicate Claimable(items: Items, s: Text) {
    && (exists k :: k in items && items[k].session == s && items[k].status == Queued)
    && (forall k :: k in items ==> !Stops(items[k], s))
  }

  /** Some prompt can be claimed exactly when one waits and nothing runs or blocks. */
  lemma ClaimExact(rules: Rules, q: Queue, s: Text)
    ensures (exists k :: Enabled(rules, q, Claim(s, k))) <==> Claimable(q.items, s)
  {
    if Claimable(q.items, s) {
      var k := FirstClaim(rules, q, s);
      assert Enabled(rules, q, Claim(s, k));
    }
    forall k | Enabled(rules, q, Claim(s, k)) ensures Claimable(q.items, s) { ClaimNeeds(rules, q, s, k); }
    hide Enabled, Claimable;
  }

  lemma FirstClaim(rules: Rules, q: Queue, s: Text) returns (k: Key)
    requires Claimable(q.items, s)
    ensures Enabled(rules, q, Claim(s, k))
  {
    var waiting := set k | k in q.items && q.items[k].session == s && q.items[k].status == Queued;
    var w :| w in q.items && q.items[w].session == s && q.items[w].status == Queued;
    assert w in waiting;
    forall j | j in q.items ensures !Blocks(q.items[j], s) { assert !Stops(q.items[j], s); }
    k := MinOrder(q.items, waiting);
  }

  lemma ClaimNeeds(rules: Rules, q: Queue, s: Text, k: Key)
    requires Enabled(rules, q, Claim(s, k))
    ensures Claimable(q.items, s)
  {
    forall j | j in q.items ensures !Stops(q.items[j], s) { assert !Blocks(q.items[j], s); }
    assert k in q.items && q.items[k].session == s && q.items[k].status == Queued;
  }

  lemma MinOrder(items: Items, ks: set<Key>) returns (x: Key)
    requires ks <= items.Keys && ks != {}
    ensures x in ks && forall k :: k in ks ==> items[x].order <= items[k].order
  {
    x :| x in ks;
    if ks != {x} {
      var y := MinOrder(items, ks - {x});
      if items[y].order < items[x].order { x := y; }
    }
  }

  /** Positions follow the orders of the queued items of a session. */
  lemma PositionOrder(items: Items, j: Key, k: Key)
    requires j in items && k in items && items[j].status.Queued? && items[k].status.Queued?
    requires items[j].Name() == j && items[k].Name() == k && j.session == k.session
    ensures Position(items, j) < Position(items, k) <==> items[j].order < items[k].order
  {
    var a := set i | i in items && items[i].session == j.session && items[i].status.Queued? && items[i].order < items[j].order;
    var b := set i | i in items && items[i].session == k.session && items[i].status.Queued? && items[i].order < items[k].order;
    if items[j].order < items[k].order {
      SubsetSize(a + {j}, b);
    } else {
      SubsetSize(b, a);
    }
  }

  /** Compaction keeps the newest tombstones: a dropped one is older than every kept one. */
  lemma CompactDropsOldest(items: Items, s: Text, j: Key, k: Key)
    requires DistinctOrders(items) && j in items && j !in Compact(items, s)
    requires k in Compact(items, s) && items[k].session == s && items[k].status.Terminal()
    ensures items[j].session == s && items[j].status.Terminal() && items[j].order < items[k].order
  {
    var dead := Tombstones(items, s);
    if items[k].order < items[j].order { SubsetSize(Newer(items, dead, j), Newer(items, dead, k)); }
  }
}
