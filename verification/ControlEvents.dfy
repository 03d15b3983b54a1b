/** handleControlEvent of daemon/cmd/daemon/main.go for terminal events: the
    registry decides, then the running queue item of the same prompt is settled. */
module ControlEvents {
  import opened Durable
  import opened QueueModel
  import opened PromptQueueClass
  import opened QueueOutcomes
  import opened ActiveTurns

  function TerminalOp(k: Key, l: Lifecycle): Op {
    match l
    case Success => Complete(k)
    case Failure => Block(k, BlockedFailed)
    case Interrupted => Block(k, BlockedInterrupted)
    case Indeterminate => Block(k, BlockedIndeterminate)
  }

  ghost predicate RunningIn(items: Items, s: Text, k: Key) {
    k in items && items[k].session == s && items[k].status.Running?
  }

  /** A success is for a running item only; the other outcomes also block one
      that was given back to the queue. */
  ghost predicate Endable(items: Items, k: Key, l: Lifecycle) {
    k in items && (items[k].status == Running || (items[k].status == Queued && l != Success))
  }

  /** What a terminal of the given lifecycle leaves of an item: success retires
      it as completed, anything else blocks it with order and payload kept; and
      no other item is touched. */
  ghost predicate Ends(before: Items, after: Items, k: Key, l: Lifecycle) {
    && Spares(before, after, k)
    && match l
       case Success => Retires(before, after, k, Status.Completed)
       case Failure => Moves(before, after, k, BlockedFailed)
       case Interrupted => Moves(before, after, k, BlockedInterrupted)
       case Indeterminate => Moves(before, after, k, BlockedIndeterminate)
  }

  lemma TerminalEnds(rules: Rules, q: Queue, k: Key, l: Lifecycle)
    requires Valid(rules, q)
    ensures Enabled(rules, q, TerminalOp(k, l)) <==> Endable(q.items, k, l)
    ensures Endable(q.items, k, l) ==> Ends(q.items, Next(rules, q, TerminalOp(k, l)).items, k, l)
  {
    if Endable(q.items, k, l) { OperationOutcome(rules, q, TerminalOp(k, l)); }
    hide Valid, Retires, Spares, Next;
  }

  method FindRunning(items: Items, s: Text) returns (r: Option<Key>)
    ensures r.Some? ==> RunningIn(items, s, r.value)
    ensures r.None? ==> forall k :: !RunningIn(items, s, k)
  {
    r := None;
    var rest := items.Keys;
    while rest != {}
      invariant rest <= items.Keys
      invariant forall k :: k in items && k !in rest ==> !RunningIn(items, s, k)
      decreases |rest|
    {
      var k :| k in rest;
      if items[k].session == s && items[k].status.Running? { return Some(k); }
      rest := rest - {k};
    }
  }

  /** The queue operation that a released event stands for, if any. */
  ghost predicate Settles(q: Queue, s: Text, client: Text, l: Lifecycle, op: Op) {
    exists k :: RunningIn(q.items, s, k) && k.client == client && op == TerminalOp(k, l)
  }

  method HandleTerminal(r: ActiveTurnRegistry, q: PromptQueue, e: ControlEvent, p: Persist) returns (cleared: bool)
    requires q.Ok()
    modifies r, q
    ensures q.Ok() && cleared == Ready(old(r.bindings), e)
    ensures !cleared ==> q.Value() == old(q.Value()) && q.file == old(q.file) && r.bindings == AfterTerminal(old(r.bindings), e)
    ensures cleared ==> r.bindings == old(r.bindings) - {e.session}
    ensures cleared && (q.Value() != old(q.Value()) || q.file != old(q.file)) ==>
              exists op :: Settles(old(q.Value()), e.session, old(r.bindings)[e.session].binding.client, e.lifecycle, op)
                           && Effect(q.rules, old(q.Value()), old(q.file), op, p, q.Value(), q.file)
    ensures cleared && (forall k :: RunningIn(old(q.items), e.session, k) ==> k.client != old(r.bindings)[e.session].binding.client) ==>
              q.Value() == old(q.Value()) && q.file == old(q.file)
    ensures cleared ==>
              var own := Key(e.session, old(r.bindings)[e.session].binding.client);
              RunningIn(old(q.items), e.session, own) ==>
                if p.Saved? then Ends(old(q.items), q.items, own, e.lifecycle) else q.items == old(q.items)
  {
    ghost var before := q.Value();
    var binding, ready, matched := r.TerminalForEvent(e);
    if !ready { return false; }
    var b := binding.value;
    cleared := r.ClearMatching(e.session, b.generation, b.client, b.native);
    var k := FindRunning(q.items, e.session);
    if k.Some? && k.value.client == b.client {
      assert Settles(before, e.session, b.client, e.lifecycle, TerminalOp(k.value, e.lifecycle));
      OnlyOwnItem(q.rules, before, e.session, b.client, e.lifecycle, TerminalOp(k.value, e.lifecycle));
      TerminalEnds(q.rules, before, k.value, e.lifecycle);
      var ok;
      match e.lifecycle {
        case Success => ok := q.Complete(k.value, p);
        case Failure => ok := q.Block(k.value, BlockedFailed, p);
        case Interrupted => ok := q.Block(k.value, BlockedInterrupted, p);
        case Indeterminate => ok := q.Block(k.value, BlockedIndeterminate, p);
      }
    }
  }

  /** The settled item is the one of the bound prompt: same session, same
      client id, running, and no other item of the session is running. */
  lemma OnlyOwnItem(rules: Rules, q: Queue, s: Text, client: Text, l: Lifecycle, op: Op)
    requires Valid(rules, q) && Settles(q, s, client, l, op)
    ensures Enabled(rules, q, op) && op == TerminalOp(Key(s, client), l)
    ensures forall k :: RunningIn(q.items, s, k) ==> k == Key(s, client)
  {
    var k :| RunningIn(q.items, s, k) && k.client == client && op == TerminalOp(k, l);
    assert q.items[k].Name() == k;
    forall j | RunningIn(q.items, s, j) ensures j == k {
      assert q.items[j].Name() == j;
    }
  }
}
