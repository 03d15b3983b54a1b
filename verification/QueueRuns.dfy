/** Whole runs of the queue: operations, failed writes and restarts in any order. */
module QueueRuns {
  import opened Durable
  import opened QueueModel
  import opened QueueSteps

  datatype Claimed = Claimed(session: Text, key: Key, order: nat)

  /** memory is None while the queue is disabled because its file did not load;
      claims records, oldest first, every item that claimNext handed out. */
  datatype State = State(memory: Option<Queue>, disk: Queue, claims: seq<Claimed>)

  datatype Event =
    | Do(op: Op, p: Persist)
    | Restart(p: Persist)   // the process dies and the file loads; p is the normalizing write
    | Unreadable            // the process dies and the file does not load

  const EMPTY := Queue(map[], 0)

  function Initial(): State { State(Some(EMPTY), EMPTY, []) }

  ghost function Step(rules: Rules, r: State, e: Event): State {
    match e
    case Do(op, p) =>
      if r.memory.None? || !Enabled(rules, r.memory.value, op) then r
      else
        var q := r.memory.value;
        var next := Next(rules, q, op);
        State(Some(Exposed(q, next, p)), OnDisk(r.disk, next, p),
              if op.Claim? && p.Saved? then r.claims + [Claimed(op.session, op.key, q.items[op.key].order)] else r.claims)
    case Restart(p) =>
      var loaded := Restarted(r.disk);
      if loaded == r.disk then r.(memory := Some(loaded))
      else r.(memory := if p.Saved? then Some(loaded) else None, disk := OnDisk(r.disk, loaded, p))
    case Unreadable => r.(memory := None)
  }

  ghost function Run(rules: Rules, r: State, es: seq<Event>): State
    decreases |es|
  {
    if es == [] then r else Run(rules, Step(rules, r, es[0]), es[1..])
  }

  /** The file holds what memory exposes, or the one write that failed after the rename. */
  ghost predicate Follows(rules: Rules, q: Queue, disk: Queue) {
    disk == q || exists op :: Enabled(rules, q, op) && disk == Next(rules, q, op)
  }

  ghost predicate InOrder(r: State) {
    && (forall i, j :: 0 <= i < j < |r.claims| && r.claims[i].session == r.claims[j].session ==>
          r.claims[i].order <= r.claims[j].order)
    && (forall i :: 0 <= i < |r.claims| ==> Floored(r, r.claims[i].session, r.claims[i].order))
  }

  ghost predicate Floored(r: State, s: Text, o: nat) {
    Holds(Floor(s, o), r.disk) && (r.memory.Some? ==> Holds(Floor(s, o), r.memory.value))
  }

  ghost predicate Inv(rules: Rules, r: State) {
    && Valid(rules, r.disk) && WithinCapacity(r.disk.items)
    && (r.memory.Some? ==>
          && Valid(rules, r.memory.value) && WithinCapacity(r.memory.value.items)
          && Follows(rules, r.memory.value, r.disk))
  }

  lemma InitialInv(rules: Rules)
    ensures Inv(rules, Initial()) && InOrder(Initial())
  {
    forall s ensures Active(EMPTY.items, s) == {} && InSession(EMPTY.items, s) == {} {}
  }

  lemma StepInv(rules: Rules, r: State, e: Event)
    requires Inv(rules, r)
    ensures Inv(rules, Step(rules, r, e))
  {
    hide Valid, WithinCapacity, Enabled, Next;
    match e {
      case Do(op, p) =>
        if r.memory.Some? && Enabled(rules, r.memory.value, op) {
          NextValid(rules, r.memory.value, op);
          NextCapacity(rules, r.memory.value, op);
        }
      case Restart(p) =>
        RestartedValid(rules, r.disk);
        RestartedCapacity(rules, r.disk);
      case Unreadable =>
    }
  }

  /** A fact known to memory and file survives any step, except a release of the item it holds. */
  ghost predicate Known(f: Fact, r: State) {
    Holds(f, r.disk) && (r.memory.Some? ==> Holds(f, r.memory.value))
  }

  lemma StepKeepsFact(rules: Rules, r: State, e: Event, f: Fact)
    requires Inv(rules, r) && Known(f, r)
    requires f.Held? && e.Do? ==> e.op != Release(f.key)
    ensures Known(f, Step(rules, r, e))
  {
    hide Valid, WithinCapacity, Enabled, Next;
    match e {
      case Do(op, p) =>
        if r.memory.Some? && Enabled(rules, r.memory.value, op) {
          NextKeepsFact(rules, r.memory.value, op, f);
        }
      case Restart(p) => FadingKeepsFact(r.disk, Restarted(r.disk).items, f);
      case Unreadable =>
    }
  }

  lemma StepClaims(rules: Rules, r: State, e: Event, f: Fact)
    requires Inv(rules, r) && Known(f, r) && (f.Retired? || f.Held?)
    ensures Step(rules, r, e).claims != r.claims ==>
      |Step(rules, r, e).claims| == |r.claims| + 1 && r.claims < Step(rules, r, e).claims
      && Step(rules, r, e).claims[|r.claims|].order != f.order
  {
    hide Valid, WithinCapacity, Next;
  }

  lemma FactReachesDisk(rules: Rules, r: State, f: Fact)
    requires Inv(rules, r) && r.memory.Some? && Holds(f, r.memory.value)
    requires !f.Held?
    ensures Known(f, r)
  {
    var q := r.memory.value;
    if r.disk != q {
      var op :| Enabled(rules, q, op) && r.disk == Next(rules, q, op);
      NextKeepsFact(rules, q, op, f);
    }
  }

  lemma StepInOrder(rules: Rules, r: State, e: Event)
    requires Inv(rules, r) && InOrder(r)
    ensures InOrder(Step(rules, r, e))
  {
    hide Valid, WithinCapacity, Enabled, Next;
    var r' := Step(rules, r, e);
    forall i | 0 <= i < |r.claims| ensures Floored(r', r.claims[i].session, r.claims[i].order) {
      StepKeepsFact(rules, r, e, Floor(r.claims[i].session, r.claims[i].order));
    }
    if r'.claims != r.claims {
      var q, k := r.memory.value, e.op.key;
      ClaimTakesFirst(rules, q, e.op.session, k);
      forall i | 0 <= i < |r.claims| && r.claims[i].session == k.session ensures r.claims[i].order <= q.items[k].order {
        assert Floored(r, r.claims[i].session, r.claims[i].order);
      }
    }
  }

  lemma {:induction false} RunInv(rules: Rules, r: State, es: seq<Event>)
    requires Inv(rules, r) && InOrder(r)
    ensures Inv(rules, Run(rules, r, es)) && InOrder(Run(rules, r, es))
    decreases |es|
  {
    if es != [] {
      StepInv(rules, r, es[0]);
      StepInOrder(rules, r, es[0]);
      RunInv(rules, Step(rules, r, es[0]), es[1..]);
    }
  }

  // ------------------------------------------------------------ main results

  /** In every run each session hands out its prompts in order of arrival; an
      earlier order reappears only as a repetition of the same order. */
  lemma ClaimsNeverGoBack(rules: Rules, es: seq<Event>, i: nat, j: nat)
    requires i < j < |Run(rules, Initial(), es).claims|
    ensures var claims := Run(rules, Initial(), es).claims;
      claims[i].session == claims[j].session ==> claims[i].order <= claims[j].order
  {
    InitialInv(rules);
    RunInv(rules, Initial(), es);
  }

  /** In every reachable state a session has one runner at most, 20 active items
      and 275 items at most, unique orders, and nextId equal to the largest order. */
  lemma ReachableQueue(rules: Rules, es: seq<Event>)
    ensures var r := Run(rules, Initial(), es);
      && Valid(rules, r.disk) && WithinCapacity(r.disk.items)
      && (r.memory.Some? ==> Valid(rules, r.memory.value) && WithinCapacity(r.memory.value.items))
  {
    InitialInv(rules);
    RunInv(rules, Initial(), es);
  }

  /** What is known of an order stays known along every run that does not
      release its item, and then no later claim hands the order out. */
  lemma {:induction false} KnownForever(rules: Rules, r: State, es: seq<Event>, f: Fact)
    requires Inv(rules, r) && Known(f, r) && (f.Retired? || f.Held?)
    requires f.Held? ==> forall e :: e in es && e.Do? ==> e.op != Release(f.key)
    ensures |r.claims| <= |Run(rules, r, es).claims| && Run(rules, r, es).claims[..|r.claims|] == r.claims
    ensures forall i :: |r.claims| <= i < |Run(rules, r, es).claims| ==> Run(rules, r, es).claims[i].order != f.order
    decreases |es|
  {
    hide Valid, WithinCapacity, Enabled, Next;
    if es != [] {
      var r' := Step(rules, r, es[0]);
      StepInv(rules, r, es[0]);
      StepKeepsFact(rules, r, es[0], f);
      StepClaims(rules, r, es[0], f);
      KnownForever(rules, r', es[1..], f);
      assert Run(rules, r, es) == Run(rules, r', es[1..]);
      assert r.claims == r'.claims[..|r.claims|];
    }
  }

  lemma {:induction false} OwnedForever(rules: Rules, r: State, es: seq<Event>, f: Fact)
    requires Inv(rules, r) && Known(f, r) && f.Owned?
    ensures Known(f, Run(rules, r, es))
    decreases |es|
  {
    hide Inv, Known, Step;
    if es != [] {
      StepInv(rules, r, es[0]);
      StepKeepsFact(rules, r, es[0], f);
      OwnedForever(rules, Step(rules, r, es[0]), es[1..], f);
    }
  }

  /** An order that was ever exposed is never given to another prompt: after any
      continuation with failed writes and restarts, neither memory nor file has
      it on an item of another key. */
  lemma OrderNeverReused(rules: Rules, before: seq<Event>, after: seq<Event>, k: Key)
    requires var r := Run(rules, Initial(), before); r.memory.Some? && k in r.memory.value.items
    ensures var r := Run(rules, Initial(), before);
      var o, s := r.memory.value.items[k].order, Run(rules, r, after);
      && (forall j :: j in s.disk.items && s.disk.items[j].order == o ==> j == k)
      && (s.memory.Some? ==> forall j :: j in s.memory.value.items && s.memory.value.items[j].order == o ==> j == k)
  {
    var r := Run(rules, Initial(), before);
    InitialInv(rules);
    RunInv(rules, Initial(), before);
    var f := Owned(k, r.memory.value.items[k].order);
    FactReachesDisk(rules, r, f);
    OwnedForever(rules, r, after, f);
  }

  /** Once an exposed item is completed, blocked or cancelled, no continuation
      of the run, with any restarts and lost writes, ever claims it again. */
  lemma RetiredNeverClaimed(rules: Rules, before: seq<Event>, after: seq<Event>, k: Key)
    requires var r := Run(rules, Initial(), before);
      r.memory.Some? && k in r.memory.value.items && !r.memory.value.items[k].status.Live()
    ensures var r := Run(rules, Initial(), before);
      var claims := Run(rules, r, after).claims;
      |r.claims| <= |claims| && forall i :: |r.claims| <= i < |claims| ==> claims[i].order != r.memory.value.items[k].order
  {
    var r := Run(rules, Initial(), before);
    InitialInv(rules);
    RunInv(rules, Initial(), before);
    var f := Retired(r.memory.value.items[k].order);
    FactReachesDisk(rules, r, f);
    KnownForever(rules, r, after, f);
  }

  /** A claimed item is handed out a second time only after a release of that item. */
  lemma ReclaimNeedsRelease(rules: Rules, before: seq<Event>, s: Text, k: Key, after: seq<Event>)
    requires var r := Run(rules, Initial(), before);
      r.memory.Some? && Enabled(rules, r.memory.value, Claim(s, k))
    requires forall e :: e in after && e.Do? ==> e.op != Release(k)
    ensures var r := Run(rules, Initial(), before);
      var claimed := Step(rules, r, Do(Claim(s, k), Saved));
      var claims := Run(rules, claimed, after).claims;
      && claimed.claims == r.claims + [Claimed(s, k, r.memory.value.items[k].order)]
      && |claimed.claims| <= |claims|
      && forall i :: |claimed.claims| <= i < |claims| ==> claims[i].order != r.memory.value.items[k].order
  {
    hide Valid, WithinCapacity, Next;
    var r := Run(rules, Initial(), before);
    InitialInv(rules);
    RunInv(rules, Initial(), before);
    ClaimTakesFirst(rules, r.memory.value, s, k);
    var claimed := Step(rules, r, Do(Claim(s, k), Saved));
    StepInv(rules, r, Do(Claim(s, k), Saved));
    KnownForever(rules, claimed, after, Held(k, r.memory.value.items[k].order));
  }
}
