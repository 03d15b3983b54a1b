/** Turn registry and prompt queue together: handleControlEvent of
    daemon/cmd/daemon/main.go with its steps interleaved, during the life of one
    daemon process. A released thread clears its turn, then looks up the running
    item of the session, then settles that item. */
module TurnQueue {
  import opened Durable
  import opened QueueModel
  import opened ActiveTurns
  import opened ControlEvents
  import Q = QueueRuns
  import R = TurnRuns
  import S = QueueSteps

  /** A thread past clearMatching; key is the item it found, once it looked. */
  datatype Settler = Settler(release: R.Release, key: Option<Key>)

  /** admitted counts the successful enqueues of a key, settled its items that
      a terminal event completed or blocked, and log, oldest first, by which threads. */
  datatype State = State(turns: R.World, queue: Q.State, settlers: multiset<Settler>,
                         admitted: multiset<Key>, settled: multiset<Key>, log: seq<Settler>)

  datatype Event =
    | Registry(e: R.Event)
    | Queue(op: Op, p: Persist)
    | Find(release: R.Release)
    | Settle(settler: Settler, p: Persist)

  function Initial(): State { State(R.Initial(), Q.Initial(), multiset{}, multiset{}, multiset{}, []) }

  /** The key under which a released thread may settle: its turn's own prompt. */
  function OwnKey(r: R.Release): Key { Key(r.event.session, r.binding.client) }

  function TurnStep(s: State, e: R.Event): State {
    var t := s.(turns := R.Step(s.turns, e));
    if e.Clear? && e.generation in s.turns.turns && e.release in s.turns.turns[e.generation].handlers
    then t.(settlers := s.settlers + multiset{Settler(e.release, None)}) else t
  }

  ghost predicate Takes(rules: Rules, s: State, op: Op, p: Persist) {
    s.queue.memory.Some? && Enabled(rules, s.queue.memory.value, op) && p.Saved?
  }

  ghost function QueueStep(rules: Rules, s: State, op: Op, p: Persist): State {
    s.(queue := Q.Step(rules, s.queue, Q.Do(op, p)),
       admitted := if op.Enqueue? && Takes(rules, s, op, p) then s.admitted + multiset{op.item.Name()} else s.admitted)
  }

  /** The running item counts only if it has the client id of the binding. */
  ghost function FindStep(s: State, r: R.Release): State {
    if Settler(r, None) !in s.settlers then s
    else
      var rest := s.settlers - multiset{Settler(r, None)};
      if s.queue.memory.Some? && RunningIn(s.queue.memory.value.items, r.event.session, OwnKey(r))
      then s.(settlers := rest + multiset{Settler(r, Some(OwnKey(r)))})
      else s.(settlers := rest)
  }

  ghost function SettleStep(rules: Rules, s: State, x: Settler, p: Persist): State {
    if x !in s.settlers || x.key.None? then s
    else
      var op := TerminalOp(x.key.value, x.release.event.lifecycle);
      var t := QueueStep(rules, s.(settlers := s.settlers - multiset{x}), op, p);
      if Takes(rules, s, op, p) then t.(settled := s.settled + multiset{x.key.value}, log := s.log + [x]) else t
  }

  ghost function Step(rules: Rules, s: State, e: Event): State {
    match e
    case Registry(t) => TurnStep(s, t)
    case Queue(op, p) => QueueStep(rules, s, op, p)
    case Find(r) => FindStep(s, r)
    case Settle(x, p) => SettleStep(rules, s, x, p)
  }

  ghost function Run(rules: Rules, s: State, es: seq<Event>): State
    decreases |es|
  {
    if es == [] then s else Run(rules, Step(rules, s, es[0]), es[1..])
  }

  // -------------------------------------------------------------- invariant

  /** The thread acts for an accepted turn, and only on that turn's prompt. */
  predicate Owned(w: R.World, x: Settler) {
    var g := x.release.binding.generation;
    && g in w.turns && w.turns[g].decision == R.TurnAccepted && R.Genuine(x.release, g, w.turns[g])
    && (x.key.Some? ==> x.key.value == Key(w.turns[g].session, w.turns[g].client))
  }

  ghost predicate Ownership(s: State) {
    && R.Inv(s.turns)
    && (forall x :: x in s.settlers ==> Owned(s.turns, x))
    && (forall i :: 0 <= i < |s.log| ==> Owned(s.turns, s.log[i]) && s.log[i].key.Some?)
  }

  predicate LiveIn(items: Items, k: Key) { k in items && items[k].status.Live() }

  /** Every settled item was admitted for it, and a live one is still to be settled. */
  ghost predicate Accounted(s: State) {
    forall k :: s.settled[k] + (if s.queue.memory.Some? && LiveIn(s.queue.memory.value.items, k) then 1 else 0) <= s.admitted[k]
  }

  lemma StaysOwned(w: R.World, e: R.Event, x: Settler)
    requires R.Inv(w) && Owned(w, x)
    ensures Owned(R.Step(w, e), x)
  {
    R.StepGrows(w, e, x.release.binding.generation);
    hide R.Inv, R.Step;
  }

  lemma HandlerOwned(w: R.World, g: nat, r: R.Release)
    requires R.Inv(w) && g in w.turns && r in w.turns[g].handlers
    ensures Owned(w, Settler(r, None))
  {
    assert R.TurnOk(w.bindings, g, w.turns[g]);
  }

  lemma TurnOwnership(s: State, e: R.Event)
    requires Ownership(s)
    ensures Ownership(TurnStep(s, e))
  {
    hide R.Inv, R.Step, Owned;
    R.StepInv(s.turns, e);
    var t := TurnStep(s, e);
    if t.settlers != s.settlers {
      HandlerOwned(s.turns, e.generation, e.release);
      StaysOwned(s.turns, e, Settler(e.release, None));
    }
    forall x | x in s.settlers || x in s.log ensures Owned(t.turns, x) { StaysOwned(s.turns, e, x); }
    assert forall i :: 0 <= i < |s.log| ==> s.log[i] in s.log;
  }

  lemma FindOwnership(s: State, r: R.Release)
    requires Ownership(s)
    ensures Ownership(FindStep(s, r))
  {
    if Settler(r, None) in s.settlers {
      assert Owned(s.turns, Settler(r, None));
      assert Owned(s.turns, Settler(r, Some(OwnKey(r))));
    }
    hide R.Inv, Owned;
  }

  lemma SettleOwnership(rules: Rules, s: State, x: Settler, p: Persist)
    requires Ownership(s)
    ensures Ownership(SettleStep(rules, s, x, p))
  {
    hide R.Inv, Owned, Q.Step, Takes;
  }

  lemma StepOwnership(rules: Rules, s: State, e: Event)
    requires Ownership(s)
    ensures Ownership(Step(rules, s, e))
  {
    match e
    case Registry(t) => TurnOwnership(s, t);
    case Queue(op, p) =>
    case Find(r) => FindOwnership(s, r);
    case Settle(x, p) => SettleOwnership(rules, s, x, p);
  }

  // ------------------------------------------------------------- accounting

  /** Only an enqueue makes an item live that was not. */
  lemma OnlyEnqueueEnlivens(rules: Rules, q: Queue, op: Op, k: Key)
    requires Enabled(rules, q, op) && LiveIn(Next(rules, q, op).items, k) && !LiveIn(q.items, k)
    ensures op.Enqueue? && op.item.Name() == k
  {
    hide Admissible, Admitted;
    if !op.Enqueue? && !op.Claim? && !op.Release? { S.NextFades(rules, q, op); }
  }

  /** What settling does to the item's own key: live before, not after. */
  lemma SettlingEnds(rules: Rules, q: Queue, k: Key, l: Lifecycle)
    requires Enabled(rules, q, TerminalOp(k, l))
    ensures LiveIn(q.items, k) && !LiveIn(Next(rules, q, TerminalOp(k, l)).items, k)
  {
  }

  lemma TakenQueue(rules: Rules, s: State, op: Op, p: Persist)
    ensures var t := Q.Step(rules, s.queue, Q.Do(op, p));
      && (t.memory.Some? <==> s.queue.memory.Some?)
      && (Takes(rules, s, op, p) ==> t.memory == Some(Next(rules, s.queue.memory.value, op)))
      && (!Takes(rules, s, op, p) ==> t.memory == s.queue.memory)
  {
    hide Enabled, Next;
  }

  lemma QueueAccounted(rules: Rules, s: State, op: Op, p: Persist)
    requires Accounted(s)
    ensures Accounted(QueueStep(rules, s, op, p))
  {
    TakenQueue(rules, s, op, p);
    if Takes(rules, s, op, p) {
      forall k | LiveIn(Next(rules, s.queue.memory.value, op).items, k) && !LiveIn(s.queue.memory.value.items, k)
        ensures op.Enqueue? && op.item.Name() == k
      {
        OnlyEnqueueEnlivens(rules, s.queue.memory.value, op, k);
      }
    }
    hide Enabled, Next, Q.Step, LiveIn;
  }

  lemma SettleAccounted(rules: Rules, s: State, x: Settler, p: Persist)
    requires Accounted(s)
    ensures Accounted(SettleStep(rules, s, x, p))
  {
    if x !in s.settlers || x.key.None? { return; }
    var op := TerminalOp(x.key.value, x.release.event.lifecycle);
    TakenQueue(rules, s, op, p);
    if Takes(rules, s, op, p) {
      var q := s.queue.memory.value;
      SettlingEnds(rules, q, x.key.value, x.release.event.lifecycle);
      forall k | LiveIn(Next(rules, q, op).items, k) ensures LiveIn(q.items, k) {
        if !LiveIn(q.items, k) { OnlyEnqueueEnlivens(rules, q, op, k); }
      }
    }
    hide Enabled, Next, Q.Step, LiveIn;
  }

  lemma StepAccounted(rules: Rules, s: State, e: Event)
    requires Accounted(s)
    ensures Accounted(Step(rules, s, e))
  {
    hide QueueStep, SettleStep, LiveIn, R.Step, RunningIn;
    match e
    case Registry(t) => SameAccounts(s, TurnStep(s, t));
    case Queue(op, p) => QueueAccounted(rules, s, op, p);
    case Find(r) => SameAccounts(s, FindStep(s, r));
    case Settle(x, p) => SettleAccounted(rules, s, x, p);
  }

  lemma SameAccounts(s: State, t: State)
    requires Accounted(s) && t.queue == s.queue && t.settled == s.settled && t.admitted == s.admitted
    ensures Accounted(t)
  {
  }

  lemma {:induction false} RunInv(rules: Rules, s: State, es: seq<Event>)
    requires Ownership(s) && Accounted(s)
    ensures Ownership(Run(rules, s, es)) && Accounted(Run(rules, s, es))
    decreases |es|
  {
    hide Ownership, Accounted, Step;
    if es != [] {
      StepOwnership(rules, s, es[0]);
      StepAccounted(rules, s, es[0]);
      RunInv(rules, Step(rules, s, es[0]), es[1..]);
    }
  }

  // ----------------------------------------------------------- main results

  /** In every interleaving of racing terminals, completions, acceptances and
      queue commands: whatever a terminal event settles is the prompt of the
      very turn that it was released against, and that turn was accepted. */
  lemma SettlesOwnItem(rules: Rules, es: seq<Event>, i: nat)
    requires i < |Run(rules, Initial(), es).log|
    ensures var s := Run(rules, Initial(), es);
      var x := s.log[i];
      var g := x.release.binding.generation;
      && g in s.turns.turns && s.turns.turns[g].decision == R.TurnAccepted && R.Belongs(x.release.event, g, s.turns.turns[g])
      && x.key == Some(Key(s.turns.turns[g].session, s.turns.turns[g].client))
  {
    assert Ownership(Initial()) && Accounted(Initial());
    RunInv(rules, Initial(), es);
    assert Owned(Run(rules, Initial(), es).turns, Run(rules, Initial(), es).log[i]);
  }

  /** However many copies of a terminal race, an item is settled at most once
      for each time that its prompt was admitted to the queue. */
  lemma SettledOncePerAdmission(rules: Rules, es: seq<Event>, k: Key)
    ensures var s := Run(rules, Initial(), es); s.settled[k] <= s.admitted[k]
  {
    assert Ownership(Initial()) && Accounted(Initial());
    RunInv(rules, Initial(), es);
  }

  /** In every reachable state, the step that settles an item gives it exactly
      the outcome of the event's lifecycle, is counted, and is all that happens;
      an item that is not there to be settled, or a failed write, changes nothing. */
  lemma SettlementOutcome(rules: Rules, es: seq<Event>, x: Settler, p: Persist)
    requires var s := Run(rules, Initial(), es); x in s.settlers && x.key.Some? && s.queue.memory.Some?
    ensures var s := Run(rules, Initial(), es);
      var t := Step(rules, s, Settle(x, p));
      var items, k, l := s.queue.memory.value.items, x.key.value, x.release.event.lifecycle;
      && t.settlers == s.settlers - multiset{x} && t.queue.memory.Some?
      && if p.Saved? && Endable(items, k, l)
         then Ends(items, t.queue.memory.value.items, k, l) && t.settled == s.settled + multiset{k} && t.log == s.log + [x]
         else t.queue.memory == s.queue.memory && t.settled == s.settled && t.log == s.log
  {
    var s := Run(rules, Initial(), es);
    var qs := QueueProjects(rules, Initial(), es);
    Q.ReachableQueue(rules, qs);
    var op := TerminalOp(x.key.value, x.release.event.lifecycle);
    TerminalEnds(rules, s.queue.memory.value, x.key.value, x.release.event.lifecycle);
    TakenQueue(rules, s, op, p);
    hide Valid, Ends, Endable, Next, Q.Step, Run, Q.Run;
  }

  /** A released thread goes on to settle exactly when the running item of its
      session carries the client id of its turn; else it ends. */
  lemma FindExact(rules: Rules, s: State, r: R.Release)
    requires Settler(r, None) in s.settlers
    ensures var t, k := Step(rules, s, Find(r)), Key(r.event.session, r.binding.client);
      var rest := s.settlers - multiset{Settler(r, None)};
      && t.queue == s.queue && t.turns == s.turns && t.settled == s.settled && t.log == s.log
      && t.settlers == if s.queue.memory.Some? && k in s.queue.memory.value.items
                          && s.queue.memory.value.items[k].session == r.event.session && s.queue.memory.value.items[k].status == Running
                       then rest + multiset{Settler(r, Some(k))} else rest
  {
  }

  lemma {:induction false} QueueProjects(rules: Rules, s: State, es: seq<Event>) returns (qs: seq<Q.Event>)
    ensures Run(rules, s, es).queue == Q.Run(rules, s.queue, qs)
    decreases |es|
  {
    hide R.Step, Q.Step;
    qs := [];
    if es != [] {
      var rest := QueueProjects(rules, Step(rules, s, es[0]), es[1..]);
      if Step(rules, s, es[0]).queue == s.queue {
        qs := rest;
      } else {
        var op, p := ThroughQueue(rules, s, es[0]);
        qs := [Q.Do(op, p)] + rest;
        assert qs[1..] == rest;
      }
    }
  }

  lemma ThroughQueue(rules: Rules, s: State, e: Event) returns (op: Op, p: Persist)
    requires Step(rules, s, e).queue != s.queue
    ensures Step(rules, s, e).queue == Q.Step(rules, s.queue, Q.Do(op, p))
  {
    hide Q.Step;
    match e
    case Queue(o, w) => op, p := o, w;
    case Settle(x, w) => op, p := TerminalOp(x.key.value, x.release.event.lifecycle), w;
  }

  /** Settling leaves every other item of the queue as it was, unless it is a
      tombstone that compaction drops. */
  lemma OthersUntouched(rules: Rules, q: Queue, k: Key, l: Lifecycle, j: Key)
    requires Valid(rules, q) && Enabled(rules, q, TerminalOp(k, l)) && j in q.items && j != k && !q.items[j].status.Terminal()
    ensures var after := Next(rules, q, TerminalOp(k, l)).items; j in after && after[j] == q.items[j]
  {
    if l.Success? { CompactKeeps(Buried(q.items, k, Completed), k.session, j); }
  }

  lemma {:induction false} TurnsProject(rules: Rules, s: State, es: seq<Event>) returns (rs: seq<R.Event>)
    ensures Run(rules, s, es).turns == R.Run(s.turns, rs)
    decreases |es|
  {
    hide R.Step, Q.Step;
    rs := [];
    if es != [] {
      var rest := TurnsProject(rules, Step(rules, s, es[0]), es[1..]);
      if es[0].Registry? {
        rs := [es[0].e] + rest;
        assert rs[1..] == rest;
      } else {
        rs := rest;
      }
    }
  }

  /** A repeated terminal of a cleared turn that states any of its ids changes
      nothing in registry or queue at any later time: no thread is released for
      it, so it settles no item, whatever turns the session has had since. */
  lemma DuplicateSettlesNothing(rules: Rules, s: State, es: seq<Event>, g: nat, e: ControlEvent)
    requires R.Inv(s.turns) && g in s.turns.turns && s.turns.turns[g].clears == 1
    requires R.Belongs(e, g, s.turns.turns[g]) && R.States(e)
    requires e.generation != 0 || (var w := Run(rules, s, es).turns; g in w.turns && R.FreshIds(w, g))
    ensures Step(rules, Run(rules, s, es), Registry(R.Terminal(e))) == Run(rules, s, es)
  {
    hide R.Inv, R.FreshIds, R.Step, Step;
    var rs := TurnsProject(rules, s, es);
    R.LateTerminalIgnored(s.turns, rs, g, e);
    Unchanged(rules, Run(rules, s, es), e);
  }

  lemma Unchanged(rules: Rules, s: State, e: ControlEvent)
    requires R.Step(s.turns, R.Terminal(e)) == s.turns
    ensures Step(rules, s, Registry(R.Terminal(e))) == s
  {
    hide R.Step;
  }

  /** The thread that an event without ids releases against a turn just accepted. */
  function Stray(g: nat, k: Key, l: Lifecycle): R.Release {
    R.Release(Binding(g, k.client, []), ControlEvent(k.session, 0, [], [], l))
  }

  /** The turn of k begins and is accepted; then the late event arrives. */
  lemma StrayReleased(w: R.World, k: Key, l: Lifecycle)
    requires R.Inv(w) && k.session != [] && k.client != [] && k.session !in w.bindings
    ensures var g := w.counter + 1;
      var t := R.Step(R.Step(R.Step(w, R.Begin(k.session, k.client)), R.Accept(g)), R.Terminal(Stray(g, k, l).event));
      var u := R.Step(t, R.Clear(g, Stray(g, k, l)));
      g in t.turns && t.turns[g].handlers == multiset{Stray(g, k, l)} && g in u.turns && !u.turns[g].completed
  {
    assert w.counter + 1 !in w.turns;
    hide R.TurnOk;
  }

  ghost function Prefix(rules: Rules, s: State, k: Key, l: Lifecycle): State {
    var g := s.turns.counter + 1;
    var a := Step(rules, s, Registry(R.Begin(k.session, k.client)));
    var b := Step(rules, a, Registry(R.Accept(g)));
    var c := Step(rules, b, Registry(R.Terminal(Stray(g, k, l).event)));
    Step(rules, c, Registry(R.Clear(g, Stray(g, k, l))))
  }

  lemma StrayCleared(rules: Rules, s: State, k: Key, l: Lifecycle)
    requires R.Inv(s.turns) && k.session != [] && k.client != [] && k.session !in s.turns.bindings
    ensures var g := s.turns.counter + 1;
      var t := Prefix(rules, s, k, l);
      && Settler(Stray(g, k, l), None) in t.settlers && t.queue == s.queue && t.settled == s.settled
      && g in t.turns.turns && !t.turns.turns[g].completed
  {
    hide R.Step, R.Inv;
    StrayReleased(s.turns, k, l);
  }

  /** A late terminal event that states no id settles the prompt that runs by
      then: from every state with a running item and a free session, the turn of
      that item is ended for the queue although its native side still runs. */
  lemma IdlessSettlesNext(rules: Rules, s: State, k: Key, l: Lifecycle)
    requires R.Inv(s.turns) && k.session != [] && k.client != [] && k.session !in s.turns.bindings
    requires s.queue.memory.Some? && RunningIn(s.queue.memory.value.items, k.session, k)
    ensures var g := s.turns.counter + 1;
      var r := Stray(g, k, l);
      var t := Step(rules, Step(rules, Prefix(rules, s, k, l), Find(r)), Settle(Settler(r, Some(k)), Saved));
      && g in t.turns.turns && !t.turns.turns[g].completed
      && t.settled[k] == s.settled[k] + 1 && t.queue.memory.Some? && !LiveIn(t.queue.memory.value.items, k)
  {
    StrayCleared(rules, s, k, l);
    var p := Prefix(rules, s, k, l);
    hide Prefix, R.Inv;
    var r := Stray(s.turns.counter + 1, k, l);
    var f := FindStep(p, r);
    assert OwnKey(r) == k && Settler(r, Some(k)) in f.settlers;
    assert Enabled(rules, f.queue.memory.value, TerminalOp(k, l));
    SettlingEnds(rules, f.queue.memory.value, k, l);
    TakenQueue(rules, f, TerminalOp(k, l), Saved);
  }
}
