/** Where the dispatcher's prompts come from: no journal record, queue item or
    attempt has a key that did not arrive. */
module DispatchKeys {
  import opened Durable
  import opened QueueModel
  import opened JournalModel
  import opened Dispatch
  import Q = QueueRuns

  ghost predicate QueueWithin(q: Q.State, ks: set<Key>) {
    q.disk.items.Keys <= ks && (q.memory.Some? ==> q.memory.value.items.Keys <= ks)
  }

  /** Every key in memory or on file is one of ks. */
  ghost predicate Within(s: State, ks: set<Key>) {
    && s.jmem.Keys <= ks && s.jdisk.Keys <= ks && QueueWithin(s.q, ks)
    && (forall t :: t in s.attempts ==> s.attempts[t].key in ks)
  }

  /** The event brings no key from outside ks. */
  predicate Brings(e: Event, ks: set<Key>) {
    (e.Arrive? ==> e.item.Name() in ks) && (e.ArriveDirect? ==> e.key in ks)
  }

  lemma NextKeys(rules: Rules, q: Queue, op: Op)
    requires Enabled(rules, q, op)
    ensures Next(rules, q, op).items.Keys <= q.items.Keys + (if op.Enqueue? then {op.item.Name()} else {})
  {
    hide Admissible, Admitted;
  }

  lemma QueueStepWithin(rules: Rules, q: Q.State, e: Q.Event, ks: set<Key>)
    requires QueueWithin(q, ks) && (e.Do? && e.op.Enqueue? ==> e.op.item.Name() in ks)
    ensures QueueWithin(Q.Step(rules, q, e), ks)
  {
    if e.Do? && q.memory.Some? && Enabled(rules, q.memory.value, e.op) { NextKeys(rules, q.memory.value, e.op); }
    hide Enabled, Next, Downgraded;
  }

  lemma WriteWithin(c: Config, s: State, op: JournalOp, now: int, p: Persist, ks: set<Key>)
    requires Within(s, ks) && (op.Dispatch? ==> op.key in ks)
    ensures Within(WriteJournal(c, s, op, now, p), ks)
  {
    hide QueueWithin, ValidIds, Bounded;
  }

  lemma ProceedingWithin(c: Config, s: State, a: Attempt, m: Move, ks: set<Key>)
    requires Within(s, ks) && a.key in ks
    ensures Within(Proceeding(c, s, a, m), ks)
  {
    hide WriteJournal, CanWrite, Markable, Q.Step, QueueWithin, AfterSettling;
    match m
    case MarkDispatching(prompt, victim, now, p) => WriteWithin(c, s, Dispatch(a.key, prompt, victim), now, p, ks);
    case Settle(now, p) => WriteWithin(c, s, SettlingOp(a), now, p, ks);
    case SettleQueue(p) =>
      if a.stage.Settling? { QueueStepWithin(c.rules, s.q, Q.Do(VerdictOp(a.key, a.stage.verdict), p), ks); }
    case PrepareFails =>
    case AdapterReturns(_) =>
  }

  lemma ClaimingWithin(c: Config, s: State, k: Key, p: Persist, ks: set<Key>)
    requires Within(s, ks)
    ensures Within(Claiming(c, s, k, p), ks)
  {
    QueueStepWithin(c.rules, s.q, Q.Do(Claim(k.session, k), p), ks);
    assert CanQueue(c, s, Claim(k.session, k)) ==> k in ks;
    hide Q.Step, QueueWithin, CanQueue;
  }

  lemma CrashingWithin(c: Config, s: State, jp: Persist, queue: Q.Event, ks: set<Key>)
    requires Within(s, ks)
    ensures Within(Crashing(c, s, jp, queue), ks)
  {
    if !queue.Do? { QueueStepWithin(c.rules, s.q, queue, ks); }
    assert RecoveredAll(s.jdisk).Keys == s.jdisk.Keys;
    hide Q.Step, RecoveredAll;
  }

  /** Only arrivals add keys. */
  lemma StepWithin(c: Config, s: State, e: Event, ks: set<Key>)
    requires Within(s, ks) && Brings(e, ks)
    ensures Within(Step(c, s, e), ks)
  {
    hide Proceeding, Claiming, Crashing, WriteJournal, CanWrite, Q.Step, QueueWithin;
    match e
    case Crash(jp, queue) => CrashingWithin(c, s, jp, queue, ks);
    case Arrive(item, now, p) => QueueStepWithin(c.rules, s.q, Q.Do(Enqueue(item, now), p), ks);
    case ArriveDirect(k, prompt, victim, now, p) => WriteWithin(c, s, Dispatch(k, prompt, victim), now, p, ks);
    case ClaimNext(k, p) => ClaimingWithin(c, s, k, p, ks);
    case Control(op, p) => if !op.Enqueue? { QueueStepWithin(c.rules, s.q, Q.Do(op, p), ks); }
    case CommitFrame(k, now, p) => WriteWithin(c, s, Advance(k, Mark.Committed), now, p, ks);
    case Proceed(session, m) => if session in s.attempts { ProceedingWithin(c, s, s.attempts[session], m, ks); }
  }

  lemma MoreKeys(s: State, ks: set<Key>, more: set<Key>)
    requires Within(s, ks) && ks <= more
    ensures Within(s, more)
  {
  }

  // -------------------------------------------------------- valid identifiers

  /** Every record, in memory and on file, has identifiers that the journal accepts. */
  ghost predicate Identified(c: Config, s: State) {
    forall k :: k in s.jmem || k in s.jdisk ==> ValidIds(c.rules, k)
  }

  lemma WriteIdentified(c: Config, s: State, op: JournalOp, now: int, p: Persist)
    requires Identified(c, s)
    ensures Identified(c, WriteJournal(c, s, op, now, p))
  {
    hide ValidIds, Bounded;
  }

  lemma ProceedingIdentified(c: Config, s: State, a: Attempt, m: Move)
    requires Identified(c, s)
    ensures Identified(c, Proceeding(c, s, a, m))
  {
    hide WriteJournal, CanWrite, Markable, Q.Step, ValidIds, SettlingOp, AfterSettling;
    if m.MarkDispatching? { WriteIdentified(c, s, Dispatch(a.key, m.prompt, m.victim), m.now, m.p); }
    if m.Settle? { WriteIdentified(c, s, SettlingOp(a), m.now, m.p); }
  }

  lemma StepIdentified(c: Config, s: State, e: Event)
    requires Identified(c, s)
    ensures Identified(c, Step(c, s, e))
  {
    hide WriteJournal, CanWrite, CanQueue, Q.Step, Proceeding, ValidIds;
    match e
    case Crash(_, _) => assert RecoveredAll(s.jdisk).Keys == s.jdisk.Keys;
    case ArriveDirect(k, prompt, victim, now, p) => WriteIdentified(c, s, Dispatch(k, prompt, victim), now, p);
    case CommitFrame(k, now, p) => WriteIdentified(c, s, Advance(k, Mark.Committed), now, p);
    case Proceed(session, m) => if session in s.attempts { ProceedingIdentified(c, s, s.attempts[session], m); }
    case Arrive(_, _, _) =>
    case ClaimNext(_, _) =>
    case Control(_, _) =>
  }
}
