/** Reload exactness of the journal over whole runs of the dispatcher. */
module JournalRuns {
  import opened Durable
  import opened JournalModel
  import opened Dispatch
  import F = JournalFile
  import A = AtMostOnce
  import Q = QueueRuns

  ghost predicate Storable(c: Config, s: State) {
    F.Storable(c.rules, s.jmem) && F.Storable(c.rules, s.jdisk)
  }

  lemma WriteStorable(c: Config, s: State, op: JournalOp, now: int, p: Persist)
    requires Storable(c, s)
    ensures Storable(c, WriteJournal(c, s, op, now, p))
  {
    hide CanWrite, Written, F.Storable;
    if CanWrite(c.rules, c.max, s.jmem, op) { F.WrittenStorable(c.rules, c.max, s.jmem, op, now); }
  }

  lemma ProceedingStorable(c: Config, s: State, a: Attempt, m: Move)
    requires Storable(c, s)
    ensures Storable(c, Proceeding(c, s, a, m))
  {
    hide WriteJournal, CanWrite, Markable, Q.Step, F.Storable, SettlingOp, AfterSettling;
    if m.MarkDispatching? { WriteStorable(c, s, Dispatch(a.key, m.prompt, m.victim), m.now, m.p); }
    if m.Settle? { WriteStorable(c, s, SettlingOp(a), m.now, m.p); }
  }

  lemma StepStorable(c: Config, s: State, e: Event)
    requires Storable(c, s)
    ensures Storable(c, Step(c, s, e))
  {
    hide WriteJournal, CanWrite, CanQueue, Q.Step, Proceeding, F.Storable;
    match e
    case Crash(_, _) => CrashStorable(c, s, e);
    case ArriveDirect(k, prompt, victim, now, p) => WriteStorable(c, s, Dispatch(k, prompt, victim), now, p);
    case CommitFrame(k, now, p) => WriteStorable(c, s, Advance(k, Mark.Committed), now, p);
    case Proceed(session, m) => if session in s.attempts { ProceedingStorable(c, s, s.attempts[session], m); }
    case Arrive(_, _, _) =>
    case ClaimNext(_, _) =>
    case Control(_, _) =>
  }

  lemma CrashStorable(c: Config, s: State, e: Event)
    requires Storable(c, s) && e.Crash?
    ensures Storable(c, Step(c, s, e))
  {
    assert F.Storable(c.rules, RecoveredAll(s.jdisk)) by {
      forall k | k in s.jdisk ensures RecoveredAll(s.jdisk)[k] == Recovered(s.jdisk[k]) {}
    }
    hide Q.Step, F.Storable;
  }

  lemma {:induction false} RunStorable(c: Config, s: State, es: seq<Event>)
    requires Storable(c, s)
    ensures Storable(c, Run(c, s, es))
    decreases |es|
  {
    hide Storable, Step;
    if es != [] {
      StepStorable(c, s, es[0]);
      RunStorable(c, Step(c, s, es[0]), es[1..]);
    }
  }

  /** In every run, whatever writes failed and whenever it crashed, the journal
      that is on file loads at the next start, trimming included, and comes back
      whole with nothing changed but dispatching downgraded to indeterminate. */
  lemma ReachableJournal(c: Config, es: seq<Event>, device: Text, entries: seq<F.Entry>, r: Option<Records>)
    requires c.max > 0 && F.Lists(Run(c, Initial(), es).jdisk, entries)
    ensures F.Loads(c.rules, device, c.max, F.File(F.VERSION, device, entries), r)
       <==> r == Some(RecoveredAll(Run(c, Initial(), es).jdisk))
  {
    var s := Run(c, Initial(), es);
    assert Storable(c, Initial()) && A.Fits(c, Initial());
    hide Step, F.Lists, F.Read, F.Trims, Run;
    RunStorable(c, Initial(), es);
    A.JournalFits(c, Initial(), es);
    F.ReloadExact(c.rules, device, s.jdisk, entries);
    RecoveredSize(s.jdisk);
    F.TrimsNothing(RecoveredAll(s.jdisk), c.max, r);
  }

  lemma RecoveredSize(records: Records)
    ensures |RecoveredAll(records)| == |records|
  {
    KeySize(RecoveredAll(records), records.Keys);
  }
}
