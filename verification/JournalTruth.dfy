/** What the marks of the journal tell about the past of the dispatcher: an
    accepted record has crossed the native boundary, and only a commit frame
    makes a record committed, hence evictable. */
module JournalTruth {
  import opened Durable
  import opened JournalModel
  import opened Dispatch
  import A = AtMostOnce

  predicate Settled(r: Record) { r.mark.Accepted? || r.mark.Committed? }

  predicate SettledIn(records: Records, k: Key) { k in records && Settled(records[k]) }

  predicate CommittedIn(records: Records, k: Key) { k in records && records[k].mark.Committed? }

  /** The adapter has reported success and the journal does not know it yet. */
  predicate Answered(s: State, k: Key) {
    k.session in s.attempts && s.attempts[k.session].key == k && s.attempts[k.session].stage == Returned(Delivered)
  }

  /** Wherever the journal says accepted or committed, the prompt was executed. */
  ghost predicate Truthful(s: State, k: Key) {
    && (SettledIn(s.jmem, k) || SettledIn(s.jdisk, k) ==> s.crossed[k] >= 1)
    && (Answered(s, k) ==> s.crossed[k] >= 1)
  }

  /** A commit has reached k's record, or the record is gone because of one. */
  ghost predicate Marked(s: State, k: Key) {
    CommittedIn(s.jmem, k) || CommittedIn(s.jdisk, k) || s.evicted[k] > 0
  }

  lemma WriteSettles(c: Config, s: State, op: JournalOp, now: int, p: Persist, k: Key)
    ensures var t := WriteJournal(c, s, op, now, p);
      (SettledIn(t.jmem, k) || SettledIn(t.jdisk, k)) && !SettledIn(s.jmem, k) && !SettledIn(s.jdisk, k) ==>
        op == Advance(k, Mark.Accepted)
  {
    hide ValidIds, Bounded;
  }

  lemma WriteMarks(c: Config, s: State, op: JournalOp, now: int, p: Persist, k: Key)
    ensures Marked(WriteJournal(c, s, op, now, p), k) && !Marked(s, k) ==> op == Advance(k, Mark.Committed)
  {
    hide ValidIds, Bounded;
  }

  /** Marked speaks of the journal alone. */
  lemma MarkedSame(s: State, t: State, k: Key)
    requires t.jmem == s.jmem && t.jdisk == s.jdisk && t.evicted == s.evicted
    ensures Marked(t, k) == Marked(s, k)
  {
  }

  lemma MarkingMarks(c: Config, s: State, a: Attempt, prompt: Text, victim: Key, now: int, p: Persist, k: Key)
    ensures Marked(Marking(c, s, a, prompt, victim, now, p), k) ==> Marked(s, k)
  {
    hide WriteJournal, Marked, CanWrite, Markable;
    var op := Dispatch(a.key, prompt, victim);
    var t := Marking(c, s, a, prompt, victim, now, p);
    WriteMarks(c, s, op, now, p, k);
    if CanWrite(c.rules, c.max, s.jmem, op) && a.stage == Preparing {
      MarkedSame(WriteJournal(c, s, op, now, p), t, k);
    } else {
      MarkedSame(s, t, k);
    }
  }

  lemma SettlingMarks(c: Config, s: State, a: Attempt, now: int, p: Persist, k: Key)
    ensures Marked(SettlingJournal(c, s, a, now, p), k) ==> Marked(s, k)
  {
    hide WriteJournal, Marked, CanWrite, AfterSettling;
    if a.stage.Returned? || a.stage.Unsure? {
      WriteMarks(c, s, SettlingOp(a), now, p, k);
      MarkedSame(WriteJournal(c, s, SettlingOp(a), now, p), SettlingJournal(c, s, a, now, p), k);
    }
  }

  lemma ProceedingMarks(c: Config, s: State, a: Attempt, m: Move, k: Key)
    ensures Marked(Proceeding(c, s, a, m), k) ==> Marked(s, k)
  {
    hide Marking, SettlingJournal, Marked, Q.Step;
    match m
    case MarkDispatching(prompt, victim, now, p) => MarkingMarks(c, s, a, prompt, victim, now, p, k);
    case Settle(now, p) => SettlingMarks(c, s, a, now, p, k);
    case PrepareFails => MarkedSame(s, Proceeding(c, s, a, m), k);
    case AdapterReturns(_) => MarkedSame(s, Proceeding(c, s, a, m), k);
    case SettleQueue(_) => MarkedSame(s, Proceeding(c, s, a, m), k);
  }

  lemma DirectMarks(c: Config, s: State, key: Key, prompt: Text, victim: Key, now: int, p: Persist, k: Key)
    ensures Marked(DirectArrival(c, s, key, prompt, victim, now, p), k) ==> Marked(s, k)
  {
    hide WriteJournal, Marked, CanWrite;
    var t := DirectArrival(c, s, key, prompt, victim, now, p);
    WriteMarks(c, s, Dispatch(key, prompt, victim), now, p, k);
    if t == s {
    } else {
      MarkedSame(WriteJournal(c, s, Dispatch(key, prompt, victim), now, p), t, k);
    }
  }

  lemma CrashMarks(c: Config, s: State, jp: Persist, queue: Q.Event, k: Key)
    ensures Marked(Crashing(c, s, jp, queue), k) ==> Marked(s, k)
  {
    hide Q.Step;
  }

  /** Only a commit frame for k can mark k. */
  lemma StepMarks(c: Config, s: State, e: Event, k: Key)
    ensures Marked(Step(c, s, e), k) && !Marked(s, k) ==> e.CommitFrame? && e.key == k
  {
    hide WriteJournal, Marked, Crashing, DirectArrival, Proceeding, Q.Step, CanQueue;
    match e
    case Crash(jp, queue) => CrashMarks(c, s, jp, queue, k);
    case ArriveDirect(key, prompt, victim, now, p) => DirectMarks(c, s, key, prompt, victim, now, p, k);
    case CommitFrame(key, now, p) => WriteMarks(c, s, Advance(key, Mark.Committed), now, p, k);
    case Proceed(session, m) => if session in s.attempts { ProceedingMarks(c, s, s.attempts[session], m, k); }
    case Arrive(_, _, _) => MarkedSame(s, Step(c, s, e), k);
    case ClaimNext(_, _) => MarkedSame(s, Step(c, s, e), k);
    case Control(_, _) => MarkedSame(s, Step(c, s, e), k);
  }

  // ------------------------------------------------- accepted means executed

  lemma TruthSame(s: State, t: State, k: Key)
    requires Truthful(s, k) && t.crossed[k] >= s.crossed[k]
    requires t.jmem == s.jmem && t.jdisk == s.jdisk
    requires Answered(t, k) ==> t.crossed[k] >= 1
    ensures Truthful(t, k)
  {
  }

  lemma WriteTruth(c: Config, s: State, t: State, op: JournalOp, now: int, p: Persist, k: Key)
    requires Truthful(s, k)
    requires op == Advance(k, Mark.Accepted) ==> s.crossed[k] >= 1
    requires var w := WriteJournal(c, s, op, now, p); t.jmem == w.jmem && t.jdisk == w.jdisk && t.crossed == s.crossed
    requires Answered(t, k) ==> Answered(s, k)
    ensures Truthful(t, k)
  {
    WriteSettles(c, s, op, now, p, k);
    hide WriteJournal, SettledIn;
  }

  lemma MarkingTruth(c: Config, s: State, a: Attempt, prompt: Text, victim: Key, now: int, p: Persist, k: Key)
    requires Truthful(s, k)
    ensures Truthful(Marking(c, s, a, prompt, victim, now, p), k)
  {
    hide Truthful, WriteJournal, CanWrite, Markable;
    var op := Dispatch(a.key, prompt, victim);
    var t := Marking(c, s, a, prompt, victim, now, p);
    WriteIgnores(c, s, op, now, p);
    assert Answered(t, k) ==> Answered(s, k);
    if CanWrite(c.rules, c.max, s.jmem, op) && a.stage == Preparing {
      WriteTruth(c, s, t, op, now, p, k);
    } else {
      assert Answered(s, k) ==> s.crossed[k] >= 1 by { Unfold(s, k); }
      TruthSame(s, t, k);
    }
  }

  lemma Unfold(s: State, k: Key)
    requires Truthful(s, k)
    ensures Answered(s, k) ==> s.crossed[k] >= 1
  {
  }

  lemma WriteIgnores(c: Config, s: State, op: JournalOp, now: int, p: Persist)
    ensures var w := WriteJournal(c, s, op, now, p); w.attempts == s.attempts && w.crossed == s.crossed && w.q == s.q && w.up == s.up
  {
    hide CanWrite, Written;
  }

  /** Settling an attempt leaves no answer behind, and accepts only an answered prompt. */
  lemma SettlingAnswers(c: Config, s: State, a: Attempt, now: int, p: Persist, k: Key)
    requires a.key.session in s.attempts && s.attempts[a.key.session] == a
    ensures Answered(SettlingJournal(c, s, a, now, p), k) ==> Answered(s, k)
    ensures (a.stage.Returned? || a.stage.Unsure?) && SettlingOp(a) == Advance(k, Mark.Accepted) ==> Answered(s, k)
  {
    WriteIgnores(c, s, SettlingOp(a), now, p);
    hide WriteJournal, CanWrite;
  }

  lemma SettlingTruth(c: Config, s: State, a: Attempt, now: int, p: Persist, k: Key)
    requires Truthful(s, k) && a.key.session in s.attempts && s.attempts[a.key.session] == a
    ensures Truthful(SettlingJournal(c, s, a, now, p), k)
  {
    var op := SettlingOp(a);
    Unfold(s, k);
    SettlingAnswers(c, s, a, now, p, k);
    WriteIgnores(c, s, op, now, p);
    hide Truthful, WriteJournal, CanWrite, Answered, SettlingOp, AfterSettling;
    if a.stage.Returned? || a.stage.Unsure? {
      WriteTruth(c, s, SettlingJournal(c, s, a, now, p), op, now, p, k);
    }
  }

  lemma ReturningTruth(s: State, a: Attempt, outcome: Outcome, k: Key)
    requires Truthful(s, k)
    ensures Truthful(Returning(s, a, outcome), k)
  {
    Unfold(s, k);
    hide Truthful;
    TruthSame(s, Returning(s, a, outcome), k);
  }

  lemma ProceedingTruth(c: Config, s: State, a: Attempt, m: Move, k: Key)
    requires Truthful(s, k) && a.key.session in s.attempts && s.attempts[a.key.session] == a
    ensures Truthful(Proceeding(c, s, a, m), k)
  {
    Unfold(s, k);
    hide Truthful, Marking, SettlingJournal, Returning, Q.Step;
    match m
    case MarkDispatching(prompt, victim, now, p) => MarkingTruth(c, s, a, prompt, victim, now, p, k);
    case Settle(now, p) => SettlingTruth(c, s, a, now, p, k);
    case AdapterReturns(outcome) => ReturningTruth(s, a, outcome, k);
    case PrepareFails => TruthSame(s, Proceeding(c, s, a, m), k);
    case SettleQueue(_) => TruthSame(s, Proceeding(c, s, a, m), k);
  }

  lemma DirectTruth(c: Config, s: State, key: Key, prompt: Text, victim: Key, now: int, p: Persist, k: Key)
    requires Truthful(s, k)
    ensures Truthful(DirectArrival(c, s, key, prompt, victim, now, p), k)
  {
    hide Truthful, WriteJournal, CanWrite;
    var t := DirectArrival(c, s, key, prompt, victim, now, p);
    WriteIgnores(c, s, Dispatch(key, prompt, victim), now, p);
    if t != s { WriteTruth(c, s, t, Dispatch(key, prompt, victim), now, p, k); }
  }

  lemma CrashTruth(c: Config, s: State, jp: Persist, queue: Q.Event, k: Key)
    requires Truthful(s, k)
    ensures Truthful(Crashing(c, s, jp, queue), k)
  {
    hide Q.Step;
  }

  lemma CommitTruth(c: Config, s: State, key: Key, now: int, p: Persist, k: Key)
    requires Truthful(s, k)
    ensures Truthful(WriteJournal(c, s, Advance(key, Mark.Committed), now, p), k)
  {
    hide Truthful, WriteJournal, CanWrite;
    WriteIgnores(c, s, Advance(key, Mark.Committed), now, p);
    WriteTruth(c, s, WriteJournal(c, s, Advance(key, Mark.Committed), now, p), Advance(key, Mark.Committed), now, p, k);
  }

  lemma ClaimingTruth(c: Config, s: State, key: Key, p: Persist, k: Key)
    requires Truthful(s, k)
    ensures Truthful(Claiming(c, s, key, p), k)
  {
    Unfold(s, k);
    hide Truthful, Q.Step, CanQueue;
    TruthSame(s, Claiming(c, s, key, p), k);
  }

  lemma StepTruth(c: Config, s: State, e: Event, k: Key)
    requires A.Inv(s) && Truthful(s, k)
    ensures Truthful(Step(c, s, e), k)
  {
    Unfold(s, k);
    assert forall t :: t in s.attempts ==> s.attempts[t].key.session == t;
    hide Truthful, Crashing, DirectArrival, Claiming, Proceeding, WriteJournal, Q.Step, CanQueue, A.Inv;
    match e
    case Crash(jp, queue) => CrashTruth(c, s, jp, queue, k);
    case ArriveDirect(key, prompt, victim, now, p) => DirectTruth(c, s, key, prompt, victim, now, p, k);
    case CommitFrame(key, now, p) => CommitTruth(c, s, key, now, p, k);
    case Proceed(session, m) => if session in s.attempts { ProceedingTruth(c, s, s.attempts[session], m, k); }
    case ClaimNext(key, p) => ClaimingTruth(c, s, key, p, k);
    case Arrive(_, _, _) => TruthSame(s, Step(c, s, e), k);
    case Control(_, _) => TruthSame(s, Step(c, s, e), k);
  }

  /** Executions are never forgotten. */
  lemma CrossedGrows(c: Config, s: State, e: Event, k: Key)
    ensures s.crossed[k] <= Step(c, s, e).crossed[k]
  {
    hide WriteJournal, CanWrite, CanQueue, Q.Step, Markable, RecoveredAll, SettlingOp, AfterSettling;
    if e.ArriveDirect? {
      WriteIgnores(c, s, Dispatch(e.key, e.prompt, e.victim), e.now, e.p);
    } else if e.CommitFrame? {
      WriteIgnores(c, s, Advance(e.key, Mark.Committed), e.now, e.p);
    } else if e.Proceed? && e.session in s.attempts {
      var a := s.attempts[e.session];
      if e.move.MarkDispatching? { WriteIgnores(c, s, Dispatch(a.key, e.move.prompt, e.move.victim), e.move.now, e.move.p); }
      if e.move.Settle? { WriteIgnores(c, s, SettlingOp(a), e.move.now, e.move.p); }
    }
  }

  lemma {:induction false} RunTruth(c: Config, s: State, es: seq<Event>, k: Key)
    requires A.Inv(s) && Truthful(s, k)
    ensures A.Inv(Run(c, s, es)) && Truthful(Run(c, s, es), k)
    decreases |es|
  {
    hide Step, Truthful, A.Inv;
    if es != [] {
      StepTruth(c, s, es[0], k);
      A.StepInv(c, s, es[0]);
      RunTruth(c, Step(c, s, es[0]), es[1..], k);
    }
  }

  /** A prompt that the journal calls accepted or committed, and whose record
      was never evicted, has crossed the native boundary exactly once. */
  lemma ExactlyOnce(c: Config, es: seq<Event>, k: Key)
    ensures var s := Run(c, Initial(), es);
      (SettledIn(s.jmem, k) || SettledIn(s.jdisk, k)) && s.evicted[k] == 0 ==> s.crossed[k] == 1
  {
    hide Step;
    RunTruth(c, Initial(), es, k);
    A.AtMostOnce(c, es, k);
  }
}
