/** No prompt is executed twice: what every run of the dispatcher keeps. */
module AtMostOnce {
  import opened Durable
  import opened QueueModel
  import opened JournalModel
  import opened Dispatch
  import Q = QueueRuns

  /** The attempt could still cross the boundary or still remove the record. */
  predicate Open(a: Attempt) {
    a.stage.Sending? || (a.stage.Returned? && a.stage.outcome.BeforeBoundary())
  }

  ghost predicate OpenFor(s: State, k: Key) {
    k.session in s.attempts && s.attempts[k.session].key == k && Open(s.attempts[k.session])
  }

  /** Until the answer is settled the journal, in memory and on disk, says dispatching. */
  ghost predicate AttemptOk(s: State, session: Text, a: Attempt) {
    && a.key.session == session
    && (a.stage.Preparing? || a.stage.Settling? ==> a.queued)
    && (a.stage.Sending? || a.stage.Returned? || a.stage.Unsure? ==>
          a.key in s.jmem && s.jmem[a.key].mark.Dispatching?)
    && (a.stage.Sending? || a.stage.Returned? ==> a.key in s.jdisk)
  }

  ghost predicate Inv(s: State) {
    && (forall t :: t in s.attempts ==> AttemptOk(s, t, s.attempts[t]))
    && (!s.up ==> s.attempts == map[])
  }

  /** Every copy of the journal knows k and no running attempt can change that. */
  ghost predicate Guarded(s: State, k: Key) {
    k in s.jdisk && (s.up ==> k in s.jmem) && !OpenFor(s, k)
  }

  // ----------------------------------------------------- building blocks: Inv

  /** The record of an unsettled attempt survives everybody else's writes. */
  lemma WriteKeepsInv(c: Config, s: State, op: JournalOp, now: int, p: Persist)
    requires Inv(s) && s.up
    requires op.key.session in s.attempts ==> s.attempts[op.key.session].stage.Preparing?
    ensures Inv(WriteJournal(c, s, op, now, p))
  {
    hide ValidIds, Bounded;
  }

  lemma MoveInv(s: State, a: Attempt, stage: Stage)
    requires Inv(s) && s.up && AttemptOk(s, a.key.session, a.(stage := stage))
    ensures Inv(MoveTo(s, a, stage))
  {
  }

  lemma FinishInv(s: State, session: Text)
    requires Inv(s)
    ensures Inv(Finish(s, session))
  {
  }

  lemma DispatchRecorded(c: Config, s: State, op: JournalOp, now: int)
    requires op.Dispatch? && CanWrite(c.rules, c.max, s.jmem, op)
    ensures var w := WriteJournal(c, s, op, now, Saved);
      op.key in w.jdisk && op.key in w.jmem && w.jmem[op.key].mark.Dispatching?
  {
  }

  lemma DirectInv(c: Config, s: State, k: Key, prompt: Text, victim: Key, now: int, p: Persist)
    requires Inv(s) && s.up
    ensures Inv(DirectArrival(c, s, k, prompt, victim, now, p))
  {
    hide CanWrite, WriteJournal, Inv;
    var op := Dispatch(k, prompt, victim);
    if CanWrite(c.rules, c.max, s.jmem, op) && !Locked(s, k.session) {
      WriteKeepsInv(c, s, op, now, p);
      if p.Saved? {
        DispatchRecorded(c, s, op, now);
        WriteStaysUp(c, s, op, now, p);
        MoveInv(WriteJournal(c, s, op, now, p), Attempt(k, false, Sending), Sending);
      }
    }
  }

  lemma WriteStaysUp(c: Config, s: State, op: JournalOp, now: int, p: Persist)
    ensures var w := WriteJournal(c, s, op, now, p);
      w.up == s.up && w.attempts == s.attempts && w.crossed == s.crossed && w.q == s.q
  {
    hide CanWrite, Written;
  }

  lemma MarkingInv(c: Config, s: State, a: Attempt, session: Text, prompt: Text, victim: Key, now: int, p: Persist)
    requires Inv(s) && s.up && session in s.attempts && a == s.attempts[session]
    ensures Inv(Marking(c, s, a, prompt, victim, now, p))
  {
    hide CanWrite, WriteJournal, Markable;
    assert AttemptOk(s, session, a);
    hide Inv;
    var op := Dispatch(a.key, prompt, victim);
    if a.stage == Preparing && CanWrite(c.rules, c.max, s.jmem, op) {
      WriteKeepsInv(c, s, op, now, p);
      WriteStaysUp(c, s, op, now, p);
      if p.Saved? { DispatchRecorded(c, s, op, now); }
      MoveInv(WriteJournal(c, s, op, now, p), a, if p.Saved? then Sending else Settling(Doubt));
    } else if a.stage == Preparing {
      MoveInv(s, a, Settling(Doubt));
    }
  }

  /** A write that is not exposed leaves memory as it was. */
  lemma UnsavedKeepsMemory(c: Config, s: State, op: JournalOp, now: int, p: Persist)
    requires !(CanWrite(c.rules, c.max, s.jmem, op) && p.Saved?)
    ensures WriteJournal(c, s, op, now, p).jmem == s.jmem
  {
    hide CanWrite, Written;
  }

  lemma WriteIgnoresAttempts(c: Config, s: State, session: Text, op: JournalOp, now: int, p: Persist)
    ensures WriteJournal(c, Finish(s, session), op, now, p) == Finish(WriteJournal(c, s, op, now, p), session)
  {
    hide CanWrite, Written;
  }

  lemma SettlingInv(c: Config, s: State, a: Attempt, session: Text, now: int, p: Persist)
    requires Inv(s) && s.up && session in s.attempts && a == s.attempts[session]
    ensures Inv(SettlingJournal(c, s, a, now, p))
  {
    hide CanWrite, WriteJournal;
    assert AttemptOk(s, session, a);
    hide Inv;
    if a.stage.Returned? || a.stage.Unsure? {
      var op := SettlingOp(a);
      var ok := CanWrite(c.rules, c.max, s.jmem, op) && p.Saved?;
      FinishInv(s, session);
      WriteKeepsInv(c, Finish(s, session), op, now, p);
      WriteIgnoresAttempts(c, s, session, op, now, p);
      WriteStaysUp(c, s, op, now, p);
      var w := WriteJournal(c, s, op, now, p);
      match AfterSettling(a, ok) {
        case None =>
        case Some(stage) =>
          if stage.Unsure? { UnsavedKeepsMemory(c, s, op, now, p); }
          MoveInv(Finish(w, session), a, stage);
          assert MoveTo(Finish(w, session), a, stage) == MoveTo(w, a, stage);
      }
    }
  }

  lemma ProceedingInv(c: Config, s: State, session: Text, m: Move)
    requires Inv(s) && s.up && session in s.attempts
    ensures Inv(Proceeding(c, s, s.attempts[session], m))
  {
    hide Q.Step, Marking, SettlingJournal;
    var a := s.attempts[session];
    assert AttemptOk(s, session, a);
    match m {
      case PrepareFails =>
      case MarkDispatching(prompt, victim, now, p) => MarkingInv(c, s, a, session, prompt, victim, now, p);
      case AdapterReturns(outcome) =>
      case Settle(now, p) => SettlingInv(c, s, a, session, now, p);
      case SettleQueue(p) =>
    }
  }

  lemma StepInv(c: Config, s: State, e: Event)
    requires Inv(s)
    ensures Inv(Step(c, s, e))
  {
    hide WriteJournal, CanQueue, Q.Step, DirectArrival, Proceeding, RecoveredAll;
    if s.up {
      match e {
        case ArriveDirect(k, prompt, victim, now, p) => DirectInv(c, s, k, prompt, victim, now, p);
        case CommitFrame(k, now, p) =>
          if !Locked(s, k.session) { WriteKeepsInv(c, s, Advance(k, Mark.Committed), now, p); }
        case Proceed(session, m) =>
          if session in s.attempts { ProceedingInv(c, s, session, m); }
        case ClaimNext(_, _) =>
        case Arrive(_, _, _) =>
        case Control(_, _) =>
        case Crash(_, _) =>
      }
    }
  }

  // ----------------------------------------------- building blocks: Guarded

  /** A journal write that is not a rollback of k and does not evict k keeps k guarded. */
  lemma GuardedWrite(c: Config, s: State, op: JournalOp, now: int, p: Persist, k: Key)
    requires s.up && Guarded(s, k) && op != Rollback(k)
    requires WriteJournal(c, s, op, now, p).evicted[k] == s.evicted[k]
    ensures Guarded(WriteJournal(c, s, op, now, p), k)
  {
    hide ValidIds, Bounded;
    if CanWrite(c.rules, c.max, s.jmem, op) && k !in Written(c.rules, c.max, s.jmem, op, now) {
      RecordLeaves(c.rules, c.max, s.jmem, op, now, k);
    }
  }

  lemma GuardedMove(s: State, a: Attempt, stage: Stage, k: Key)
    requires Guarded(s, k) && (Open(a.(stage := stage)) ==> a.key != k)
    ensures Guarded(MoveTo(s, a, stage), k)
  {
  }

  lemma GuardedDirect(c: Config, s: State, key: Key, prompt: Text, victim: Key, now: int, p: Persist, k: Key)
    requires s.up && Guarded(s, k)
    requires DirectArrival(c, s, key, prompt, victim, now, p).evicted[k] == s.evicted[k]
    ensures Guarded(DirectArrival(c, s, key, prompt, victim, now, p), k)
  {
    hide WriteJournal, ValidIds;
    var op := Dispatch(key, prompt, victim);
    if CanWrite(c.rules, c.max, s.jmem, op) && !Locked(s, key.session) && !(s.q.memory.Some? && key in s.q.memory.value.items) {
      GuardedWrite(c, s, op, now, p, k);
      GuardedMove(WriteJournal(c, s, op, now, p), Attempt(key, false, Sending), Sending, k);
    }
  }

  lemma GuardedMarking(c: Config, s: State, a: Attempt, prompt: Text, victim: Key, now: int, p: Persist, k: Key)
    requires s.up && Guarded(s, k) && Marking(c, s, a, prompt, victim, now, p).evicted[k] == s.evicted[k]
    ensures Guarded(Marking(c, s, a, prompt, victim, now, p), k)
  {
    hide WriteJournal, ValidIds, Markable;
    var op := Dispatch(a.key, prompt, victim);
    if a.stage == Preparing && CanWrite(c.rules, c.max, s.jmem, op) {
      GuardedWrite(c, s, op, now, p, k);
      GuardedMove(WriteJournal(c, s, op, now, p), a, if p.Saved? then Sending else Settling(Doubt), k);
    }
  }

  lemma GuardedSettling(c: Config, s: State, a: Attempt, session: Text, now: int, p: Persist, k: Key)
    requires Inv(s) && s.up && session in s.attempts && a == s.attempts[session] && Guarded(s, k)
    requires SettlingJournal(c, s, a, now, p).evicted[k] == s.evicted[k]
    ensures Guarded(SettlingJournal(c, s, a, now, p), k)
  {
    hide WriteJournal, CanWrite;
    assert AttemptOk(s, session, a);
    if a.stage.Returned? || a.stage.Unsure? {
      GuardedWrite(c, s, SettlingOp(a), now, p, k);
      var w := WriteJournal(c, s, SettlingOp(a), now, p);
      match AfterSettling(a, CanWrite(c.rules, c.max, s.jmem, SettlingOp(a)) && p.Saved?) {
        case None =>
        case Some(stage) => GuardedMove(w, a, stage, k);
      }
    }
  }

  lemma GuardedProceeding(c: Config, s: State, session: Text, m: Move, k: Key)
    requires Inv(s) && s.up && session in s.attempts && Guarded(s, k)
    requires Proceeding(c, s, s.attempts[session], m).evicted[k] == s.evicted[k]
    ensures Guarded(Proceeding(c, s, s.attempts[session], m), k)
    ensures Proceeding(c, s, s.attempts[session], m).crossed[k] == s.crossed[k]
  {
    hide Q.Step, Marking, SettlingJournal;
    var a := s.attempts[session];
    assert AttemptOk(s, session, a);
    ProceedingCrosses(c, s, a, m);
    match m {
      case PrepareFails =>
      case MarkDispatching(prompt, victim, now, p) => GuardedMarking(c, s, a, prompt, victim, now, p, k);
      case AdapterReturns(outcome) =>
      case Settle(now, p) => GuardedSettling(c, s, a, session, now, p, k);
      case SettleQueue(p) =>
    }
  }

  /** Only the adapter's answer to a sending attempt counts as a crossing. */
  lemma ProceedingCrosses(c: Config, s: State, a: Attempt, m: Move)
    ensures Proceeding(c, s, a, m).crossed != s.crossed ==>
      a.stage.Sending? && m.AdapterReturns? && m.outcome.Crosses() && Proceeding(c, s, a, m).crossed == s.crossed + multiset{a.key}
  {
    hide Q.Step, CanWrite, Written, Markable;
  }

  /** A guarded key stays guarded, and is not executed, until it is evicted. */
  lemma GuardedStep(c: Config, s: State, e: Event, k: Key)
    requires Inv(s) && Guarded(s, k) && Step(c, s, e).evicted[k] == s.evicted[k]
    ensures Guarded(Step(c, s, e), k) && Step(c, s, e).crossed[k] == s.crossed[k]
  {
    hide WriteJournal, CanQueue, Q.Step, Proceeding;
    if s.up {
      match e {
        case ArriveDirect(key, prompt, victim, now, p) =>
          GuardedDirect(c, s, key, prompt, victim, now, p, k);
          WriteStaysUp(c, s, Dispatch(key, prompt, victim), now, p);
        case CommitFrame(key, now, p) =>
          if !Locked(s, key.session) { GuardedWrite(c, s, Advance(key, Mark.Committed), now, p, k); }
          WriteStaysUp(c, s, Advance(key, Mark.Committed), now, p);
        case Proceed(session, m) =>
          if session in s.attempts { GuardedProceeding(c, s, session, m, k); }
        case ClaimNext(_, _) =>
        case Arrive(_, _, _) =>
        case Control(_, _) =>
        case Crash(_, _) =>
      }
    }
  }

  /** A step crosses the boundary for one key at most, and only for an attempt
      that is sending; afterwards that key is guarded. */
  lemma CrossingGuards(c: Config, s: State, e: Event, k: Key)
    requires Inv(s) && Step(c, s, e).crossed[k] != s.crossed[k]
    ensures Step(c, s, e).crossed[k] == s.crossed[k] + 1
    ensures forall j :: j != k ==> Step(c, s, e).crossed[j] == s.crossed[j]
    ensures !Guarded(s, k) && Guarded(Step(c, s, e), k)
  {
    hide CanWrite, Written, CanQueue, Q.Step, Marking, SettlingJournal, SettlingQueue, RecoveredAll;
    if s.up && e.Proceed? && e.session in s.attempts {
      var a := s.attempts[e.session];
      assert AttemptOk(s, e.session, a);
      ProceedingCrosses(c, s, a, e.move);
    }
  }

  lemma EvictedGrows(c: Config, s: State, e: Event, k: Key)
    ensures s.evicted[k] <= Step(c, s, e).evicted[k]
  {
    hide WriteJournal, CanWrite, CanQueue, Q.Step, Markable, RecoveredAll, SettlingOp, AfterSettling;
    if e.ArriveDirect? {
      WriteCounts(c, s, Dispatch(e.key, e.prompt, e.victim), e.now, e.p, k);
    } else if e.CommitFrame? {
      WriteCounts(c, s, Advance(e.key, Mark.Committed), e.now, e.p, k);
    } else if e.Proceed? && e.session in s.attempts {
      var a := s.attempts[e.session];
      if e.move.MarkDispatching? { WriteCounts(c, s, Dispatch(a.key, e.move.prompt, e.move.victim), e.move.now, e.move.p, k); }
      if e.move.Settle? { WriteCounts(c, s, SettlingOp(a), e.move.now, e.move.p, k); }
    }
  }

  /** A journal write executes nothing and never takes an eviction back. */
  lemma WriteCounts(c: Config, s: State, op: JournalOp, now: int, p: Persist, k: Key)
    ensures s.evicted[k] <= WriteJournal(c, s, op, now, p).evicted[k] && WriteJournal(c, s, op, now, p).crossed == s.crossed
  {
    hide CanWrite, Written;
  }

  // ---------------------------------------------------------- main results

  ghost predicate Bounded(s: State) {
    && Inv(s)
    && forall k :: s.crossed[k] <= s.evicted[k] + 1 && (s.crossed[k] > s.evicted[k] ==> Guarded(s, k))
  }

  lemma StepBounded(c: Config, s: State, e: Event)
    requires Bounded(s)
    ensures Bounded(Step(c, s, e))
  {
    hide Step, Guarded, Inv;
    StepInv(c, s, e);
    forall k ensures var t := Step(c, s, e);
      t.crossed[k] <= t.evicted[k] + 1 && (t.crossed[k] > t.evicted[k] ==> Guarded(t, k))
    {
      EvictedGrows(c, s, e, k);
      if Step(c, s, e).crossed[k] != s.crossed[k] {
        CrossingGuards(c, s, e, k);
      } else if Step(c, s, e).evicted[k] == s.evicted[k] && s.crossed[k] > s.evicted[k] {
        GuardedStep(c, s, e, k);
      }
    }
  }

  lemma {:induction false} RunBounded(c: Config, s: State, es: seq<Event>)
    requires Bounded(s)
    ensures Bounded(Run(c, s, es))
    decreases |es|
  {
    hide Bounded, Step;
    if es != [] {
      StepBounded(c, s, es[0]);
      RunBounded(c, Step(c, s, es[0]), es[1..]);
    }
  }

  /** At most once: in every run of arrivals, duplicates, adapter outcomes,
      failed writes and restarts, a prompt crosses the native boundary at most
      once more often than its committed record was evicted. */
  lemma AtMostOnce(c: Config, es: seq<Event>, k: Key)
    ensures var s := Run(c, Initial(), es); s.crossed[k] <= s.evicted[k] + 1
    ensures var s := Run(c, Initial(), es); s.crossed[k] > s.evicted[k] ==> Guarded(s, k)
  {
    hide Step, Guarded;
    assert Bounded(Initial());
    RunBounded(c, Initial(), es);
  }

  lemma {:induction false} EvictedGrowsAlong(c: Config, s: State, es: seq<Event>, k: Key)
    ensures s.evicted[k] <= Run(c, s, es).evicted[k]
    decreases |es|
  {
    hide Step;
    if es != [] {
      EvictedGrows(c, s, es[0], k);
      EvictedGrowsAlong(c, Step(c, s, es[0]), es[1..], k);
    }
  }

  /** Between two evictions: from any reachable state, a continuation in which
      k's record is not evicted executes k once at most, and not at all if k
      was already guarded. */
  lemma {:induction false} OncePerRecord(c: Config, s: State, es: seq<Event>, k: Key)
    requires Inv(s) && Run(c, s, es).evicted[k] == s.evicted[k]
    ensures Run(c, s, es).crossed[k] <= s.crossed[k] + (if Guarded(s, k) then 0 else 1)
    ensures Run(c, s, es).crossed[k] > s.crossed[k] ==> Guarded(Run(c, s, es), k)
    decreases |es|
  {
    hide Step, Guarded, Inv;
    if es != [] {
      var t := Step(c, s, es[0]);
      StepInv(c, s, es[0]);
      EvictedGrows(c, s, es[0], k);
      EvictedGrowsAlong(c, t, es[1..], k);
      OncePerRecord(c, t, es[1..], k);
      if t.crossed[k] != s.crossed[k] {
        CrossingGuards(c, s, es[0], k);
        StaysGuarded(c, t, es[1..], k);
      } else if Guarded(s, k) {
        GuardedStep(c, s, es[0], k);
      }
    }
  }

  lemma {:induction false} StaysGuarded(c: Config, s: State, es: seq<Event>, k: Key)
    requires Inv(s) && Guarded(s, k) && Run(c, s, es).evicted[k] == s.evicted[k]
    ensures Guarded(Run(c, s, es), k)
    decreases |es|
  {
    hide Step, Guarded, Inv;
    if es != [] {
      StepInv(c, s, es[0]);
      EvictedGrows(c, s, es[0], k);
      EvictedGrowsAlong(c, Step(c, s, es[0]), es[1..], k);
      GuardedStep(c, s, es[0], k);
      StaysGuarded(c, Step(c, s, es[0]), es[1..], k);
    }
  }

  // --------------------------------------------------- how records disappear

  datatype JournalWrite = JournalWrite(op: JournalOp, now: int, p: Persist)

  /** The journal write that a step performs, if it performs one. */
  ghost function WriteOf(c: Config, s: State, e: Event): Option<JournalWrite> {
    if !s.up then None
    else match e
      case ArriveDirect(k, prompt, victim, now, p) =>
        if Locked(s, k.session) || (s.q.memory.Some? && k in s.q.memory.value.items) then None
        else Some(JournalWrite(Dispatch(k, prompt, victim), now, p))
      case CommitFrame(k, now, p) => if Locked(s, k.session) then None else Some(JournalWrite(Advance(k, Mark.Committed), now, p))
      case Proceed(session, m) => if session in s.attempts then WriteOfMove(s.attempts[session], m) else None
      case _ => None
  }

  function WriteOfMove(a: Attempt, m: Move): Option<JournalWrite> {
    match m
    case MarkDispatching(prompt, victim, now, p) =>
      if a.stage == Preparing then Some(JournalWrite(Dispatch(a.key, prompt, victim), now, p)) else None
    case Settle(now, p) => if a.stage.Returned? || a.stage.Unsure? then Some(JournalWrite(SettlingOp(a), now, p)) else None
    case _ => None
  }

  /** The write evicts k to make room for another prompt. */
  ghost predicate Evicts(c: Config, s: State, op: JournalOp, k: Key) {
    op.Dispatch? && op.key != k && op.victim == k && |s.jmem| >= c.max && k in s.jmem
  }

  /** Memory does not know k, so the next write of the file leaves it out. */
  predicate Forgets(s: State, op: JournalOp, k: Key) {
    k !in s.jmem && !(op.Dispatch? && op.key == k)
  }

  /** The three ways in which a write that reaches the file takes k out of it. */
  ghost predicate Loses(c: Config, s: State, w: JournalWrite, k: Key) {
    && CanWrite(c.rules, c.max, s.jmem, w.op) && !w.p.NotWritten?
    && (w.op == Rollback(k) || Evicts(c, s, w.op, k) || Forgets(s, w.op, k))
  }

  lemma WriteLoses(c: Config, s: State, w: JournalWrite, k: Key)
    requires k in s.jdisk
    ensures k !in WriteJournal(c, s, w.op, w.now, w.p).jdisk <==> Loses(c, s, w, k)
    ensures Loses(c, s, w, k) && Evicts(c, s, w.op, k) ==>
              WriteJournal(c, s, w.op, w.now, w.p).evicted[k] == s.evicted[k] + 1 && s.jmem[k].mark.Committed?
  {
    hide ValidIds, Bounded;
  }

  lemma RefusedWrite(c: Config, s: State, op: JournalOp, now: int, p: Persist)
    requires !CanWrite(c.rules, c.max, s.jmem, op)
    ensures WriteJournal(c, s, op, now, p) == s
  {
  }

  /** The journal file and the evictions after a step are those after its write. */
  ghost predicate Writes(c: Config, s: State, t: State, w: Option<JournalWrite>) {
    match w
    case None => t.jdisk.Keys == s.jdisk.Keys && t.evicted == s.evicted
    case Some(w) =>
      var u := WriteJournal(c, s, w.op, w.now, w.p);
      t.jdisk == u.jdisk && t.evicted == u.evicted
  }

  lemma MarkingWrites(c: Config, s: State, a: Attempt, prompt: Text, victim: Key, now: int, p: Persist)
    ensures a.stage == Preparing ==>
              Writes(c, s, Marking(c, s, a, prompt, victim, now, p), Some(JournalWrite(Dispatch(a.key, prompt, victim), now, p)))
  {
    if !CanWrite(c.rules, c.max, s.jmem, Dispatch(a.key, prompt, victim)) {
      RefusedWrite(c, s, Dispatch(a.key, prompt, victim), now, p);
    }
    hide WriteJournal, CanWrite, Markable;
  }

  lemma SettlingWrites(c: Config, s: State, a: Attempt, now: int, p: Persist)
    ensures a.stage.Returned? || a.stage.Unsure? ==>
              Writes(c, s, SettlingJournal(c, s, a, now, p), Some(JournalWrite(SettlingOp(a), now, p)))
  {
    hide WriteJournal, CanWrite, SettlingOp, AfterSettling;
  }

  lemma MoveWrites(c: Config, s: State, a: Attempt, m: Move)
    ensures Writes(c, s, Proceeding(c, s, a, m), WriteOfMove(a, m))
  {
    hide WriteJournal, Q.Step, SettlingOp;
    if m.MarkDispatching? && a.stage == Preparing {
      hide Marking;
      MarkingWrites(c, s, a, m.prompt, m.victim, m.now, m.p);
    } else if m.Settle? && (a.stage.Returned? || a.stage.Unsure?) {
      hide SettlingJournal;
      SettlingWrites(c, s, a, m.now, m.p);
    }
  }

  lemma StepWrites(c: Config, s: State, e: Event)
    ensures Writes(c, s, Step(c, s, e), WriteOf(c, s, e))
  {
    hide WriteJournal, CanWrite, Proceeding, WriteOfMove, CanQueue, Q.Step;
    if e.Crash? {
      assert RecoveredAll(s.jdisk).Keys == s.jdisk.Keys;
    } else if e.ArriveDirect? {
      if !CanWrite(c.rules, c.max, s.jmem, Dispatch(e.key, e.prompt, e.victim)) {
        RefusedWrite(c, s, Dispatch(e.key, e.prompt, e.victim), e.now, e.p);
      }
    } else if e.Proceed? && e.session in s.attempts {
      MoveWrites(c, s, s.attempts[e.session], e.move);
    }
  }

  lemma LeavesFile(c: Config, s: State, e: Event, k: Key)
    requires Bounded(s) && k in s.jdisk
    ensures k !in Step(c, s, e).jdisk <==> WriteOf(c, s, e).Some? && Loses(c, s, WriteOf(c, s, e).value, k)
    ensures k !in Step(c, s, e).jdisk ==>
      var op := WriteOf(c, s, e).value.op;
      && (op == Rollback(k) ==> OpenFor(s, k) && s.attempts[k.session].stage.Returned?)
      && (Evicts(c, s, op, k) ==> Step(c, s, e).evicted[k] == s.evicted[k] + 1 && s.jmem[k].mark.Committed?)
      && (Forgets(s, op, k) ==> s.crossed[k] <= s.evicted[k])
  {
    StepWrites(c, s, e);
    if WriteOf(c, s, e).Some? {
      WriteLoses(c, s, WriteOf(c, s, e).value, k);
      if WriteOf(c, s, e).value.op == Rollback(k) { RollsBack(c, s, e, k); }
    }
    hide Step, WriteOf, Loses, WriteJournal, Inv;
  }

  /** In every reachable state a record leaves the journal file exactly when a
      write reaches the file that rolls it back, evicts it, or comes from a
      memory that does not know it. Only an attempt known not to have crossed is
      rolled back, only a committed record is evicted and that is counted, and a
      forgotten record has not been executed since it was last evicted. */
  lemma RecordLeavesFile(c: Config, es: seq<Event>, e: Event, k: Key)
    requires k in Run(c, Initial(), es).jdisk
    ensures var s := Run(c, Initial(), es);
      k !in Step(c, s, e).jdisk <==> WriteOf(c, s, e).Some? && Loses(c, s, WriteOf(c, s, e).value, k)
    ensures var s := Run(c, Initial(), es);
      k !in Step(c, s, e).jdisk ==>
        var op := WriteOf(c, s, e).value.op;
        && (op == Rollback(k) ==> OpenFor(s, k) && s.attempts[k.session].stage.Returned?)
        && (Evicts(c, s, op, k) ==> Step(c, s, e).evicted[k] == s.evicted[k] + 1 && s.jmem[k].mark.Committed?)
        && (Forgets(s, op, k) ==> s.crossed[k] <= s.evicted[k])
  {
    assert Bounded(Initial());
    hide Step, WriteOf, Loses, WriteJournal, Bounded;
    RunBounded(c, Initial(), es);
    LeavesFile(c, Run(c, Initial(), es), e, k);
  }

  lemma RollsBack(c: Config, s: State, e: Event, k: Key)
    requires Inv(s) && WriteOf(c, s, e).Some? && WriteOf(c, s, e).value.op == Rollback(k)
    ensures s.up && OpenFor(s, k) && s.attempts[k.session].stage.Returned?
  {
    var a := s.attempts[e.session];
    assert AttemptOk(s, e.session, a);
  }

  /** The third way happens: a direct mark that fails after the rename is on
      file, and the next prompt's mark overwrites it. Nothing was rolled back
      or evicted and no attempt was ever made. */
  lemma ForgottenMark(c: Config, j: Key, k: Key, prompt: Text, now: int)
    requires ValidIds(c.rules, j) && ValidIds(c.rules, k) && j != k && c.max > 0
    ensures var s := Step(c, Initial(), ArriveDirect(j, prompt, j, now, WrittenButFailed));
      var t := Step(c, s, ArriveDirect(k, prompt, k, now, Saved));
      && j in s.jdisk && j !in t.jdisk && k in t.jdisk
      && s.attempts == map[] && t.evicted == multiset{} && t.crossed == multiset{}
  {
    hide ValidIds;
  }

  // ------------------------------------------------- journal size, projection

  ghost predicate Fits(c: Config, s: State) {
    |s.jmem| <= c.max && |s.jdisk| <= c.max
  }

  lemma WriteFits(c: Config, s: State, op: JournalOp, now: int, p: Persist)
    requires c.max > 0 && Fits(c, s)
    ensures Fits(c, WriteJournal(c, s, op, now, p))
  {
    hide CanWrite, Written;
    if CanWrite(c.rules, c.max, s.jmem, op) { WrittenSize(c.rules, c.max, s.jmem, op, now); }
  }

  lemma StepFits(c: Config, s: State, e: Event)
    requires c.max > 0 && Fits(c, s)
    ensures Fits(c, Step(c, s, e))
  {
    hide WriteJournal, CanWrite, CanQueue, Q.Step, Markable;
    match e {
      case ArriveDirect(k, prompt, victim, now, p) => WriteFits(c, s, Dispatch(k, prompt, victim), now, p);
      case CommitFrame(k, now, p) => WriteFits(c, s, Advance(k, Mark.Committed), now, p);
      case Crash(_, _) =>
        assert RecoveredAll(s.jdisk).Keys == s.jdisk.Keys;
        KeySize(RecoveredAll(s.jdisk), s.jdisk.Keys);
        KeySize(s.jdisk, s.jdisk.Keys);
      case Proceed(session, m) =>
        if s.up && session in s.attempts {
          var a := s.attempts[session];
          if m.MarkDispatching? { WriteFits(c, s, Dispatch(a.key, m.prompt, m.victim), m.now, m.p); }
          if m.Settle? { WriteFits(c, s, SettlingOp(a), m.now, m.p); }
        }
      case ClaimNext(_, _) =>
      case Arrive(_, _, _) =>
      case Control(_, _) =>
    }
  }

  /** In every run the journal stays within its limit, in memory and on disk. */
  lemma {:induction false} JournalFits(c: Config, s: State, es: seq<Event>)
    requires c.max > 0 && Fits(c, s)
    ensures Fits(c, Run(c, s, es))
    decreases |es|
  {
    hide Fits, Step;
    if es != [] {
      StepFits(c, s, es[0]);
      JournalFits(c, Step(c, s, es[0]), es[1..]);
    }
  }

  lemma StepProjects(c: Config, s: State, e: Event) returns (qs: seq<Q.Event>)
    ensures |qs| <= 1 && Step(c, s, e).q == Q.Run(c.rules, s.q, qs)
  {
    hide CanWrite, Written, Markable, Enabled, Next, RecoveredAll;
    qs := [];
    if Step(c, s, e).q != s.q {
      match e {
        case Arrive(item, now, p) => qs := [Q.Do(Enqueue(item, now), p)];
        case ClaimNext(k, p) => qs := [Q.Do(Claim(k.session, k), p)];
        case Control(op, p) => qs := [Q.Do(op, p)];
        case Proceed(session, m) => qs := [Q.Do(VerdictOp(s.attempts[session].key, s.attempts[session].stage.verdict), m.p)];
        case Crash(_, queue) => qs := [if Step(c, s, e).up && !queue.Do? then queue else Q.Unreadable];
        case ArriveDirect(_, _, _, _, _) =>
        case CommitFrame(_, _, _) =>
      }
      assert qs[1..] == [];
    }
  }

  lemma {:induction false} RunAppends(rules: Rules, r: Q.State, a: seq<Q.Event>, b: seq<Q.Event>)
    ensures Q.Run(rules, r, a + b) == Q.Run(rules, Q.Run(rules, r, a), b)
    decreases |a|
  {
    hide Q.Step;
    if a == [] {
      assert a + b == b;
    } else {
      assert (a + b)[0] == a[0] && (a + b)[1..] == a[1..] + b;
      RunAppends(rules, Q.Step(rules, r, a[0]), a[1..], b);
    }
  }

  /** The queue of a dispatcher run goes through a run of the queue alone, so
      all results about queue runs hold here as well. */
  lemma {:induction false} RunProjects(c: Config, s: State, es: seq<Event>) returns (qs: seq<Q.Event>)
    ensures Run(c, s, es).q == Q.Run(c.rules, s.q, qs)
    decreases |es|
  {
    hide Step, Q.Step;
    if es == [] {
      qs := [];
    } else {
      var first := StepProjects(c, s, es[0]);
      var rest := RunProjects(c, Step(c, s, es[0]), es[1..]);
      RunAppends(c.rules, s.q, first, rest);
      qs := first + rest;
    }
  }
}
