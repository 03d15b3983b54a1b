/** The two files agree: a prompt that waits in the queue has no journal record. */
module Agreement {
  import opened Durable
  import opened QueueModel
  import opened JournalModel
  import opened Dispatch
  import A = AtMostOnce
  import Q = QueueRuns

  ghost predicate QueuedIn(q: Queue, k: Key) {
    k in q.items && q.items[k].status.Queued?
  }

  ghost predicate Waiting(s: State, k: Key) {
    QueuedIn(s.q.disk, k) || (s.q.memory.Some? && QueuedIn(s.q.memory.value, k))
  }

  ghost predicate Recorded(s: State, k: Key) {
    k in s.jdisk || (s.up && k in s.jmem)
  }

  /** No copy of the queue lists as queued what any copy of the journal knows. */
  ghost predicate Agree(s: State) {
    forall k :: Waiting(s, k) ==> !Recorded(s, k)
  }

  /** A claimed prompt is not waiting, and one about to be given back has no record. */
  ghost predicate Claims(s: State) {
    forall t :: t in s.attempts && s.attempts[t].queued ==>
      !Waiting(s, s.attempts[t].key) && (s.attempts[t].stage == Settling(GiveBack) ==> !Recorded(s, s.attempts[t].key))
  }

  ghost predicate Inv(s: State) { A.Inv(s) && Claims(s) }

  /** The two situations in which a step puts the files at odds: the queue file
      receives a prompt that the journal file knows although memory does not,
      or the journal file receives one that the queue file lists as queued
      although memory does not. Both can be read off the files beforehand. */
  ghost predicate Breaks(c: Config, s: State, e: Event) {
    match e
    case Arrive(item, now, p) =>
      && s.up && !Locked(s, item.session) && CanQueue(c, s, Enqueue(item, now)) && !p.NotWritten?
      && item.Name() !in s.jmem && item.Name() in s.jdisk
    case ArriveDirect(k, prompt, victim, _, p) =>
      && s.up && !Locked(s, k.session) && CanWrite(c.rules, c.max, s.jmem, Dispatch(k, prompt, victim)) && !p.NotWritten?
      && !(s.q.memory.Some? && k in s.q.memory.value.items) && QueuedIn(s.q.disk, k)
    case _ => false
  }

  // -------------------------------------------------------- building blocks

  /** Only enqueue and release make a prompt wait. */
  lemma NextQueued(rules: Rules, q: Queue, op: Op, k: Key)
    requires Enabled(rules, q, op) && QueuedIn(Next(rules, q, op), k)
    ensures QueuedIn(q, k) || op == Release(k) || (op.Enqueue? && op.item.Name() == k)
  {
    hide ValidItem, ValidNames, ValidPayload, Active, HasBlocker, Newest;
  }

  lemma QueueWriteWaits(c: Config, s: State, op: Op, p: Persist, k: Key)
    requires Waiting(WriteQueue(c, s, op, p), k)
    ensures Waiting(s, k) || (CanQueue(c, s, op) && !p.NotWritten? && (op == Release(k) || (op.Enqueue? && op.item.Name() == k)))
  {
    hide Enabled, Next;
    if CanQueue(c, s, op) && QueuedIn(Next(c.rules, s.q.memory.value, op), k) {
      NextQueued(c.rules, s.q.memory.value, op, k);
    }
  }

  lemma JournalWriteRecords(c: Config, s: State, op: JournalOp, now: int, p: Persist, k: Key)
    requires s.up && Recorded(WriteJournal(c, s, op, now, p), k)
    ensures Recorded(s, k) || (op.Dispatch? && op.key == k && CanWrite(c.rules, c.max, s.jmem, op) && !p.NotWritten?)
  {
    hide ValidIds, Bounded;
  }

  /** A saved rollback removes every trace of the prompt. */
  lemma SavedRollback(c: Config, s: State, k: Key, now: int, p: Persist)
    requires s.up && CanWrite(c.rules, c.max, s.jmem, Rollback(k)) && p.Saved?
    ensures !Recorded(WriteJournal(c, s, Rollback(k), now, p), k)
  {
    hide ValidIds;
  }

  // ------------------------------------------------ one lemma per transition

  lemma ArrivalExact(c: Config, s: State, item: Item, now: int, p: Persist)
    requires Inv(s) && s.up && Agree(s)
    ensures Claims(Arrival(c, s, item, now, p))
    ensures Agree(Arrival(c, s, item, now, p)) <==> !Breaks(c, s, Arrive(item, now, p))
  {
    hide CanQueue, Q.Step, A.Inv;
    var k, op := item.Name(), Enqueue(item, now);
    var t := Arrival(c, s, item, now, p);
    forall j | Waiting(t, j) ensures Waiting(s, j) || (j == k && k !in s.jmem && !Locked(s, k.session) && CanQueue(c, s, op) && !p.NotWritten?) {
      if t != s { QueueWriteWaits(c, s, op, p, j); }
    }
    AttemptSessions(s);
    if Breaks(c, s, Arrive(item, now, p)) {
      EnqueuedWaits(c, s, item, now, p);
      assert Waiting(t, k) && Recorded(t, k);
    }
  }

  lemma AttemptSessions(s: State)
    requires A.Inv(s)
    ensures forall a :: a in s.attempts ==> s.attempts[a].key.session == a
  {
    assert forall a :: a in s.attempts ==> A.AttemptOk(s, a, s.attempts[a]);
  }

  lemma EnqueuedWaits(c: Config, s: State, item: Item, now: int, p: Persist)
    requires CanQueue(c, s, Enqueue(item, now)) && !p.NotWritten?
    ensures QueuedIn(WriteQueue(c, s, Enqueue(item, now), p).q.disk, item.Name())
  {
    hide Admissible, Compact;
  }

  lemma DirectExact(c: Config, s: State, k: Key, prompt: Text, victim: Key, now: int, p: Persist)
    requires Inv(s) && s.up && Agree(s)
    ensures Claims(DirectArrival(c, s, k, prompt, victim, now, p))
    ensures Agree(DirectArrival(c, s, k, prompt, victim, now, p)) <==> !Breaks(c, s, ArriveDirect(k, prompt, victim, now, p))
  {
    hide CanWrite, WriteJournal, A.Inv;
    var op, e := Dispatch(k, prompt, victim), ArriveDirect(k, prompt, victim, now, p);
    var t := DirectArrival(c, s, k, prompt, victim, now, p);
    AttemptSessions(s);
    A.WriteStaysUp(c, s, op, now, p);
    forall j | Recorded(t, j)
      ensures Recorded(s, j) || (j == k && t != s && CanWrite(c.rules, c.max, s.jmem, op) && !p.NotWritten?)
    {
      if t != s { JournalWriteRecords(c, s, op, now, p, j); }
    }
    if Breaks(c, s, e) {
      WrittenRecorded(c, s, op, now, p);
      assert Waiting(t, k) && Recorded(t, k);
    }
  }

  lemma WrittenRecorded(c: Config, s: State, op: JournalOp, now: int, p: Persist)
    requires op.Dispatch? && CanWrite(c.rules, c.max, s.jmem, op) && !p.NotWritten?
    ensures op.key in WriteJournal(c, s, op, now, p).jdisk
  {
    hide ValidIds, Bounded;
  }

  lemma ClaimingAgrees(c: Config, s: State, k: Key, p: Persist)
    requires Inv(s) && s.up && Agree(s)
    ensures Claims(Claiming(c, s, k, p)) && Agree(Claiming(c, s, k, p))
  {
    hide Enabled, Q.Step, A.Inv;
    var op := Claim(k.session, k);
    var t := Claiming(c, s, k, p);
    AttemptSessions(s);
    forall j | Waiting(t, j) ensures Waiting(s, j) {
      if t != s { QueueWriteWaits(c, s, op, p, j); }
    }
    if CanQueue(c, s, op) && p.Saved? { ClaimedRuns(c, s, k); }
  }

  lemma ClaimedRuns(c: Config, s: State, k: Key)
    requires CanQueue(c, s, Claim(k.session, k))
    ensures !Waiting(WriteQueue(c, s, Claim(k.session, k), Saved), k)
  {
    hide OldestQueued, HasBlocker;
  }

  lemma ControllingAgrees(c: Config, s: State, op: Op, p: Persist)
    requires Inv(s) && s.up && Agree(s)
    ensures Claims(Controlling(c, s, op, p)) && Agree(Controlling(c, s, op, p))
  {
    hide CanQueue, Q.Step, A.Inv;
    var t := Controlling(c, s, op, p);
    forall j | Waiting(t, j) ensures Waiting(s, j) {
      if t != s { QueueWriteWaits(c, s, op, p, j); }
    }
  }

  lemma MarkingAgrees(c: Config, s: State, session: Text, prompt: Text, victim: Key, now: int, p: Persist)
    requires Inv(s) && s.up && Agree(s) && session in s.attempts && s.attempts[session].queued
    ensures var t := Marking(c, s, s.attempts[session], prompt, victim, now, p); Claims(t) && Agree(t)
  {
    hide CanWrite, WriteJournal, A.Inv, Markable;
    AttemptSessions(s);
    var a := s.attempts[session];
    var op := Dispatch(a.key, prompt, victim);
    var t := Marking(c, s, a, prompt, victim, now, p);
    A.WriteStaysUp(c, s, op, now, p);
    forall j | Recorded(t, j) ensures Recorded(s, j) || j == a.key {
      if !Recorded(s, j) { JournalWriteRecords(c, s, op, now, p, j); }
    }
  }

  lemma SettlingAgrees(c: Config, s: State, session: Text, now: int, p: Persist)
    requires Inv(s) && s.up && Agree(s) && session in s.attempts
    ensures var t := SettlingJournal(c, s, s.attempts[session], now, p); Claims(t) && Agree(t)
  {
    hide CanWrite, WriteJournal, A.Inv;
    AttemptSessions(s);
    var a := s.attempts[session];
    var op := SettlingOp(a);
    var t := SettlingJournal(c, s, a, now, p);
    A.WriteStaysUp(c, s, op, now, p);
    forall j | Recorded(t, j) ensures Recorded(s, j) {
      if !Recorded(s, j) { JournalWriteRecords(c, s, op, now, p, j); }
    }
    if op.Rollback? && CanWrite(c.rules, c.max, s.jmem, op) && p.Saved? {
      SavedRollback(c, s, a.key, now, p);
    }
  }

  lemma SettlingQueueAgrees(c: Config, s: State, session: Text, p: Persist)
    requires Inv(s) && s.up && Agree(s) && session in s.attempts && s.attempts[session].queued
    ensures var t := SettlingQueue(c, s, s.attempts[session], p); Claims(t) && Agree(t)
  {
    hide CanQueue, Q.Step, A.Inv;
    AttemptSessions(s);
    var a := s.attempts[session];
    var t := SettlingQueue(c, s, a, p);
    forall j | Waiting(t, j) ensures Waiting(s, j) || (j == a.key && a.stage == Settling(GiveBack)) {
      if t != s { QueueWriteWaits(c, s, VerdictOp(a.key, a.stage.verdict), p, j); }
    }
  }

  lemma CrashingAgrees(c: Config, s: State, jp: Persist, queue: Q.Event)
    requires Agree(s)
    ensures Claims(Crashing(c, s, jp, queue)) && Agree(Crashing(c, s, jp, queue))
  {
    var t := Crashing(c, s, jp, queue);
    forall j | Waiting(t, j) ensures Waiting(s, j) {}
    forall j | Recorded(t, j) ensures Recorded(s, j) {}
  }

  // ----------------------------------------------------------- main results

  /** From agreeing files, a step of any kind leaves the files agreeing if and
      only if it is not one of the two arrivals that Breaks describes. */
  lemma AgreementExact(c: Config, s: State, e: Event)
    requires Inv(s) && Agree(s)
    ensures Inv(Step(c, s, e))
    ensures Agree(Step(c, s, e)) <==> !Breaks(c, s, e)
  {
    A.StepInv(c, s, e);
    hide Agree, Claims, Arrival, DirectArrival, Claiming, Controlling, Crashing, Proceeding, WriteJournal, A.Inv;
    if e.Crash? {
      CrashingAgrees(c, s, e.jp, e.queue);
    } else if s.up {
      match e {
        case Arrive(item, now, p) => ArrivalExact(c, s, item, now, p);
        case ArriveDirect(k, prompt, victim, now, p) => DirectExact(c, s, k, prompt, victim, now, p);
        case ClaimNext(k, p) => ClaimingAgrees(c, s, k, p);
        case Control(op, p) => ControllingAgrees(c, s, op, p);
        case CommitFrame(k, now, p) => CommittingAgrees(c, s, k, now, p);
        case Proceed(session, m) => if session in s.attempts { ProceedingAgrees(c, s, session, m); }
        case Crash(_, _) =>
      }
    }
  }

  lemma CommittingAgrees(c: Config, s: State, k: Key, now: int, p: Persist)
    requires Inv(s) && s.up && Agree(s)
    ensures var t := WriteJournal(c, s, Advance(k, Mark.Committed), now, p); Claims(t) && Agree(t)
  {
    hide CanWrite, WriteJournal;
    var op := Advance(k, Mark.Committed);
    A.WriteStaysUp(c, s, op, now, p);
    forall j | Recorded(WriteJournal(c, s, op, now, p), j) ensures Recorded(s, j) {
      JournalWriteRecords(c, s, op, now, p, j);
    }
  }

  lemma ProceedingAgrees(c: Config, s: State, session: Text, m: Move)
    requires Inv(s) && s.up && Agree(s) && session in s.attempts
    ensures var t := Proceeding(c, s, s.attempts[session], m); Claims(t) && Agree(t)
  {
    hide Marking, SettlingJournal, SettlingQueue, Agree, Claims;
    var a := s.attempts[session];
    assert A.AttemptOk(s, session, a);
    match m {
      case MarkDispatching(prompt, victim, now, p) => if a.queued { MarkingAgrees(c, s, session, prompt, victim, now, p); }
        else { NotQueued(c, s, a, m); }
      case Settle(now, p) => SettlingAgrees(c, s, session, now, p);
      case SettleQueue(p) => if a.queued { SettlingQueueAgrees(c, s, session, p); } else { NotQueued(c, s, a, m); }
      case PrepareFails => MovingAgrees(s, session, Settling(Doubt), s.crossed);
      case AdapterReturns(outcome) =>
        MovingAgrees(s, session, Returned(outcome), if outcome.Crosses() then s.crossed + multiset{a.key} else s.crossed);
    }
  }

  lemma NotQueued(c: Config, s: State, a: Attempt, m: Move)
    requires (m.MarkDispatching? && !a.stage.Preparing?) || (m.SettleQueue? && !a.stage.Settling?)
    ensures Proceeding(c, s, a, m) == s
  {
  }

  lemma MovingAgrees(s: State, session: Text, stage: Stage, crossed: multiset<Key>)
    requires Inv(s) && Agree(s) && session in s.attempts && stage != Settling(GiveBack)
    ensures var t := MoveTo(s, s.attempts[session], stage).(crossed := crossed); Claims(t) && Agree(t)
  {
    AttemptSessions(s);
    var t := MoveTo(s, s.attempts[session], stage).(crossed := crossed);
    assert forall j :: Waiting(t, j) == Waiting(s, j) && Recorded(t, j) == Recorded(s, j);
  }

  /** No step of the run is one that breaks the agreement. */
  ghost predicate Undisturbed(c: Config, s: State, es: seq<Event>)
    decreases |es|
  {
    es == [] || (!Breaks(c, s, es[0]) && Undisturbed(c, Step(c, s, es[0]), es[1..]))
  }

  lemma {:induction false} AgreementAlong(c: Config, s: State, es: seq<Event>)
    requires Inv(s) && Agree(s) && Undisturbed(c, s, es)
    ensures Agree(Run(c, s, es)) && Inv(Run(c, s, es))
    decreases |es|
  {
    hide Inv, Agree, Breaks, Step;
    if es != [] {
      AgreementExact(c, s, es[0]);
      AgreementAlong(c, Step(c, s, es[0]), es[1..]);
    }
  }

  /** The queue file loads at every start, and no new prompt is written to a
      file by a call that then reports failure. All other writes may do so. */
  predicate Clean(e: Event) {
    match e
    case Arrive(_, _, p) => !p.WrittenButFailed?
    case ArriveDirect(_, _, _, _, p) => !p.WrittenButFailed?
    case Proceed(_, m) => m.MarkDispatching? ==> !m.p.WrittenButFailed?
    case Crash(_, queue) => queue == Q.Restart(Saved)
    case _ => true
  }

  /** Memory knows every new prompt that the files know. */
  ghost predicate Covers(s: State) {
    s.up ==>
      && s.jdisk.Keys <= s.jmem.Keys
      && s.q.memory.Some? && forall k :: QueuedIn(s.q.disk, k) ==> k in s.q.memory.value.items
  }

  lemma CoversStep(c: Config, s: State, e: Event)
    requires Covers(s) && Clean(e)
    ensures Covers(Step(c, s, e)) && !Breaks(c, s, e)
  {
    hide CanWrite, Enabled, WriteJournal, Q.Step, Markable;
    if s.up {
      match e {
        case Arrive(item, now, p) => QueueCovers(c, s, Enqueue(item, now), p);
        case ArriveDirect(k, prompt, victim, now, p) => JournalCovers(c, s, Dispatch(k, prompt, victim), now, p);
        case ClaimNext(k, p) => QueueCovers(c, s, Claim(k.session, k), p);
        case Control(op, p) => if !op.Enqueue? { QueueCovers(c, s, op, p); }
        case CommitFrame(k, now, p) => JournalCovers(c, s, Advance(k, Mark.Committed), now, p);
        case Proceed(session, m) => if session in s.attempts { ProceedingCovers(c, s, s.attempts[session], m); }
        case Crash(_, _) =>
      }
    }
    if e.Crash? { RestartCovers(c, s, e.jp); }
  }

  lemma ProceedingCovers(c: Config, s: State, a: Attempt, m: Move)
    requires Covers(s) && s.up && (m.MarkDispatching? ==> !m.p.WrittenButFailed?)
    ensures Covers(Proceeding(c, s, a, m))
  {
    hide CanWrite, WriteJournal, Q.Step, Markable;
    match m {
      case MarkDispatching(prompt, victim, now, p) => JournalCovers(c, s, Dispatch(a.key, prompt, victim), now, p);
      case Settle(now, p) => JournalCovers(c, s, SettlingOp(a), now, p);
      case SettleQueue(p) => if a.stage.Settling? { QueueCovers(c, s, VerdictOp(a.key, a.stage.verdict), p); }
      case PrepareFails =>
      case AdapterReturns(_) =>
    }
  }

  lemma RestartCovers(c: Config, s: State, jp: Persist)
    ensures Covers(Crashing(c, s, jp, Q.Restart(Saved)))
  {
  }

  lemma QueueCovers(c: Config, s: State, op: Op, p: Persist)
    requires Covers(s) && s.up && (op.Enqueue? ==> !p.WrittenButFailed?)
    ensures Covers(WriteQueue(c, s, op, p))
  {
    hide Enabled, Next;
    if CanQueue(c, s, op) && p.WrittenButFailed? {
      var q := s.q.memory.value;
      forall k | QueuedIn(Next(c.rules, q, op), k) ensures k in q.items {
        NextQueued(c.rules, q, op, k);
        ReleasedKnown(c.rules, q, op);
      }
    }
  }

  lemma ReleasedKnown(rules: Rules, q: Queue, op: Op)
    requires Enabled(rules, q, op)
    ensures op.Release? ==> op.key in q.items
  {
  }

  lemma JournalCovers(c: Config, s: State, op: JournalOp, now: int, p: Persist)
    requires Covers(s) && s.up && (op.Dispatch? ==> !p.WrittenButFailed?)
    ensures Covers(WriteJournal(c, s, op, now, p))
  {
    hide ValidIds, Bounded;
  }

  lemma {:induction false} CleanIsUndisturbed(c: Config, s: State, es: seq<Event>)
    requires Covers(s) && forall e :: e in es ==> Clean(e)
    ensures Undisturbed(c, s, es)
    decreases |es|
  {
    hide Covers, Clean, Breaks, Step;
    if es != [] {
      CoversStep(c, s, es[0]);
      CleanIsUndisturbed(c, Step(c, s, es[0]), es[1..]);
    }
  }

  /** In every run in which the queue file loads and new prompts are written
      or not written as reported, a queued item never has a journal record,
      whatever crashes happen between whichever writes. */
  lemma FilesAgree(c: Config, es: seq<Event>)
    requires forall e :: e in es ==> Clean(e)
    ensures Agree(Run(c, Initial(), es))
  {
    assert Inv(Initial()) && Agree(Initial()) && Covers(Initial());
    hide Inv, Agree, Covers, Clean, Breaks, Step;
    CleanIsUndisturbed(c, Initial(), es);
    AgreementAlong(c, Initial(), es);
  }

  // -------------------------------------------------------- counterexamples

  const LENIENT := Rules((t: Text) => false, (t: Text) => true, (t: Text) => true)
  const SAMPLE := Item([1], [2], [3], [4], [], [], [], 0, 0, Queued)

  const PROBE := Config(LENIENT, 1)

  /** A direct dispatch whose mark fails after writing; then the retry is queued. */
  const FAILED_MARK: seq<Event> := [ArriveDirect(SAMPLE.Name(), [4], SAMPLE.Name(), 1, WrittenButFailed), Arrive(SAMPLE, 1, Saved)]

  /** A queued prompt; after a restart that cannot read the queue, the retry is dispatched directly. */
  const LOST_QUEUE: seq<Event> :=
    [Arrive(SAMPLE, 1, Saved), Crash(Saved, Q.Unreadable), ArriveDirect(SAMPLE.Name(), [4], SAMPLE.Name(), 1, Saved)]

  lemma SampleQueued(s: State)
    requires s.up && s.q == Q.Initial() && s.attempts == map[] && s.jmem == map[]
    ensures var t := Step(PROBE, s, Arrive(SAMPLE, 1, Saved));
      t == s.(q := t.q) && QueuedIn(t.q.disk, SAMPLE.Name())
  {
    assert Active(map[], SAMPLE.session) == {};
    assert Enabled(PROBE.rules, Q.EMPTY, Enqueue(SAMPLE, 1));
    EnqueuedWaits(PROBE, s, SAMPLE, 1, Saved);
  }

  lemma FailedMarkBreaksAgreement()
    ensures !Agree(Run(PROBE, Initial(), FAILED_MARK))
  {
    var k := SAMPLE.Name();
    var s := Step(PROBE, Initial(), FAILED_MARK[0]);
    assert s.jdisk.Keys == {k} && s.jmem == map[];
    SampleQueued(s);
    var t := Step(PROBE, s, FAILED_MARK[1]);
    assert Waiting(t, k) && Recorded(t, k);
    assert FAILED_MARK[1..][1..] == [];
    assert Run(PROBE, s, FAILED_MARK[1..]) == t;
  }

  lemma LostQueueBreaksAgreement()
    ensures !Agree(Run(PROBE, Initial(), LOST_QUEUE))
  {
    var k := SAMPLE.Name();
    SampleQueued(Initial());
    var s := Step(PROBE, Initial(), LOST_QUEUE[0]);
    var t := Step(PROBE, s, LOST_QUEUE[1]);
    assert RecoveredAll(map[]) == map[];
    assert t.up && t.jmem == map[] && t.q.memory.None? && t.q.disk == s.q.disk;
    var u := Step(PROBE, t, LOST_QUEUE[2]);
    assert k in u.jdisk && u.q == t.q;
    assert Waiting(u, k) && Recorded(u, k);
    assert LOST_QUEUE[1..][1..] == LOST_QUEUE[2..] && LOST_QUEUE[2..][1..] == [];
    assert Run(PROBE, t, LOST_QUEUE[2..]) == u;
    assert Run(PROBE, s, LOST_QUEUE[1..]) == u;
  }
}
