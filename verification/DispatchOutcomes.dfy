/** What one dispatch comes to: record, queue item and native execution for each
    answer of the adapter, when every write succeeds or the settling one fails. */
module DispatchOutcomes {
  import opened Durable
  import opened QueueModel
  import opened JournalModel
  import opened Dispatch
  import opened QueueOutcomes
  import Q = QueueRuns

  predicate OnRecord(records: Records, k: Key, mark: Mark) {
    k in records && records[k].mark == mark
  }

  /** The queue item of k after its dispatch, seen from the queue before the claim. */
  ghost predicate Left(before: Option<Queue>, after: Option<Queue>, k: Key, status: Status) {
    && before.Some? && after.Some? && k in before.value.items && after.value.nextId == before.value.nextId
    && after.value.items == before.value.items[k := before.value.items[k].(status := status)]
  }

  /** The dispatcher may start on k: it is up, the session is unlocked, k is next
      in its queue, and the journal takes it. */
  ghost predicate Startable(c: Config, s: State, k: Key, prompt: Text, victim: Key) {
    && s.up && !Locked(s, k.session)
    && s.q.memory.Some? && Enabled(c.rules, s.q.memory.value, Claim(k.session, k))
    && CanWrite(c.rules, c.max, s.jmem, JournalOp.Dispatch(k, prompt, victim))
  }

  /** Claimed and marked, with the adapter about to be called. */
  ghost function Sent(c: Config, s: State, k: Key, prompt: Text, victim: Key): State {
    Step(c, Step(c, s, ClaimNext(k, Saved)), Proceed(k.session, MarkDispatching(prompt, victim, 1, Saved)))
  }

  ghost function Answered(c: Config, s: State, k: Key, outcome: Outcome, p: Persist): State {
    Step(c, Step(c, s, Proceed(k.session, AdapterReturns(outcome))), Proceed(k.session, Settle(2, p)))
  }

  /** The item is settled too where the journal's settlement has not ended the attempt. */
  ghost function Concluded(c: Config, s: State, k: Key): State {
    if k.session in s.attempts then Step(c, s, Proceed(k.session, SettleQueue(Saved))) else s
  }

  ghost function Whole(c: Config, s: State, k: Key, prompt: Text, victim: Key, outcome: Outcome, p: Persist): State {
    Concluded(c, Answered(c, Sent(c, s, k, prompt, victim), k, outcome, p), k)
  }

  lemma ClaimStep(c: Config, s: State, k: Key, prompt: Text, victim: Key)
    requires Startable(c, s, k, prompt, victim)
    ensures var t := Step(c, s, ClaimNext(k, Saved));
      && t.up && t.jmem == s.jmem && t.jdisk == s.jdisk && t.crossed == s.crossed && t.evicted == s.evicted
      && t.attempts == s.attempts[k.session := Attempt(k, true, Preparing)]
      && Left(s.q.memory, t.q.memory, k, Running)
  {
    hide CanWrite, HasBlocker;
  }

  lemma MarkStep(c: Config, s: State, k: Key, prompt: Text, victim: Key)
    requires s.up && CanWrite(c.rules, c.max, s.jmem, JournalOp.Dispatch(k, prompt, victim))
    requires k.session in s.attempts && s.attempts[k.session] == Attempt(k, true, Preparing)
    ensures var t := Step(c, s, Proceed(k.session, MarkDispatching(prompt, victim, 1, Saved)));
      && t.up && t.q == s.q && t.crossed == s.crossed && t.attempts == s.attempts[k.session := Attempt(k, true, Sending)]
      && OnRecord(t.jmem, k, Mark.Dispatching) && t.jdisk == t.jmem
      && SparesAll(s.jmem, t.jmem, if |s.jmem| < c.max then {k} else {k, victim})
  {
    var op := JournalOp.Dispatch(k, prompt, victim);
    WriteOutcome(c.rules, c.max, s.jmem, op, 1);
    assert OnRecord(Written(c.rules, c.max, s.jmem, op, 1), k, Mark.Dispatching);
    hide Written, CanWrite, OnRecord, SparesAll;
  }

  /** A crossing attempt in the stage before the adapter answers. */
  ghost predicate Calling(c: Config, s: State, k: Key, queued: bool) {
    && s.up && k.session in s.attempts && s.attempts[k.session] == Attempt(k, queued, Sending)
    && OnRecord(s.jmem, k, Mark.Dispatching) && ValidIds(c.rules, k)
  }

  /** The record that an answer leaves; None when it leaves none. */
  function Recorded(outcome: Outcome): Option<Mark> {
    match outcome
    case Delivered => Some(Mark.Accepted)
    case Failed(_) => Some(Mark.Indeterminate)
    case Busy => None
    case NotStarted => None
    case Conflict => None
  }

  /** The adapter's answer is in, the journal not yet settled. */
  ghost predicate Settleable(c: Config, s: State, k: Key, queued: bool, outcome: Outcome) {
    && s.up && k.session in s.attempts && s.attempts[k.session] == Attempt(k, queued, Returned(outcome))
    && OnRecord(s.jmem, k, Mark.Dispatching) && ValidIds(c.rules, k)
  }

  lemma AnswerStep(c: Config, s: State, k: Key, queued: bool, outcome: Outcome)
    requires Calling(c, s, k, queued)
    ensures var t := Step(c, s, Proceed(k.session, AdapterReturns(outcome)));
      && Settleable(c, t, k, queued, outcome)
      && t == s.(attempts := s.attempts[k.session := Attempt(k, queued, Returned(outcome))],
                 crossed := s.crossed + (if outcome == Delivered || outcome == Failed(true) then multiset{k} else multiset{}))
  {
    hide ValidIds;
  }

  /** The journal write of the settling step. */
  lemma SettlingWrite(c: Config, s: State, k: Key, queued: bool, outcome: Outcome)
    requires OnRecord(s.jmem, k, Mark.Dispatching) && ValidIds(c.rules, k)
    ensures var op := SettlingOp(Attempt(k, queued, Returned(outcome)));
      && !op.Dispatch? && CanWrite(c.rules, c.max, s.jmem, op)
      && var next := Written(c.rules, c.max, s.jmem, op, 2);
         && WriteJournal(c, s, op, 2, Saved) == s.(jmem := next, jdisk := next) && WriteJournal(c, s, op, 2, NotWritten) == s
         && SparesAll(s.jmem, next, {k})
         && (match Recorded(outcome) case Some(mark) => OnRecord(next, k, mark) case None => k !in next)
  {
    hide ValidIds;
  }

  /** What the queue item of a queued prompt is to become, if anything. */
  function Becomes(outcome: Outcome, saved: bool): Option<Verdict> {
    if !saved then Some(Doubt)
    else match outcome
      case Delivered => None
      case NotStarted => Some(Fail)
      case Failed(_) => Some(Doubt)
      case Busy => Some(GiveBack)
      case Conflict => Some(GiveBack)
  }

  function Attempts(s: State, k: Key, queued: bool, v: Option<Verdict>): map<Text, Attempt> {
    if queued && v.Some? then s.attempts[k.session := Attempt(k, true, Settling(v.value))] else s.attempts - {k.session}
  }

  /** When the settling write is saved, the record says what happened. */
  lemma SettleStep(c: Config, s: State, k: Key, queued: bool, outcome: Outcome)
    requires Settleable(c, s, k, queued, outcome)
    ensures var t := Step(c, s, Proceed(k.session, Settle(2, Saved)));
      && t.up && t.q == s.q && t.crossed == s.crossed && t.jdisk == t.jmem && SparesAll(s.jmem, t.jmem, {k})
      && (match Recorded(outcome) case Some(mark) => OnRecord(t.jmem, k, mark) case None => k !in t.jmem)
      && t.attempts == Attempts(s, k, queued, Becomes(outcome, true))
  {
    SettlingWrite(c, s, k, queued, outcome);
    hide ValidIds, CanWrite, Written, WriteJournal, SparesAll, OnRecord;
  }

  /** When it fails, a queued prompt is in doubt. */
  lemma SettleFails(c: Config, s: State, k: Key, outcome: Outcome)
    requires Settleable(c, s, k, true, outcome)
    ensures Step(c, s, Proceed(k.session, Settle(2, NotWritten))) == s.(attempts := Attempts(s, k, true, Becomes(outcome, false)))
  {
    SettlingWrite(c, s, k, true, outcome);
    hide ValidIds, CanWrite, Written, WriteJournal, SparesAll, OnRecord;
  }

  lemma QueueStep(c: Config, s: State, k: Key, verdict: Verdict, before: Option<Queue>)
    requires s.up && k.session in s.attempts && s.attempts[k.session] == Attempt(k, true, Settling(verdict))
    requires Left(before, s.q.memory, k, Running)
    ensures var t := Concluded(c, s, k);
      && t.attempts == s.attempts - {k.session} && t.jmem == s.jmem && t.jdisk == s.jdisk && t.crossed == s.crossed
      && Left(before, t.q.memory, k, match verdict case GiveBack => Queued case Fail => BlockedFailed case Doubt => BlockedIndeterminate)
  {
  }

  // ----------------------------------------------------------- main results

  /** Evicting a victim is all that a dispatch does to other prompts' records. */
  ghost function Touched(c: Config, s: State, k: Key, victim: Key): set<Key> {
    if |s.jmem| < c.max then {k} else {k, victim}
  }

  lemma SentStep(c: Config, s: State, k: Key, prompt: Text, victim: Key)
    requires Startable(c, s, k, prompt, victim)
    ensures var t := Sent(c, s, k, prompt, victim);
      && Calling(c, t, k, true) && Left(s.q.memory, t.q.memory, k, Running) && t.jdisk == t.jmem && t.crossed == s.crossed
      && SparesAll(s.jmem, t.jmem, Touched(c, s, k, victim))
      && t.attempts - {k.session} == s.attempts
  {
    ClaimStep(c, s, k, prompt, victim);
    var t := Step(c, s, ClaimNext(k, Saved));
    MarkStep(c, t, k, prompt, victim);
    assert CanWrite(c.rules, c.max, s.jmem, JournalOp.Dispatch(k, prompt, victim));
    hide Step, SparesAll, Left, Startable;
  }

  /** The whole table for a queued prompt whose writes succeed. Delivered: on
      record as accepted, and running. Busy, or refused by the turn registry: no
      record, and back in its old place. Not started: no record, blocked as
      failed. Failed: on record as indeterminate, and blocked so. */
  lemma QueuedOutcome(c: Config, s: State, k: Key, prompt: Text, victim: Key, outcome: Outcome)
    requires Startable(c, s, k, prompt, victim) && s.q.memory.value.items[k].status == Queued
    ensures var t := Whole(c, s, k, prompt, victim, outcome, Saved);
      && t.attempts == s.attempts && SparesAll(s.jmem, t.jmem, Touched(c, s, k, victim)) && t.jdisk == t.jmem
      && t.crossed == s.crossed + (if outcome == Delivered || outcome == Failed(true) then multiset{k} else multiset{})
      && match outcome
         case Delivered => OnRecord(t.jmem, k, Mark.Accepted) && Left(s.q.memory, t.q.memory, k, Running)
         case Busy => k !in t.jmem && t.q.memory == s.q.memory
         case Conflict => k !in t.jmem && t.q.memory == s.q.memory
         case NotStarted => k !in t.jmem && Left(s.q.memory, t.q.memory, k, BlockedFailed)
         case Failed(_) => OnRecord(t.jmem, k, Mark.Indeterminate) && Left(s.q.memory, t.q.memory, k, BlockedIndeterminate)
  {
    BeforeConcluding(c, s, k, prompt, victim, outcome);
    var v := Answered(c, Sent(c, s, k, prompt, victim), k, outcome, Saved);
    assert s.q.memory.Some?;
    hide Answered, Step, Sent, Concluded, OnRecord, Left, Becomes, SparesAll, Startable;
    Concludes(c, s, v, k, outcome);
  }

  lemma BeforeConcluding(c: Config, s: State, k: Key, prompt: Text, victim: Key, outcome: Outcome)
    requires Startable(c, s, k, prompt, victim)
    ensures var v := Answered(c, Sent(c, s, k, prompt, victim), k, outcome, Saved);
      && v.up && v.jdisk == v.jmem && SparesAll(s.jmem, v.jmem, Touched(c, s, k, victim))
      && v.crossed == s.crossed + (if outcome == Delivered || outcome == Failed(true) then multiset{k} else multiset{})
      && (match Recorded(outcome) case Some(mark) => OnRecord(v.jmem, k, mark) case None => k !in v.jmem)
      && v.attempts - {k.session} == s.attempts && Left(s.q.memory, v.q.memory, k, Running)
      && (if outcome == Delivered then k.session !in v.attempts
          else k.session in v.attempts && v.attempts[k.session] == Attempt(k, true, Settling(Becomes(outcome, true).value)))
  {
    SentStep(c, s, k, prompt, victim);
    var t := Sent(c, s, k, prompt, victim);
    hide Answered, Sent, Step, OnRecord, Left, Becomes, Startable, Calling, Recorded, SparesAll;
    AnsweredStep(c, t, k, outcome);
    SparesTwice(s.jmem, t.jmem, Answered(c, t, k, outcome, Saved).jmem, Touched(c, s, k, victim), k);
  }

  lemma SparesTwice(a: Records, b: Records, d: Records, ks: set<Key>, k: Key)
    requires SparesAll(a, b, ks) && SparesAll(b, d, {k}) && k in ks
    ensures SparesAll(a, d, ks)
  {
  }

  lemma Concludes(c: Config, s: State, v: State, k: Key, outcome: Outcome)
    requires v.up && v.attempts - {k.session} == s.attempts && s.q.memory.Some? && Left(s.q.memory, v.q.memory, k, Running)
    requires s.q.memory.value.items[k].status == Queued
    requires if outcome == Delivered then k.session !in v.attempts
             else k.session in v.attempts && v.attempts[k.session] == Attempt(k, true, Settling(Becomes(outcome, true).value))
    ensures var t := Concluded(c, v, k);
      && t.attempts == s.attempts && t.jmem == v.jmem && t.jdisk == v.jdisk && t.crossed == v.crossed
      && match outcome
         case Delivered => Left(s.q.memory, t.q.memory, k, Running)
         case Busy => t.q.memory == s.q.memory
         case Conflict => t.q.memory == s.q.memory
         case NotStarted => Left(s.q.memory, t.q.memory, k, BlockedFailed)
         case Failed(_) => Left(s.q.memory, t.q.memory, k, BlockedIndeterminate)
  {
    if outcome != Delivered { QueueStep(c, v, k, Becomes(outcome, true).value, s.q.memory); }
    Requeued(s.q.memory, Concluded(c, v, k).q.memory, k);
    hide Left, Step;
  }

  lemma AnsweredStep(c: Config, s: State, k: Key, outcome: Outcome)
    requires Calling(c, s, k, true)
    ensures var t := Answered(c, s, k, outcome, Saved);
      && t.up && t.q == s.q && t.jdisk == t.jmem && SparesAll(s.jmem, t.jmem, {k})
      && t.crossed == s.crossed + (if outcome == Delivered || outcome == Failed(true) then multiset{k} else multiset{})
      && (match Recorded(outcome) case Some(mark) => OnRecord(t.jmem, k, mark) case None => k !in t.jmem)
      && t.attempts - {k.session} == s.attempts - {k.session}
      && (if outcome == Delivered then k.session !in t.attempts
          else k.session in t.attempts && t.attempts[k.session] == Attempt(k, true, Settling(Becomes(outcome, true).value)))
  {
    AnswerStep(c, s, k, true, outcome);
    var u := Step(c, s, Proceed(k.session, AdapterReturns(outcome)));
    SettleStep(c, u, k, true, outcome);
    assert u.attempts - {k.session} == s.attempts - {k.session};
    assert Attempts(u, k, true, Becomes(outcome, true)) - {k.session} == u.attempts - {k.session};
    hide Step, OnRecord, SparesAll, Calling, Settleable, Recorded;
  }

  lemma Requeued(before: Option<Queue>, after: Option<Queue>, k: Key)
    requires before.Some? && k in before.value.items && before.value.items[k].status == Queued
    ensures Left(before, after, k, Queued) ==> after == before
  {
    if Left(before, after, k, Queued) {
      var b, a := before.value, after.value;
      assert b.items[k].(status := Queued) == b.items[k];
      assert a.items == b.items;
      assert a == b;
    }
  }

  /** When the settling write fails, the prompt is never given back or taken for
      done: its item is blocked as indeterminate, and its record still says
      dispatching, which the next start turns into indeterminate. */
  lemma UnsavedOutcome(c: Config, s: State, k: Key, prompt: Text, victim: Key, outcome: Outcome)
    requires Startable(c, s, k, prompt, victim)
    ensures var t := Whole(c, s, k, prompt, victim, outcome, NotWritten);
      && t.attempts == s.attempts && OnRecord(t.jmem, k, Mark.Dispatching) && t.jdisk == t.jmem
      && OnRecord(RecoveredAll(t.jdisk), k, Mark.Indeterminate)
      && Left(s.q.memory, t.q.memory, k, BlockedIndeterminate)
  {
    SentStep(c, s, k, prompt, victim);
    var t := Sent(c, s, k, prompt, victim);
    AnswerStep(c, t, k, true, outcome);
    var u := Step(c, t, Proceed(k.session, AdapterReturns(outcome)));
    SettleFails(c, u, k, outcome);
    var v := Step(c, u, Proceed(k.session, Settle(2, NotWritten)));
    assert v.attempts - {k.session} == t.attempts - {k.session};
    hide Step, Sent, Startable, Calling, SparesAll, ValidIds;
    QueueStep(c, v, k, Doubt, s.q.memory);
    hide Left;
  }

  /** When the mark cannot be made, nothing is sent and the item is in doubt. */
  lemma UnmarkedOutcome(c: Config, s: State, k: Key, prompt: Text, victim: Key)
    requires s.up && k.session in s.attempts && s.attempts[k.session] == Attempt(k, true, Preparing) && !Markable(c.rules, c.max, s.jmem, k)
    requires s.q.memory.Some? && k in s.q.memory.value.items && s.q.memory.value.items[k].status == Running
    ensures var t := Concluded(c, Step(c, s, Proceed(k.session, MarkDispatching(prompt, victim, 1, Saved))), k);
      && t.jmem == s.jmem && t.jdisk == s.jdisk && t.crossed == s.crossed && t.attempts == s.attempts - {k.session}
      && Left(s.q.memory, t.q.memory, k, BlockedIndeterminate)
  {
    MarkExact(c.rules, c.max, s.jmem, k, prompt);
    var t := Step(c, s, Proceed(k.session, MarkDispatching(prompt, victim, 1, Saved)));
    assert t == s.(attempts := s.attempts[k.session := Attempt(k, true, Settling(Doubt))]) by { hide Markable, CanWrite; }
    assert s.q.memory.value.items[k := s.q.memory.value.items[k].(status := Running)] == s.q.memory.value.items;
    QueueStep(c, t, k, Doubt, s.q.memory);
    hide Step, Left, Markable, CanWrite;
  }

  /** The direct path: no queue item is involved, and the record says what
      happened or is gone again. */
  lemma DirectOutcome(c: Config, s: State, k: Key, prompt: Text, victim: Key, outcome: Outcome)
    requires s.up && !Locked(s, k.session) && (s.q.memory.Some? ==> k !in s.q.memory.value.items)
    requires CanWrite(c.rules, c.max, s.jmem, JournalOp.Dispatch(k, prompt, victim))
    ensures var t := Answered(c, Step(c, s, ArriveDirect(k, prompt, victim, 1, Saved)), k, outcome, Saved);
      && t.up && t.attempts == s.attempts && t.q == s.q && SparesAll(s.jmem, t.jmem, Touched(c, s, k, victim)) && t.jdisk == t.jmem
      && t.crossed == s.crossed + (if outcome == Delivered || outcome == Failed(true) then multiset{k} else multiset{})
      && match outcome
         case Delivered => OnRecord(t.jmem, k, Mark.Accepted)
         case Failed(_) => OnRecord(t.jmem, k, Mark.Indeterminate)
         case _ => k !in t.jmem
  {
    DirectStep(c, s, k, prompt, victim);
    var t := Step(c, s, ArriveDirect(k, prompt, victim, 1, Saved));
    hide Step, OnRecord, Calling, Answered, CanWrite;
    DirectAnswered(c, t, k, outcome);
  }

  lemma DirectAnswered(c: Config, s: State, k: Key, outcome: Outcome)
    requires Calling(c, s, k, false)
    ensures var t := Answered(c, s, k, outcome, Saved);
      && t.up && t.q == s.q && t.jdisk == t.jmem && SparesAll(s.jmem, t.jmem, {k}) && t.attempts == s.attempts - {k.session}
      && t.crossed == s.crossed + (if outcome == Delivered || outcome == Failed(true) then multiset{k} else multiset{})
      && (match Recorded(outcome) case Some(mark) => OnRecord(t.jmem, k, mark) case None => k !in t.jmem)
  {
    AnswerStep(c, s, k, false, outcome);
    var u := Step(c, s, Proceed(k.session, AdapterReturns(outcome)));
    SettleStep(c, u, k, false, outcome);
    assert u.attempts - {k.session} == s.attempts - {k.session};
    hide Step, OnRecord, SparesAll, Calling, Settleable, Recorded;
  }

  lemma DirectStep(c: Config, s: State, k: Key, prompt: Text, victim: Key)
    requires s.up && !Locked(s, k.session) && (s.q.memory.Some? ==> k !in s.q.memory.value.items)
    requires CanWrite(c.rules, c.max, s.jmem, JournalOp.Dispatch(k, prompt, victim))
    ensures var t := Step(c, s, ArriveDirect(k, prompt, victim, 1, Saved));
      && Calling(c, t, k, false) && t.q == s.q && t.jdisk == t.jmem && t.crossed == s.crossed
      && SparesAll(s.jmem, t.jmem, Touched(c, s, k, victim)) && t.attempts - {k.session} == s.attempts
  {
    var op := JournalOp.Dispatch(k, prompt, victim);
    WriteOutcome(c.rules, c.max, s.jmem, op, 1);
    assert OnRecord(Written(c.rules, c.max, s.jmem, op, 1), k, Mark.Dispatching);
    assert ValidIds(c.rules, k);
    hide Written, CanWrite, OnRecord, SparesAll, ValidIds;
  }

  /** A session in which a prompt waits and nothing runs or blocks can always
      start its next one, if the journal has room or a committed record to evict. */
  lemma CanStart(c: Config, s: State, session: Text, prompt: Text) returns (k: Key, victim: Key)
    requires s.up && !Locked(s, session) && s.q.memory.Some? && Valid(c.rules, s.q.memory.value)
    requires Claimable(s.q.memory.value.items, session)
    requires forall j :: j in s.q.memory.value.items && j.session == session ==> Markable(c.rules, c.max, s.jmem, j)
    ensures k.session == session && Startable(c, s, k, prompt, victim) && s.q.memory.value.items[k].status == Queued
  {
    k := FirstClaim(c.rules, s.q.memory.value, session);
    assert k in s.q.memory.value.items && s.q.memory.value.items[k].Name() == k;
    MarkExact(c.rules, c.max, s.jmem, k, prompt);
    hide Valid, Claimable, Markable, CanWrite;
    victim :| CanWrite(c.rules, c.max, s.jmem, JournalOp.Dispatch(k, prompt, victim));
  }

  /** A prompt that arrives for an unlocked session, unknown to journal and queue
      and admissible, waits as the last of its session; any other changes nothing. */
  lemma ArrivalOutcome(c: Config, s: State, item: Item, now: int)
    requires s.up && s.q.memory.Some? && Valid(c.rules, s.q.memory.value)
    ensures var t, q := Step(c, s, Arrive(item, now, Saved)), s.q.memory.value;
      && t.jmem == s.jmem && t.attempts == s.attempts && t.crossed == s.crossed
      && if !Locked(s, item.session) && item.Name() !in s.jmem && Enabled(c.rules, q, Enqueue(item, now))
         then && t.q.memory.Some? && t.q.disk == t.q.memory.value && Spares(q.items, t.q.memory.value.items, item.Name())
              && item.Name() !in q.items && item.Name() in t.q.memory.value.items
              && t.q.memory.value.items[item.Name()] == item.(order := q.nextId + 1, createdAt := now, status := Queued)
         else t.q.memory == s.q.memory && t.q.disk == s.q.disk
  {
    if Enabled(c.rules, s.q.memory.value, Enqueue(item, now)) { EnqueueOutcome(c.rules, s.q.memory.value, item, now); }
    hide Enabled, Next, Spares, Valid;
    ArrivalStep(c, s, item, now);
    hide Step;
  }

  lemma ArrivalStep(c: Config, s: State, item: Item, now: int)
    requires s.up && s.q.memory.Some?
    ensures var t, q := Step(c, s, Arrive(item, now, Saved)), s.q.memory.value;
      && t.jmem == s.jmem && t.attempts == s.attempts && t.crossed == s.crossed
      && if !Locked(s, item.session) && item.Name() !in s.jmem && Enabled(c.rules, q, Enqueue(item, now))
         then t.q.memory == Some(Next(c.rules, q, Enqueue(item, now))) && t.q.disk == t.q.memory.value
         else t.q.memory == s.q.memory && t.q.disk == s.q.disk
  {
    hide Enabled, Next;
  }

  /** Phone commands wait for the session's dispatch; terminal events do not; and
      no queue operation but those comes from outside. */
  lemma ControlOutcome(c: Config, s: State, op: Op)
    requires s.up && s.q.memory.Some? && Enabled(c.rules, s.q.memory.value, op)
    ensures var t := Step(c, s, Control(op, Saved));
      var done := Some(Next(c.rules, s.q.memory.value, op));
      && t.jmem == s.jmem && t.attempts == s.attempts && t.crossed == s.crossed
      && t.q.memory == match op
           case Complete(_) => done
           case Block(_, _) => done
           case Cancel(k) => if k.session in s.attempts then s.q.memory else done
           case Skip(k) => if k.session in s.attempts then s.q.memory else done
           case Resume(session) => if session in s.attempts then s.q.memory else done
           case _ => s.q.memory
  {
    hide Enabled, Next;
  }

  /** What a write does to memory and file: both when it is saved, neither when it
      is not written, and the file alone when it fails after the rename. */
  lemma PersistOutcome(c: Config, s: State, op: Op, jop: JournalOp, now: int, p: Persist)
    requires s.q.memory.Some? && Enabled(c.rules, s.q.memory.value, op) && CanWrite(c.rules, c.max, s.jmem, jop)
    ensures var t, next := WriteQueue(c, s, op, p).q, Next(c.rules, s.q.memory.value, op);
      match p
      case Saved => t.memory == Some(next) && t.disk == next
      case NotWritten => t.memory == s.q.memory && t.disk == s.q.disk
      case WrittenButFailed => t.memory == s.q.memory && t.disk == next
    ensures var t, next := WriteJournal(c, s, jop, now, p), Written(c.rules, c.max, s.jmem, jop, now);
      match p
      case Saved => t.jmem == next && t.jdisk == next
      case NotWritten => t.jmem == s.jmem && t.jdisk == s.jdisk
      case WrittenButFailed => t.jmem == s.jmem && t.jdisk == next
  {
    hide Enabled, Next, CanWrite, Written;
  }

  /** A start that cannot write the normalized journal stays down, and a process
      that is down does nothing but start again. */
  lemma StaysDown(c: Config, s: State, jp: Persist, queue: Q.Event, e: Event)
    requires jp != Saved && (exists k :: k in s.jdisk && s.jdisk[k].mark == Mark.Dispatching)
    ensures var t := Step(c, s, Crash(jp, queue)); !t.up && (!e.Crash? ==> Step(c, t, e) == t)
  {
    var k :| k in s.jdisk && s.jdisk[k].mark == Mark.Dispatching;
    assert RecoveredAll(s.jdisk)[k] != s.jdisk[k];
    hide RecoveredAll, Q.Step;
  }

  /** A restart ends every dispatch. What the journal file had as dispatching is
      indeterminate, what the queue file had as running is blocked so, and
      everything else is as it was on file. */
  lemma RestartedDispatch(c: Config, s: State)
    ensures var t := Step(c, s, Crash(Saved, Q.Restart(Saved)));
      && t.up && t.attempts == map[] && t.crossed == s.crossed && t.jdisk == t.jmem && t.jmem.Keys == s.jdisk.Keys
      && t.q.memory.Some? && t.q.disk == t.q.memory.value && t.q.disk.items.Keys == s.q.disk.items.Keys
      && (forall k :: k in s.jdisk ==>
            t.jmem[k] == if s.jdisk[k].mark == Mark.Dispatching then s.jdisk[k].(mark := Mark.Indeterminate) else s.jdisk[k])
      && (forall k :: k in s.q.disk.items ==>
            if s.q.disk.items[k].status == Running then Moves(s.q.disk.items, t.q.disk.items, k, BlockedIndeterminate)
            else t.q.disk.items[k] == s.q.disk.items[k])
  {
    RecoveredOutcome(s.jdisk);
    RestartOutcome(s.q.disk);
    hide RecoveredAll, Restarted, Moves;
  }
}
