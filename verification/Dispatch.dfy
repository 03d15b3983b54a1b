/** The join of journal, queue and native boundary: the send_prompt and
    prompt_committed cases, dispatchQueued and dispatchQueuedPrompt of
    daemon/cmd/daemon/main.go, with crashes and failed writes. */
module Dispatch {
  import opened Durable
  import opened QueueModel
  import opened JournalModel
  import Q = QueueRuns

  /** How the adapter call ends. Conflict means that the turn registry refused
      the binding, so the adapter was not called; a failed call may have crossed. */
  datatype Outcome = Delivered | Busy | NotStarted | Conflict | Failed(crossed: bool)
  {
    predicate Crosses() { Delivered? || (Failed? && crossed) }
    predicate BeforeBoundary() { Busy? || NotStarted? || Conflict? }
  }

  /** What is left to do to the queue item once the journal is settled. */
  datatype Verdict = GiveBack | Fail | Doubt

  datatype Stage =
    | Preparing                 // the queue item is running, the journal is not yet written
    | Sending                   // the journal says dispatching, the adapter has not returned
    | Returned(outcome: Outcome)
    | Unsure                    // direct path: the rollback failed, the doubt is still to be recorded
    | Settling(verdict: Verdict)

  /** A dispatch under the session lock; queued tells the two code paths apart. */
  datatype Attempt = Attempt(key: Key, queued: bool, stage: Stage)

  /** crossed counts native executions; evicted counts journal writes that
      reached the file without a record that memory still held as committed. */
  datatype State = State(up: bool, jmem: Records, jdisk: Records, q: Q.State,
                         attempts: map<Text, Attempt>, crossed: multiset<Key>, evicted: multiset<Key>)

  datatype Config = Config(rules: Rules, max: nat)

  /** Progress of the attempt that holds a session's lock. */
  datatype Move =
    | PrepareFails
    | MarkDispatching(prompt: Text, victim: Key, now: int, p: Persist)
    | AdapterReturns(outcome: Outcome)
    | Settle(now: int, p: Persist)
    | SettleQueue(p: Persist)

  datatype Event =
    | Arrive(item: Item, now: int, p: Persist)
    | ArriveDirect(key: Key, prompt: Text, victim: Key, now: int, p: Persist)
    | ClaimNext(key: Key, p: Persist)
    | Proceed(session: Text, move: Move)
    | Control(op: Op, p: Persist)
    | CommitFrame(key: Key, now: int, p: Persist)
    | Crash(jp: Persist, queue: Q.Event)

  function Initial(): State {
    State(true, map[], map[], Q.Initial(), map[], multiset{}, multiset{})
  }

  // ------------------------------------------------------------- primitives

  predicate Locked(s: State, session: Text) { session in s.attempts }

  ghost function WriteJournal(c: Config, s: State, op: JournalOp, now: int, p: Persist): State {
    if !CanWrite(c.rules, c.max, s.jmem, op) then s
    else
      var next := Written(c.rules, c.max, s.jmem, op, now);
      s.(jmem := Exposed(s.jmem, next, p), jdisk := OnDisk(s.jdisk, next, p),
         evicted := if op.Dispatch? && |s.jmem| >= c.max && !p.NotWritten? then s.evicted + multiset{op.victim} else s.evicted)
  }

  ghost function WriteQueue(c: Config, s: State, op: Op, p: Persist): State {
    s.(q := Q.Step(c.rules, s.q, Q.Do(op, p)))
  }

  function MoveTo(s: State, a: Attempt, stage: Stage): State {
    s.(attempts := s.attempts[a.key.session := a.(stage := stage)])
  }

  function Finish(s: State, session: Text): State {
    s.(attempts := s.attempts - {session})
  }

  ghost predicate CanQueue(c: Config, s: State, op: Op) {
    s.q.memory.Some? && Enabled(c.rules, s.q.memory.value, op)
  }

  // ------------------------------------------------------------- transitions

  /** A prompt that goes to the durable queue (main.go:534-620). */
  ghost function Arrival(c: Config, s: State, item: Item, now: int, p: Persist): State {
    if Locked(s, item.session) || item.Name() in s.jmem then s
    else WriteQueue(c, s, Enqueue(item, now), p)
  }

  /** A prompt that is dispatched at once because the queue cannot take it (main.go:664-668). */
  ghost function DirectArrival(c: Config, s: State, k: Key, prompt: Text, victim: Key, now: int, p: Persist): State {
    if Locked(s, k.session) || (s.q.memory.Some? && k in s.q.memory.value.items)
       || !CanWrite(c.rules, c.max, s.jmem, Dispatch(k, prompt, victim)) then s
    else
      var t := WriteJournal(c, s, Dispatch(k, prompt, victim), now, p);
      if p.Saved? then MoveTo(t, Attempt(k, false, Sending), Sending) else t
  }

  ghost function Claiming(c: Config, s: State, k: Key, p: Persist): State {
    if Locked(s, k.session) || !CanQueue(c, s, Claim(k.session, k)) then s
    else
      var t := WriteQueue(c, s, Claim(k.session, k), p);
      if p.Saved? then MoveTo(t, Attempt(k, true, Preparing), Preparing) else t
  }

  ghost function Marking(c: Config, s: State, a: Attempt, prompt: Text, victim: Key, now: int, p: Persist): State {
    var op := Dispatch(a.key, prompt, victim);
    if a.stage != Preparing then s
    else if CanWrite(c.rules, c.max, s.jmem, op) then
      MoveTo(WriteJournal(c, s, op, now, p), a, if p.Saved? then Sending else Settling(Doubt))
    else if !Markable(c.rules, c.max, s.jmem, a.key) then MoveTo(s, a, Settling(Doubt))
    else s
  }

  function Returning(s: State, a: Attempt, outcome: Outcome): State {
    if a.stage != Sending then s
    else MoveTo(s, a, Returned(outcome)).(crossed := if outcome.Crosses() then s.crossed + multiset{a.key} else s.crossed)
  }

  /** The journal write that follows the adapter's answer. */
  function SettlingOp(a: Attempt): JournalOp {
    if a.stage == Returned(Delivered) then Advance(a.key, Mark.Accepted)
    else if a.stage.Returned? && a.stage.outcome.BeforeBoundary() then Rollback(a.key)
    else Advance(a.key, Mark.Indeterminate)
  }

  /** None when the attempt is over (main.go:716-746 and 2298-2370). */
  function AfterSettling(a: Attempt, ok: bool): Option<Stage> {
    if a.stage.Unsure? then None
    else if a.stage == Returned(Delivered) then
      if ok || !a.queued then None else Some(Settling(Doubt))
    else if a.stage.Returned? && a.stage.outcome.BeforeBoundary() then
      if a.queued then
        Some(Settling(if !ok then Doubt else if a.stage.outcome.NotStarted? then Fail else GiveBack))
      else if ok || a.stage.outcome.Conflict? then None
      else Some(Unsure)
    else if a.queued then Some(Settling(Doubt)) else None
  }

  ghost function SettlingJournal(c: Config, s: State, a: Attempt, now: int, p: Persist): State {
    if !a.stage.Returned? && !a.stage.Unsure? then s
    else
      var ok := CanWrite(c.rules, c.max, s.jmem, SettlingOp(a)) && p.Saved?;
      var t := WriteJournal(c, s, SettlingOp(a), now, p);
      match AfterSettling(a, ok)
      case None => Finish(t, a.key.session)
      case Some(stage) => MoveTo(t, a, stage)
  }

  function VerdictOp(k: Key, v: Verdict): Op {
    match v
    case GiveBack => Release(k)
    case Fail => Block(k, BlockedFailed)
    case Doubt => Block(k, BlockedIndeterminate)
  }

  ghost function SettlingQueue(c: Config, s: State, a: Attempt, p: Persist): State {
    if !a.stage.Settling? then s
    else Finish(WriteQueue(c, s, VerdictOp(a.key, a.stage.verdict), p), a.key.session)
  }

  /** Terminal events may come at any time; phone commands wait for the session lock. */
  ghost function Controlling(c: Config, s: State, op: Op, p: Persist): State {
    var allowed := match op
      case Complete(_) => true
      case Block(_, _) => true
      case Cancel(k) => !Locked(s, k.session)
      case Skip(k) => !Locked(s, k.session)
      case Resume(session) => !Locked(s, session)
      case _ => false;
    if allowed then WriteQueue(c, s, op, p) else s
  }

  /** The process dies and starts again. Without a normalized journal it stays
      down; a queue file that does not load only disables the queue. */
  ghost function Crashing(c: Config, s: State, jp: Persist, queue: Q.Event): State {
    var loaded := RecoveredAll(s.jdisk);
    var ready := loaded == s.jdisk || jp.Saved?;
    State(ready, loaded, if loaded == s.jdisk then s.jdisk else OnDisk(s.jdisk, loaded, jp),
          if ready && !queue.Do? then Q.Step(c.rules, s.q, queue) else s.q.(memory := None),
          map[], s.crossed, s.evicted)
  }

  ghost function Proceeding(c: Config, s: State, a: Attempt, m: Move): State {
    match m
    case PrepareFails => if a.stage == Preparing then MoveTo(s, a, Settling(Doubt)) else s
    case MarkDispatching(prompt, victim, now, p) => Marking(c, s, a, prompt, victim, now, p)
    case AdapterReturns(outcome) => Returning(s, a, outcome)
    case Settle(now, p) => SettlingJournal(c, s, a, now, p)
    case SettleQueue(p) => SettlingQueue(c, s, a, p)
  }

  /** A process that is down only restarts. */
  ghost function Step(c: Config, s: State, e: Event): State {
    match e
    case Crash(jp, queue) => Crashing(c, s, jp, queue)
    case Arrive(item, now, p) => if s.up then Arrival(c, s, item, now, p) else s
    case ArriveDirect(k, prompt, victim, now, p) => if s.up then DirectArrival(c, s, k, prompt, victim, now, p) else s
    case ClaimNext(k, p) => if s.up then Claiming(c, s, k, p) else s
    case Control(op, p) => if s.up then Controlling(c, s, op, p) else s
    case CommitFrame(k, now, p) =>
      if s.up && !Locked(s, k.session) then WriteJournal(c, s, Advance(k, Mark.Committed), now, p) else s
    case Proceed(session, m) => if s.up && session in s.attempts then Proceeding(c, s, s.attempts[session], m) else s
  }

  ghost function Run(c: Config, s: State, es: seq<Event>): State
    decreases |es|
  {
    if es == [] then s else Run(c, Step(c, s, es[0]), es[1..])
  }
}
