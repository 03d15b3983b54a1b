/** Crash recovery of the Codex app-server, daemon/internal/adapters/codex.go:
    handleAppServerExit, recoverAppServer and Close, interleaved at every
    critical section of recoveryMu. Delays are in milliseconds. */
module Recovery {
  import opened Durable

  const Attempts: nat := 5
  const BaseWait: nat := 250
  const MaxWait: nat := 4000
  const MaxBackoff: nat := 7750

  function Doubled(delay: nat): nat {
    if delay < MaxWait then (if delay * 2 > MaxWait then MaxWait else delay * 2) else delay
  }

  /** Where a recovery goroutine is. readAt is when it read the crash serial and
      began when its ensure began. */
  datatype Phase =
    | Top
    | Sleeping
    | Slept
    | Ready(serial: nat, readAt: nat)
    | Ensuring(serial: nat, began: nat)
    | Ensured(serial: nat, began: nat, ok: bool)

  datatype Loop = Loop(attempt: nat, delay: nat, waited: nat, phase: Phase)

  /** clock counts steps. crashed is the time of the last app-server exit, ensured
      the start of the last ensure of a recovery that succeeded. */
  datatype State = State(
    running: bool, degraded: bool, closed: bool, serial: nat,
    loops: map<nat, Loop>, made: nat,
    clock: nat, crashed: Option<nat>, ensured: Option<nat>)

  datatype Event =
    | Exit
    | Close
    | CheckClosed(loop: nat)
    | Sleep(loop: nat, elapsed: bool)
    | ReadSerial(loop: nat)
    | BeginEnsure(loop: nat)
    | EndEnsure(loop: nat, ok: bool)
    | Conclude(loop: nat)

  function Initial(): State { State(false, false, false, 0, map[], 0, 0, None, None) }

  /** handleAppServerExit. */
  function Exited(s: State): State {
    var s' := s.(crashed := Some(s.clock));
    if s.closed then s'
    else if s.running then s'.(serial := s.serial + 1)
    else s'.(serial := s.serial + 1, running := true, degraded := true, loops := s.loops[s.made := Loop(1, BaseWait, 0, Top)], made := s.made + 1)
  }

  function Stopped(s: State, l: nat): State { s.(running := false, loops := s.loops - {l}) }

  function Moved(s: State, l: nat, phase: Phase): State
    requires l in s.loops
  {
    s.(loops := s.loops[l := s.loops[l].(phase := phase)])
  }

  /** The end of one attempt: recovered, another attempt, or exhausted. */
  function Concluded(s: State, l: nat): State
    requires l in s.loops && s.loops[l].phase.Ensured?
  {
    var loop := s.loops[l];
    if loop.phase.ok && s.serial == loop.phase.serial && !s.closed then Stopped(s, l).(degraded := false)
    else if loop.attempt < Attempts then
      s.(loops := s.loops[l := Loop(loop.attempt + 1, Doubled(loop.delay), loop.waited, Top)])
    else Stopped(s, l).(degraded := true)
  }

  predicate InTop(s: State, l: nat) { l in s.loops && s.loops[l].phase.Top? }
  predicate InSleeping(s: State, l: nat) { l in s.loops && s.loops[l].phase.Sleeping? }
  predicate InSlept(s: State, l: nat) { l in s.loops && s.loops[l].phase.Slept? }
  predicate InReady(s: State, l: nat) { l in s.loops && s.loops[l].phase.Ready? }
  predicate InEnsuring(s: State, l: nat) { l in s.loops && s.loops[l].phase.Ensuring? }
  predicate InEnsured(s: State, l: nat) { l in s.loops && s.loops[l].phase.Ensured? }

  function Act(s: State, e: Event): State {
    match e
    case Exit => Exited(s)
    case Close => s.(closed := true)
    case CheckClosed(l) =>
      if !InTop(s, l) then s else if s.closed then Stopped(s, l) else Moved(s, l, Sleeping)
    case Sleep(l, elapsed) =>
      if !InSleeping(s, l) then s
      else if !elapsed then Stopped(s, l)
      else s.(loops := s.loops[l := s.loops[l].(phase := Slept, waited := s.loops[l].waited + s.loops[l].delay)])
    case ReadSerial(l) => if InSlept(s, l) then Moved(s, l, Ready(s.serial, s.clock)) else s
    case BeginEnsure(l) =>
      if InReady(s, l) then Moved(s, l, Ensuring(s.loops[l].phase.serial, s.clock)) else s
    case EndEnsure(l, ok) =>
      if !InEnsuring(s, l) then s
      else Moved(s, l, Ensured(s.loops[l].phase.serial, s.loops[l].phase.began, ok)).(
             ensured := if ok then Some(s.loops[l].phase.began) else s.ensured)
    case Conclude(l) => if InEnsured(s, l) then Concluded(s, l) else s
  }

  function Step(s: State, e: Event): State { Act(s, e).(clock := s.clock + 1) }

  function Run(s: State, es: seq<Event>): State
    decreases |es|
  {
    if es == [] then s else Run(Step(s, es[0]), es[1..])
  }

  predicate Earlier(crashed: Option<nat>, t: nat) { crashed.Some? ==> crashed.value < t }

  /** A serial that still stands was read after the last exit. */
  predicate Current(s: State, p: Phase) {
    match p
    case Ready(serial, readAt) => serial == s.serial && !s.closed ==> Earlier(s.crashed, readAt)
    case Ensuring(serial, began) => serial == s.serial && !s.closed ==> Earlier(s.crashed, began)
    case Ensured(serial, began, ok) =>
      (serial == s.serial && !s.closed ==> Earlier(s.crashed, began)) && (ok ==> s.ensured == Some(began))
    case Top => true
    case Sleeping => true
    case Slept => true
  }

  predicate Stamped(s: State, p: Phase) {
    match p
    case Ready(serial, readAt) => serial <= s.serial && readAt < s.clock
    case Ensuring(serial, began) => serial <= s.serial && began < s.clock
    case Ensured(serial, began, _) => serial <= s.serial && began < s.clock
    case Top => true
    case Sleeping => true
    case Slept => true
  }

  /** The delay of an attempt and what was waited before it. */
  function DelayOf(attempt: nat): nat
    requires attempt >= 1
  {
    if attempt == 1 then BaseWait else Doubled(DelayOf(attempt - 1))
  }

  function WaitedBefore(attempt: nat): nat
    requires attempt >= 1
  {
    if attempt == 1 then 0 else WaitedBefore(attempt - 1) + DelayOf(attempt - 1)
  }

  predicate Paced(l: Loop) {
    && 1 <= l.attempt <= Attempts && l.delay == DelayOf(l.attempt)
    && l.waited == WaitedBefore(l.attempt) + if l.phase.Top? || l.phase.Sleeping? then 0 else l.delay
  }

  ghost predicate Loops(s: State) {
    && (forall l :: l in s.loops ==> l < s.made && Paced(s.loops[l]) && Current(s, s.loops[l].phase) && Stamped(s, s.loops[l].phase))
    && (forall l, m :: l in s.loops && m in s.loops ==> l == m)
    && (s.running <==> exists l :: l in s.loops)
  }

  ghost predicate Health(s: State) {
    && Earlier(s.crashed, s.clock) && (s.running ==> s.degraded)
    && (!s.degraded && !s.closed ==> s.crashed.None? || (s.ensured.Some? && s.crashed.value < s.ensured.value))
  }

  ghost predicate Inv(s: State) { Loops(s) && Health(s) }

  /** A step of one goroutine that stays in its loop. */
  lemma MoveInv(s: State, s': State, l: nat)
    requires Inv(s) && l in s.loops && l in s'.loops && s'.loops == s.loops[l := s'.loops[l]]
    requires s' == s.(loops := s'.loops, clock := s.clock + 1, ensured := s'.ensured)
    requires Paced(s'.loops[l]) && Current(s', s'.loops[l].phase) && Stamped(s', s'.loops[l].phase)
    ensures Inv(s')
  {
    assert forall m :: m in s.loops ==> m == l;
    hide Paced, Current, Stamped;
  }

  lemma StopInv(s: State, l: nat, degraded: bool)
    requires Inv(s) && l in s.loops
    requires !degraded && !s.closed ==> s.crashed.None? || (s.ensured.Some? && s.crashed.value < s.ensured.value)
    ensures Inv(Stopped(s, l).(degraded := degraded, clock := s.clock + 1))
  {
    assert forall m :: m in s.loops ==> m == l;
    hide Paced, Current, Stamped;
  }

  lemma ExitStart(s: State)
    requires Inv(s) && !s.closed && !s.running
    ensures Inv(Step(s, Exit))
  {
    var s' := Step(s, Exit);
    assert s'.loops[s.made] == Loop(1, BaseWait, 0, Top);
    assert forall l :: l !in s.loops;
    assert Health(s');
    assert forall l :: l in s'.loops <==> l == s.made;
    assert Paced(s'.loops[s.made]) && Current(s', Top) && Stamped(s', Top);
    hide Paced, Current, Stamped;
  }

  /** An exit outdates every serial that a goroutine holds. */
  lemma ExitDuring(s: State)
    requires Inv(s) && (s.closed || s.running)
    ensures Inv(Step(s, Exit))
  {
    var s' := Step(s, Exit);
    forall l | l in s.loops ensures Current(s', s'.loops[l].phase) && Stamped(s', s'.loops[l].phase) {
      assert Stamped(s, s.loops[l].phase) && Current(s, s.loops[l].phase);
    }
    hide Paced, Current, Stamped;
  }

  lemma CloseInv(s: State)
    requires Inv(s)
    ensures Inv(Step(s, Close))
  {
    var s' := Step(s, Close);
    forall l | l in s.loops ensures Current(s', s'.loops[l].phase) && Stamped(s', s'.loops[l].phase) {
      assert Stamped(s, s.loops[l].phase) && Current(s, s.loops[l].phase);
    }
    hide Paced, Current, Stamped;
  }

  lemma Idle(s: State)
    requires Inv(s)
    ensures Inv(s.(clock := s.clock + 1))
  {
    var s' := s.(clock := s.clock + 1);
    forall l | l in s.loops ensures Current(s', s'.loops[l].phase) && Stamped(s', s'.loops[l].phase) {
      assert Stamped(s, s.loops[l].phase) && Current(s, s.loops[l].phase);
    }
    hide Paced, Current, Stamped;
  }

  lemma ConcludeInv(s: State, l: nat)
    requires Inv(s) && InEnsured(s, l)
    ensures Inv(Step(s, Conclude(l)))
  {
    var loop := s.loops[l];
    assert Current(s, loop.phase) && Paced(loop) && s.running;
    hide Loops, Health;
    if loop.phase.ok && s.serial == loop.phase.serial && !s.closed {
      StopInv(s, l, false);
    } else if loop.attempt < Attempts {
      MoveInv(s, Step(s, Conclude(l)), l);
    } else {
      StopInv(s, l, true);
    }
  }

  lemma WaitInv(s: State, e: Event)
    requires Inv(s) && (e.CheckClosed? || e.Sleep?)
    ensures Inv(Step(s, e))
  {
    var l := e.loop;
    if l in s.loops {
      assert Paced(s.loops[l]) && s.degraded;
      hide Loops, Health;
      Idle(s);
      StopInv(s, l, true);
      if l in Act(s, e).loops && Act(s, e) != s { MoveInv(s, Step(s, e), l); }
    } else {
      Idle(s);
    }
  }

  lemma EnsureInv(s: State, e: Event)
    requires Inv(s) && (e.ReadSerial? || e.BeginEnsure? || e.EndEnsure?)
    ensures Inv(Step(s, e))
  {
    var l := e.loop;
    Idle(s);
    if l in s.loops && Act(s, e) != s {
      assert Paced(s.loops[l]) && Current(s, s.loops[l].phase) && Stamped(s, s.loops[l].phase) && Earlier(s.crashed, s.clock);
      hide Loops, Health;
      MoveInv(s, Step(s, e), l);
    }
  }

  lemma StepInv(s: State, e: Event)
    requires Inv(s)
    ensures Inv(Step(s, e))
  {
    hide Inv, Exited, Concluded;
    match e
    case Exit => if s.closed || s.running { ExitDuring(s); } else { ExitStart(s); }
    case Close => CloseInv(s);
    case CheckClosed(_) => WaitInv(s, e);
    case Sleep(_, _) => WaitInv(s, e);
    case ReadSerial(_) => EnsureInv(s, e);
    case BeginEnsure(_) => EnsureInv(s, e);
    case EndEnsure(_, _) => EnsureInv(s, e);
    case Conclude(l) => if InEnsured(s, l) { ConcludeInv(s, l); } else { Idle(s); }
  }

  lemma {:induction false} RunInv(s: State, es: seq<Event>)
    requires Inv(s)
    ensures Inv(Run(s, es))
    decreases |es|
  {
    hide Inv, Step;
    if es != [] {
      StepInv(s, es[0]);
      RunInv(Step(s, es[0]), es[1..]);
    }
  }

  /** No crash is lost: before Close the adapter counts as healthy only if the
      app-server never exited, or the last ensure that succeeded began after the
      last exit. */
  lemma NoCrashLost(es: seq<Event>)
    ensures var s := Run(Initial(), es);
      !s.degraded && !s.closed ==> s.crashed.None? || (s.ensured.Some? && s.ensured.value > s.crashed.value)
  {
    RunInv(Initial(), es);
  }

  /** The waits are 0.25, 0.5, 1, 2 and 4 s. */
  lemma {:induction false} Backoff(attempt: nat)
    requires 1 <= attempt <= Attempts
    ensures DelayOf(attempt) <= MaxWait && WaitedBefore(attempt) + DelayOf(attempt) <= MaxBackoff
    ensures DelayOf(1) == 250 && DelayOf(2) == 500 && DelayOf(3) == 1000 && DelayOf(4) == 2000 && DelayOf(5) == 4000
    ensures WaitedBefore(5) + DelayOf(5) == 7750
  {
    assert DelayOf(1) == 250 && DelayOf(2) == 500 && DelayOf(3) == 1000;
    assert DelayOf(4) == 2000 && DelayOf(5) == 4000;
    assert WaitedBefore(1) == 0 && WaitedBefore(2) == 250 && WaitedBefore(3) == 750;
    assert WaitedBefore(4) == 1750 && WaitedBefore(5) == 3750;
  }

  /** There is one recovery goroutine exactly while recoveryRunning is set, and
      it makes at most five attempts and waits at most 7.75 s in all. */
  lemma OneBoundedRecovery(es: seq<Event>)
    ensures var s := Run(Initial(), es);
      && (s.running <==> exists l :: l in s.loops)
      && (forall l, m :: l in s.loops && m in s.loops ==> l == m)
      && (forall l :: l in s.loops ==> s.loops[l].attempt <= 5 && s.loops[l].waited <= 7750)
  {
    RunInv(Initial(), es);
    var s := Run(Initial(), es);
    forall l | l in s.loops ensures s.loops[l].attempt <= 5 && s.loops[l].waited <= 7750 {
      assert Paced(s.loops[l]);
      Backoff(s.loops[l].attempt);
    }
  }

  /** Every exit before Close is answered: a recovery is running afterwards,
      whether it was already or has just been started. */
  lemma ExitIsAnswered(es: seq<Event>)
    requires !Run(Initial(), es).closed
    ensures var s, t := Run(Initial(), es), Step(Run(Initial(), es), Exit);
      && t.running && t.degraded && t.serial == s.serial + 1
      && if s.running then t.loops == s.loops else t.loops == s.loops[s.made := Loop(1, 250, 0, Top)]
  {
    RunInv(Initial(), es);
  }

  /** One attempt of loop l in which ensure succeeds. */
  function Attempted(s: State, l: nat): State {
    Step(Step(Step(Step(Step(Step(s, CheckClosed(l)), Sleep(l, true)), ReadSerial(l)), BeginEnsure(l)), EndEnsure(l, true)), Conclude(l))
  }

  /** An attempt that nothing disturbs ends the recovery and heals the adapter. */
  lemma AttemptHeals(s: State, l: nat)
    requires InTop(s, l) && !s.closed
    ensures var t := Attempted(s, l); !t.degraded && !t.running && t.loops == s.loops - {l}
  {
  }

  /** An attempt that ends without success is followed by the next, with its own
      wait, and the last one leaves the adapter degraded. */
  lemma ConcludeExact(es: seq<Event>, l: nat)
    requires InEnsured(Run(Initial(), es), l)
    ensures var s, t := Run(Initial(), es), Step(Run(Initial(), es), Conclude(l));
      var loop := s.loops[l];
      if loop.phase.ok && loop.phase.serial == s.serial && !s.closed
      then !t.running && !t.degraded && t.loops == map[]
      else if loop.attempt < 5
      then t.running && t.degraded && t.loops == map[l := Loop(loop.attempt + 1, DelayOf(loop.attempt + 1), loop.waited, Top)]
      else !t.running && t.degraded && t.loops == map[] && loop.waited == 7750
  {
    RunInv(Initial(), es);
    var s := Run(Initial(), es);
    Backoff(s.loops[l].attempt);
    assert Paced(s.loops[l]);
    assert forall m :: m in s.loops <==> m == l;
    assert s.loops == map[l := s.loops[l]];
    assert s.running;
  }

  /** What happens around one attempt: Close before it, whether the sleep ran to
      its end, how ensure ended, the exits during it and Close during it. */
  datatype Around = Around(closed: bool, slept: bool, ensured: bool, exits: nat, closing: bool)

  datatype End = Recovered | Interrupted | Exhausted

  /** How an attempt ends the loop, if it does; shut says that Close came earlier. */
  function Verdict(a: Around, shut: bool): Option<End> {
    if shut || a.closed || !a.slept then Some(Interrupted)
    else if a.ensured && a.exits == 0 && !a.closing then Some(Recovered)
    else None
  }

  function ShutBefore(around: seq<Around>, n: nat, shut: bool): bool
    requires n <= |around|
  {
    if n == 0 then shut else ShutBefore(around, n - 1, shut) || around[n - 1].closed || around[n - 1].closing
  }

  /** None of the first n attempts ends the loop. */
  predicate Indecisive(around: seq<Around>, n: nat, shut: bool)
    requires n <= |around|
  {
    forall i :: 0 <= i < n ==> Verdict(around[i], ShutBefore(around, i, shut)) == None
  }

  lemma NextIndecisive(around: seq<Around>, n: nat, shut: bool)
    requires n < |around| && Indecisive(around, n, shut)
    ensures Indecisive(around, n + 1, shut) <==> Verdict(around[n], ShutBefore(around, n, shut)) == None
  {
  }

  class Recoverer {
    var running: bool
    var degraded: bool
    var closed: bool
    var serial: nat

    /** One attempt: the check for Close, the sleep, ensure, and the check that
        no exit came in between. */
    method Attempt(a: Around) returns (verdict: Option<End>, slept: bool)
      requires running && degraded
      modifies this
      ensures verdict == Verdict(a, old(closed)) && closed == (old(closed) || a.closed || (slept && a.closing))
      ensures slept <==> a.slept && !old(closed) && !a.closed
      ensures running == verdict.None? && degraded == (verdict != Some(Recovered))
    {
      closed := closed || a.closed;
      if closed || !a.slept {
        running := false;
        return Some(Interrupted), false;
      }
      var crashSerial := serial;
      serial, closed := serial + a.exits, a.closing;
      if a.ensured && serial == crashSerial && !closed {
        running, degraded := false, false;
        return Some(Recovered), true;
      }
      return None, true;
    }

    /** recoverAppServer alone on its goroutine, given what the others do. The
        first attempt with a verdict ends it, and five attempts without one
        leave the adapter degraded. */
    method RecoverAppServer(around: seq<Around>) returns (end: End, attempts: nat, waited: nat)
      requires |around| == Attempts && running && degraded
      modifies this
      ensures 1 <= attempts <= Attempts && waited <= MaxBackoff && (end.Exhausted? ==> waited == 7750)
      ensures Indecisive(around, attempts - 1, old(closed))
      ensures Verdict(around[attempts - 1], ShutBefore(around, attempts - 1, old(closed))) == if end.Exhausted? then None else Some(end)
      ensures end.Exhausted? ==> attempts == Attempts
      ensures !running && degraded == !end.Recovered?
    {
      var delay := BaseWait;
      var attempt := 1;
      waited := 0;
      while attempt <= Attempts
        invariant 1 <= attempt <= Attempts + 1 && running && degraded
        invariant delay == DelayOf(attempt) && waited == WaitedBefore(attempt)
        invariant closed == ShutBefore(around, attempt - 1, old(closed))
        invariant Indecisive(around, attempt - 1, old(closed))
        invariant attempt > 1 ==> waited <= MaxBackoff
        invariant attempt == 6 ==> waited == 7750
      {
        Backoff(attempt);
        NextIndecisive(around, attempt - 1, old(closed));
        hide Indecisive, Verdict, DelayOf, WaitedBefore;
        var verdict, slept := Attempt(around[attempt - 1]);
        if slept { waited := waited + delay; }
        if verdict.Some? {
          return verdict.value, attempt, waited;
        }
        if delay < MaxWait {
          delay := delay * 2;
          if delay > MaxWait { delay := MaxWait; }
        }
        attempt := attempt + 1;
      }
      running, degraded := false, true;
      return Exhausted, Attempts, waited;
    }
  }
}
