/** JSON-RPC calls on the Codex app-server, daemon/internal/agentexec/codex_appserver.go:
    who owns a call's reply channel while responses, timeouts, process exits and
    Close race. Every critical section of c.mu is one step; eventMu is explicit. */
module RpcOwnership {
  import opened Durable

  type Id = nat

  /** Where the caller is: id drawn but not registered, waiting for an answer to
      a request sent to one process generation, or back from the call. */
  datatype Phase = Issued | Waiting(gen: nat) | Returned

  /** What a result was made of: the reply with this id read from a generation,
      or the end of a generation. */
  datatype Source = FromReply(gen: nat, id: Id) | FromFailure(gen: nat)

  /** A call and its channel, which has room for one result; result remembers
      what was last sent on it. */
  datatype Call = Call(phase: Phase, sent: nat, buffered: int, closed: nat, result: Option<Source>)

  /** A loop that answers channels taken out of the pending table: it sends on
      one, closes it, and goes on. */
  datatype Task = Task(source: Source, todo: set<Id>, sent: Option<Id>)

  datatype Frame = ToHandler | Reply(id: Id)

  /** What holds eventMu and how far it has come. */
  datatype Holder =
    | Free
    | Reading(gen: nat, frame: Frame)      // readLoop, before the check
    | Live(gen: nat, frame: Frame)         // readLoop, the generation was current
    | Delivering(gen: nat, task: nat)      // readLoop, answering one channel
    | Exiting(gen: nat)                    // handleProcessExit, before the check
    | Reporting(gen: nat, task: nat)       // handleProcessExit, failing calls, then the exit handler
    | Closing                              // Close

  /** What a generation does to the outside, in the order it happens. */
  datatype Effect = Handled(gen: nat) | Answered(gen: nat) | Invalidated(gen: nat) | Exited(gen: nat)

  datatype State = State(
    generation: nat, running: bool, stopping: bool, process: Option<nat>,
    pending: set<Id>, calls: map<Id, Call>, issued: nat,
    tasks: map<nat, Task>, made: nat,
    event: Holder, log: seq<Effect>)

  datatype Event =
    | Start
    | Issue
    | Register(id: Id, wrote: bool)
    | Timeout(id: Id)
    | Receive(id: Id)
    | LockFrame(gen: nat, frame: Frame)
    | CheckFrame
    | Dispatch
    | EndDelivery
    | LockExit(gen: nat)
    | DecideExit
    | ReportExit
    | LockClose
    | DecideClose
    | SendOne(task: nat, id: Id)
    | CloseOne(task: nat)

  function Initial(): State {
    State(0, false, false, None, {}, map[], 0, map[], 0, Free, [])
  }

  function Started(s: State): State {
    if s.stopping || s.running then s
    else s.(generation := s.generation + 1, running := true, process := Some(s.generation + 1), pending := {})
  }

  function Registered(s: State, id: Id, wrote: bool): State
    requires id in s.calls
  {
    if !s.running || !wrote then s.(calls := s.calls[id := s.calls[id].(phase := Returned)])
    else s.(pending := s.pending + {id}, calls := s.calls[id := s.calls[id].(phase := Waiting(s.generation))])
  }

  function TimedOut(s: State, id: Id): State
    requires id in s.calls
  {
    s.(pending := s.pending - {id}, calls := s.calls[id := s.calls[id].(phase := Returned)])
  }

  function Received(s: State, id: Id): State
    requires id in s.calls
  {
    s.(calls := s.calls[id := s.calls[id].(phase := Returned, buffered := s.calls[id].buffered - 1)])
  }

  /** The reply of a live frame is matched and removed in one critical section. */
  function Dispatched(s: State, gen: nat, frame: Frame): State {
    match frame
    case ToHandler => s.(event := Free, log := s.log + [Handled(gen)])
    case Reply(id) =>
      if !s.running || s.generation != gen || id !in s.pending then s.(event := Free)
      else s.(pending := s.pending - {id}, tasks := s.tasks[s.made := Task(FromReply(gen, id), {id}, None)], made := s.made + 1,
              event := Delivering(gen, s.made), log := s.log + [Answered(gen)])
  }

  /** invalidateProcessStateLocked: the whole table moves to a failing loop. */
  function Invalidate(s: State, next: Holder): State {
    s.(running := false, process := None, pending := {}, tasks := s.tasks[s.made := Task(FromFailure(s.generation), s.pending, None)],
       made := s.made + 1, event := next, log := s.log + [Invalidated(s.generation)])
  }

  function ExitDecided(s: State, gen: nat): State {
    if s.generation != gen || s.process != Some(gen) then s.(event := Free)
    else if s.stopping then Invalidate(s, Free)
    else Invalidate(s, Reporting(gen, s.made))
  }

  function CloseDecided(s: State): State {
    var s' := s.(stopping := true);
    if !s.running && s.process.None? then s'.(event := Free) else Invalidate(s', Free)
  }

  predicate Finished(s: State, task: nat) {
    task in s.tasks && s.tasks[task].todo == {} && s.tasks[task].sent.None?
  }

  predicate CanSend(s: State, task: nat, id: Id) {
    task in s.tasks && id in s.tasks[task].todo && s.tasks[task].sent.None? && id in s.calls
  }

  function Sent(s: State, task: nat, id: Id): State
    requires CanSend(s, task, id)
  {
    s.(tasks := s.tasks[task := s.tasks[task].(todo := s.tasks[task].todo - {id}, sent := Some(id))],
       calls := s.calls[id := s.calls[id].(sent := s.calls[id].sent + 1, buffered := s.calls[id].buffered + 1,
                                           result := Some(s.tasks[task].source))])
  }

  predicate CanClose(s: State, task: nat) {
    task in s.tasks && s.tasks[task].sent.Some? && s.tasks[task].sent.value in s.calls
  }

  function Closed(s: State, task: nat): State
    requires CanClose(s, task)
  {
    var id := s.tasks[task].sent.value;
    s.(tasks := s.tasks[task := s.tasks[task].(sent := None)], calls := s.calls[id := s.calls[id].(closed := s.calls[id].closed + 1)])
  }

  predicate IsWaiting(s: State, id: Id) { id in s.calls && s.calls[id].phase.Waiting? }

  function Step(s: State, e: Event): State {
    match e
    case Start => Started(s)
    case Issue => s.(calls := s.calls[s.issued := Call(Issued, 0, 0, 0, None)], issued := s.issued + 1)
    case Register(id, wrote) => if id in s.calls && s.calls[id].phase.Issued? then Registered(s, id, wrote) else s
    case Timeout(id) => if IsWaiting(s, id) then TimedOut(s, id) else s
    case Receive(id) => if IsWaiting(s, id) && s.calls[id].buffered > 0 then Received(s, id) else s
    case LockFrame(gen, frame) => if s.event.Free? && gen <= s.generation then s.(event := Reading(gen, frame)) else s
    case CheckFrame =>
      if !s.event.Reading? then s
      else if s.running && s.generation == s.event.gen then s.(event := Live(s.event.gen, s.event.frame))
      else s.(event := Free)
    case Dispatch => if s.event.Live? then Dispatched(s, s.event.gen, s.event.frame) else s
    case EndDelivery => if s.event.Delivering? && Finished(s, s.event.task) then s.(event := Free) else s
    case LockExit(gen) => if s.event.Free? && gen <= s.generation then s.(event := Exiting(gen)) else s
    case DecideExit => if s.event.Exiting? then ExitDecided(s, s.event.gen) else s
    case ReportExit =>
      if s.event.Reporting? && Finished(s, s.event.task) then s.(event := Free, log := s.log + [Exited(s.event.gen)]) else s
    case LockClose => if s.event.Free? then s.(event := Closing) else s
    case DecideClose => if s.event.Closing? then CloseDecided(s) else s
    case SendOne(task, id) => if CanSend(s, task, id) then Sent(s, task, id) else s
    case CloseOne(task) => if CanClose(s, task) then Closed(s, task) else s
  }

  function Run(s: State, es: seq<Event>): State
    decreases |es|
  {
    if es == [] then s else Run(Step(s, es[0]), es[1..])
  }

  /** The table belongs to a running process. */
  predicate Table(s: State) {
    && s.process == (if s.running then Some(s.generation) else None)
    && (!s.running ==> s.pending == {})
  }

  /** Each channel carries at most one result and is closed at most once, after
      it; the result stays in the buffer for a caller who still waits. */
  predicate Sound(c: Call) {
    && 0 <= c.closed <= c.sent <= 1 && 0 <= c.buffered <= c.sent
    && (c.phase.Waiting? ==> c.buffered == c.sent)
    && (c.phase.Issued? ==> c.sent == 0)
  }

  ghost predicate Channels(s: State) {
    && (forall id :: id in s.calls ==> id < s.issued && Sound(s.calls[id]))
    && (forall t :: t in s.tasks ==> t < s.made)
  }

  predicate Unsent(s: State, id: Id) { id in s.calls && s.calls[id].sent == 0 && !s.calls[id].phase.Issued? }

  /** Whoever may send on a channel is alone with it and nothing was sent yet. */
  ghost predicate Exclusive(s: State) {
    && (forall id :: id in s.pending ==> Unsent(s, id) && s.calls[id].phase == Waiting(s.generation))
    && (forall t, id :: t in s.tasks && id in s.tasks[t].todo ==> Unsent(s, id) && id !in s.pending)
    && (forall t, u, id :: t in s.tasks && u in s.tasks && id in s.tasks[t].todo && id in s.tasks[u].todo ==> t == u)
  }

  /** Whoever is about to close a channel is alone with it too. */
  ghost predicate Closers(s: State) {
    && (forall t :: t in s.tasks && s.tasks[t].sent.Some? ==>
          (s.tasks[t].sent.value in s.calls && s.calls[s.tasks[t].sent.value].sent == 1 && s.calls[s.tasks[t].sent.value].closed == 0))
    && (forall t, u :: t in s.tasks && u in s.tasks && s.tasks[t].sent.Some? && s.tasks[t].sent == s.tasks[u].sent ==> t == u)
  }

  ghost predicate InTask(s: State, id: Id) {
    exists t :: t in s.tasks && id in s.tasks[t].todo
  }

  /** No caller is forgotten. */
  ghost predicate Reachable(s: State) {
    forall id :: id in s.calls && s.calls[id].phase.Waiting? ==> id in s.pending || s.calls[id].sent == 1 || InTask(s, id)
  }

  ghost predicate Inv(s: State) {
    Table(s) && Channels(s) && Exclusive(s) && Closers(s) && Reachable(s)
  }

  /** Steps that only move eventMu along. */
  predicate SameTable(s: State, s': State) {
    s' == s.(event := s'.event, log := s'.log, stopping := s'.stopping)
  }

  lemma SameInv(s: State, s': State)
    requires Inv(s) && SameTable(s, s')
    ensures Inv(s')
  {
    forall id | InTask(s, id) ensures InTask(s', id) {}
  }

  /** Reachable speaks only of these fields. */
  lemma StillReachable(s: State, s': State)
    requires Reachable(s)
    requires forall t :: t in s.tasks ==> t in s'.tasks && s'.tasks[t] == s.tasks[t]
    requires forall id :: id in s'.calls && s'.calls[id].phase.Waiting? && id !in s'.pending && s'.calls[id].sent != 1 && !InTask(s', id) ==>
               id in s.calls && s.calls[id].phase.Waiting? && id !in s.pending && s.calls[id].sent != 1
    ensures Reachable(s')
  {
    forall id | InTask(s, id) ensures InTask(s', id) {
      var t :| t in s.tasks && id in s.tasks[t].todo;
      assert id in s'.tasks[t].todo;
    }
  }

  lemma StartInv(s: State)
    requires Inv(s)
    ensures Inv(Started(s))
  {
    hide Reachable, Closers, Sound;
    var s' := Started(s);
    assert Closers(s') by { hide *; SameClosers(s, s'); }
    StillReachable(s, s');
  }

  lemma SameClosers(s: State, s': State)
    requires s'.calls == s.calls && s'.tasks == s.tasks && Closers(s)
    ensures Closers(s')
  {
  }

  lemma IssueInv(s: State)
    requires Inv(s)
    ensures Inv(Step(s, Issue))
  {
    var s' := Step(s, Issue);
    assert s.issued !in s.calls;
    assert Exclusive(s') by { hide Closers, Reachable, Sound; }
    assert Closers(s') by { hide Exclusive, Reachable, Sound; }
    assert Channels(s') by { hide Exclusive, Reachable, Closers; }
    assert Reachable(s') by { hide Exclusive, Closers; StillReachable(s, s'); }
  }

  /** A caller moves on: its channel and the loops are as before. */
  ghost predicate CallerMoves(s: State, s': State, id: Id) {
    && id in s.calls && s'.calls.Keys == s.calls.Keys && s'.tasks == s.tasks && s'.made == s.made && s'.issued == s.issued
    && s'.generation == s.generation && s'.running == s.running && s'.process == s.process
    && (forall x :: x in s.calls && x != id ==> s'.calls[x] == s.calls[x] && (x in s'.pending <==> x in s.pending))
    && (id in s'.pending ==> s.running && s.calls[id].phase.Issued?)
    && s'.pending <= s.pending + {id}
    && var c, d := s.calls[id], s'.calls[id];
       && Sound(d) && d.sent == c.sent && d.closed == c.closed && !d.phase.Issued?
       && (d.phase.Waiting? ==> id in s'.pending) && (id in s'.pending ==> d.phase == Waiting(s.generation))
  }

  lemma CallerInv(s: State, s': State, id: Id)
    requires Inv(s) && CallerMoves(s, s', id)
    ensures Inv(s')
  {
    CallerExclusive(s, s', id);
    CallerClosers(s, s', id);
    StillReachable(s, s');
    hide Exclusive, Closers, Reachable;
  }

  lemma CallerExclusive(s: State, s': State, id: Id)
    requires Channels(s) && Exclusive(s) && CallerMoves(s, s', id)
    ensures Exclusive(s')
  {
    assert Sound(s.calls[id]);
    forall x | x in s'.pending ensures Unsent(s', x) && s'.calls[x].phase == Waiting(s'.generation) {
      assert x != id ==> x in s.pending && Unsent(s, x);
    }
    forall t, x | t in s'.tasks && x in s'.tasks[t].todo ensures Unsent(s', x) && x !in s'.pending {
      assert x in s.tasks[t].todo && Unsent(s, x);
    }
  }

  lemma CallerClosers(s: State, s': State, id: Id)
    requires Closers(s) && CallerMoves(s, s', id)
    ensures Closers(s')
  {
    hide Sound;
  }

  lemma RegisterInv(s: State, id: Id, wrote: bool)
    requires Inv(s) && id in s.calls && s.calls[id].phase.Issued?
    ensures Inv(Registered(s, id, wrote))
  {
    assert Sound(s.calls[id]);
    var s' := Registered(s, id, wrote);
    assert id !in s.pending;
    hide Exclusive, Closers, Reachable, Channels;
    CallerInv(s, s', id);
  }

  lemma TimeoutInv(s: State, id: Id)
    requires Inv(s) && IsWaiting(s, id)
    ensures Inv(TimedOut(s, id))
  {
    assert Sound(s.calls[id]);
    hide Exclusive, Closers, Reachable, Channels;
    CallerInv(s, TimedOut(s, id), id);
  }

  lemma ReceiveInv(s: State, id: Id)
    requires Inv(s) && IsWaiting(s, id) && s.calls[id].buffered > 0
    ensures Inv(Received(s, id))
  {
    assert Sound(s.calls[id]);
    assert id !in s.pending;
    hide Exclusive, Closers, Reachable, Channels;
    CallerInv(s, Received(s, id), id);
  }

  /** Some pending channels move to a new loop, all in one critical section. */
  ghost predicate HandsOver(s: State, s': State, source: Source, taken: set<Id>) {
    && taken <= s.pending && s'.pending == s.pending - taken
    && s'.calls == s.calls && s'.issued == s.issued && s'.generation == s.generation
    && s'.tasks == s.tasks[s.made := Task(source, taken, None)] && s'.made == s.made + 1
  }

  lemma HandOver(s: State, s': State, source: Source, taken: set<Id>)
    requires Inv(s) && HandsOver(s, s', source, taken)
    ensures Channels(s') && Exclusive(s') && Closers(s') && Reachable(s')
  {
    assert s.made !in s.tasks;
    HandedExclusive(s, s', source, taken);
    HandedReachable(s, s', source, taken);
    hide Exclusive, Reachable, Sound;
  }

  lemma HandedExclusive(s: State, s': State, source: Source, taken: set<Id>)
    requires Exclusive(s) && HandsOver(s, s', source, taken) && s.made !in s.tasks
    ensures Exclusive(s')
  {
  }

  lemma HandedReachable(s: State, s': State, source: Source, taken: set<Id>)
    requires Reachable(s) && HandsOver(s, s', source, taken) && s.made !in s.tasks
    ensures Reachable(s')
  {
    forall id | id in taken ensures InTask(s', id) { assert id in s'.tasks[s.made].todo; }
    StillReachable(s, s');
  }

  lemma DispatchInv(s: State, gen: nat, frame: Frame)
    requires Inv(s)
    ensures Inv(Dispatched(s, gen, frame))
  {
    var s' := Dispatched(s, gen, frame);
    hide Exclusive, Closers, Reachable, Channels;
    if s'.made == s.made { SameInv(s, s'); } else { HandOver(s, s', FromReply(gen, frame.id), {frame.id}); }
  }

  lemma InvalidateInv(s: State, next: Holder)
    requires Inv(s)
    ensures Inv(Invalidate(s, next))
  {
    hide Exclusive, Closers, Reachable, Channels;
    HandOver(s, Invalidate(s, next), FromFailure(s.generation), s.pending);
  }

  lemma SendInv(s: State, task: nat, id: Id)
    requires Inv(s) && CanSend(s, task, id)
    ensures Inv(Sent(s, task, id))
  {
    var s' := Sent(s, task, id);
    assert Unsent(s, id) && Sound(s.calls[id]) && id !in s.pending;
    assert Channels(s') by { hide Exclusive, Closers, Reachable; }
    assert Exclusive(s') by { hide Closers, Reachable, Sound; }
    assert Closers(s') by { hide Exclusive, Reachable, Sound; }
    assert Reachable(s') by { SendReachable(s, task, id); }
  }

  lemma SendReachable(s: State, task: nat, id: Id)
    requires Reachable(s) && CanSend(s, task, id) && s.calls[id].sent == 0
    ensures Reachable(Sent(s, task, id))
  {
    var s' := Sent(s, task, id);
    forall x | x != id && InTask(s, x) ensures InTask(s', x) {
      var t :| t in s.tasks && x in s.tasks[t].todo;
      assert x in s'.tasks[t].todo;
    }
  }

  lemma CloseInv(s: State, task: nat)
    requires Inv(s) && CanClose(s, task)
    ensures Inv(Closed(s, task))
  {
    var s' := Closed(s, task);
    var id := s.tasks[task].sent.value;
    assert Sound(s.calls[id]) && s.calls[id].sent == 1 && s.calls[id].closed == 0;
    assert Channels(s') by { hide Exclusive, Closers, Reachable; }
    assert Exclusive(s') by { hide Closers, Reachable, Sound; }
    assert Closers(s') by { hide Exclusive, Reachable, Sound; }
    assert Reachable(s') by { CloseReachable(s, task); }
  }

  lemma CloseReachable(s: State, task: nat)
    requires Reachable(s) && CanClose(s, task)
    ensures Reachable(Closed(s, task))
  {
    var s' := Closed(s, task);
    forall x | InTask(s, x) ensures InTask(s', x) {
      var t :| t in s.tasks && x in s.tasks[t].todo;
      assert x in s'.tasks[t].todo;
    }
  }

  lemma StepInv(s: State, e: Event)
    requires Inv(s)
    ensures Inv(Step(s, e))
  {
    hide Inv, Dispatched, Invalidate, Registered, TimedOut, Received, Sent, Closed, Started;
    match e
    case Start => StartInv(s);
    case Issue => IssueInv(s);
    case Register(id, wrote) => if id in s.calls && s.calls[id].phase.Issued? { RegisterInv(s, id, wrote); }
    case Timeout(id) => if IsWaiting(s, id) { TimeoutInv(s, id); }
    case Receive(id) => if IsWaiting(s, id) && s.calls[id].buffered > 0 { ReceiveInv(s, id); }
    case Dispatch => if s.event.Live? { DispatchInv(s, s.event.gen, s.event.frame); }
    case DecideExit => ExitInv(s);
    case DecideClose => CloseDecidedInv(s);
    case SendOne(task, id) => if CanSend(s, task, id) { SendInv(s, task, id); }
    case CloseOne(task) => if CanClose(s, task) { CloseInv(s, task); }
    case LockFrame(_, _) => SameInv(s, Step(s, e));
    case CheckFrame => SameInv(s, Step(s, e));
    case EndDelivery => SameInv(s, Step(s, e));
    case LockExit(_) => SameInv(s, Step(s, e));
    case ReportExit => SameInv(s, Step(s, e));
    case LockClose => SameInv(s, Step(s, e));
  }

  lemma ExitInv(s: State)
    requires Inv(s)
    ensures Inv(Step(s, DecideExit))
  {
    hide Inv, Invalidate;
    if s.event.Exiting? {
      InvalidateInv(s, Free);
      InvalidateInv(s, Reporting(s.event.gen, s.made));
      SameInv(s, s.(event := Free));
    }
  }

  lemma CloseDecidedInv(s: State)
    requires Inv(s)
    ensures Inv(Step(s, DecideClose))
  {
    hide Inv, Invalidate;
    if s.event.Closing? {
      var s' := s.(stopping := true);
      SameInv(s, s');
      InvalidateInv(s', Free);
      SameInv(s', s'.(event := Free));
    }
  }

  lemma {:induction false} RunInv(s: State, es: seq<Event>)
    requires Inv(s)
    ensures Inv(Run(s, es))
    decreases |es|
  {
    hide Inv, Step;
    if es != [] {
      StepInv(s, es[0]);
      RunInv(Step(s, es[0]), es[1..]);
    }
  }

  /** Over every interleaving: each channel gets at most one result and is
      closed at most once, after that result; a caller still waiting never finds
      its channel closed and empty; and a waiting caller is always in the table,
      in a failing loop, or already answered. */
  lemma OneResultPerCall(es: seq<Event>, id: Id)
    requires id in Run(Initial(), es).calls
    ensures var s := Run(Initial(), es); var c := s.calls[id];
      && c.closed <= c.sent <= 1 && 0 <= c.buffered <= c.sent
      && (c.phase.Waiting? ==> c.buffered == c.sent && (c.sent == 1 || id in s.pending || InTask(s, id)))
  {
    RunInv(Initial(), es);
    assert Sound(Run(Initial(), es).calls[id]);
  }

  /** A loop that answers a channel finds it open and its buffer empty, so it
      neither blocks nor sends on a closed channel; and it closes an open one. */
  lemma SenderNeverBlocks(es: seq<Event>, task: nat)
    requires task in Run(Initial(), es).tasks
    ensures var s := Run(Initial(), es);
      && (forall id :: id in s.tasks[task].todo ==> id in s.calls && s.calls[id].buffered == 0 && s.calls[id].closed == 0)
      && (s.tasks[task].sent.Some? ==> s.tasks[task].sent.value in s.calls && s.calls[s.tasks[task].sent.value].closed == 0)
  {
    RunInv(Initial(), es);
    var s := Run(Initial(), es);
    hide Reachable;
    forall id | id in s.tasks[task].todo ensures id in s.calls && s.calls[id].buffered == 0 && s.calls[id].closed == 0 {
      assert Unsent(s, id);
      assert Sound(s.calls[id]);
    }
  }
}
