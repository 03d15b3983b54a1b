/** Which reply reaches which call on the Codex app-server,
    daemon/internal/agentexec/codex_appserver.go. */
module RpcReplies {
  import opened Durable
  import opened RpcOwnership
  import opened RpcOrder

  /** The source may answer this call: a reply only the call with its own id,
      and nothing but the caller's own generation one who still waits. */
  predicate Suits(calls: map<Id, Call>, source: Source, id: Id) {
    && id in calls && (source.FromReply? ==> source.id == id)
    && (calls[id].phase.Waiting? ==> calls[id].phase.gen == source.gen)
  }

  ghost predicate Origins(s: State) {
    && (forall t, id :: t in s.tasks && id in s.tasks[t].todo ==> Suits(s.calls, s.tasks[t].source, id))
    && (forall id :: id in s.calls ==>
          && (s.calls[id].result.Some? <==> s.calls[id].sent > 0)
          && (s.calls[id].result.Some? ==> Suits(s.calls, s.calls[id].result.value, id)))
  }

  lemma CallerOrigins(s: State, s': State, id: Id)
    requires Inv(s) && Origins(s) && CallerMoves(s, s', id) && s'.calls[id].result == s.calls[id].result
    requires s'.calls[id].phase.Waiting? ==> s.calls[id].phase.Issued?
    ensures Origins(s')
  {
    assert Sound(s.calls[id]);
    forall t | t in s.tasks && id in s.tasks[t].todo ensures !s.calls[id].phase.Issued? { assert Unsent(s, id); }
    hide Inv, Sound;
  }

  lemma HandedOrigins(s: State, s': State, source: Source, taken: set<Id>)
    requires Inv(s) && Origins(s) && HandsOver(s, s', source, taken) && source.gen == s.generation
    requires source.FromReply? ==> taken == {source.id}
    ensures Origins(s')
  {
    forall id | id in taken ensures Suits(s.calls, source, id) { assert Unsent(s, id); }
    hide Inv;
  }

  lemma IssueOrigins(s: State)
    requires Inv(s) && Origins(s)
    ensures Origins(Step(s, Issue))
  {
    assert s.issued !in s.calls;
    hide Inv;
  }

  lemma SendOrigins(s: State, task: nat, id: Id)
    requires Inv(s) && Origins(s) && CanSend(s, task, id)
    ensures Origins(Sent(s, task, id))
  {
    hide Inv;
  }

  lemma CloseOrigins(s: State, task: nat)
    requires Inv(s) && Origins(s) && CanClose(s, task)
    ensures Origins(Closed(s, task))
  {
    hide Inv;
  }

  lemma SameOrigins(s: State, s': State)
    requires Origins(s) && s'.calls == s.calls && s'.tasks == s.tasks
    ensures Origins(s')
  {
  }

  lemma RegisterOrigins(s: State, id: Id, wrote: bool)
    requires Inv(s) && Origins(s) && id in s.calls && s.calls[id].phase.Issued?
    ensures Origins(Registered(s, id, wrote))
  {
    assert Sound(s.calls[id]) && id !in s.pending;
    hide Exclusive, Closers, Reachable, Channels, Origins;
    CallerOrigins(s, Registered(s, id, wrote), id);
  }

  lemma StepOrigins(s: State, e: Event)
    requires Inv(s) && OrderInv(s) && Origins(s)
    ensures Origins(Step(s, e))
  {
    hide Inv, OrderInv, Origins;
    match e {
      case Issue => IssueOrigins(s);
      case Register(id, wrote) => if id in s.calls && s.calls[id].phase.Issued? { RegisterOrigins(s, id, wrote); }
      case Timeout(id) => if IsWaiting(s, id) { TimeoutOrigins(s, id); }
      case Receive(id) => if IsWaiting(s, id) && s.calls[id].buffered > 0 { ReceiveOrigins(s, id); }
      case Dispatch => if s.event.Live? { DispatchOrigins(s); }
      case DecideExit => if s.event.Exiting? { ExitOrigins(s); }
      case DecideClose => if s.event.Closing? { ShutOrigins(s); }
      case SendOne(task, id) => if CanSend(s, task, id) { SendOrigins(s, task, id); }
      case CloseOne(task) => if CanClose(s, task) { CloseOrigins(s, task); }
      case _ => SameOrigins(s, Step(s, e));
    }
  }

  lemma TimeoutOrigins(s: State, id: Id)
    requires Inv(s) && Origins(s) && IsWaiting(s, id)
    ensures Origins(TimedOut(s, id))
  {
    assert Sound(s.calls[id]);
    hide Exclusive, Closers, Reachable, Channels, Origins;
    CallerOrigins(s, TimedOut(s, id), id);
  }

  lemma ReceiveOrigins(s: State, id: Id)
    requires Inv(s) && Origins(s) && IsWaiting(s, id) && s.calls[id].buffered > 0
    ensures Origins(Received(s, id))
  {
    assert Sound(s.calls[id]);
    assert id !in s.pending;
    hide Exclusive, Closers, Reachable, Channels, Origins;
    CallerOrigins(s, Received(s, id), id);
  }

  lemma DispatchOrigins(s: State)
    requires Inv(s) && OrderInv(s) && Origins(s) && s.event.Live?
    ensures Origins(Step(s, Dispatch))
  {
    var s' := Step(s, Dispatch);
    hide Inv, Origins, Ordered, AllBefore;
    if s'.made == s.made { SameOrigins(s, s'); }
    else { HandedOrigins(s, s', FromReply(s.generation, s.event.frame.id), {s.event.frame.id}); }
  }

  lemma ExitOrigins(s: State)
    requires Inv(s) && Origins(s) && s.event.Exiting?
    ensures Origins(Step(s, DecideExit))
  {
    var s' := Step(s, DecideExit);
    hide Inv, Origins;
    if s'.made == s.made { SameOrigins(s, s'); } else { HandedOrigins(s, s', FromFailure(s.generation), s.pending); }
  }

  lemma ShutOrigins(s: State)
    requires Inv(s) && Origins(s) && s.event.Closing?
    ensures Origins(Step(s, DecideClose))
  {
    var s' := Step(s, DecideClose);
    hide Inv, Origins;
    if s'.made == s.made { SameOrigins(s, s'); } else { HandedOrigins(s, s', FromFailure(s.generation), s.pending); }
  }

  lemma {:induction false} RunOrigins(s: State, es: seq<Event>)
    requires Inv(s) && OrderInv(s) && Origins(s)
    ensures Inv(Run(s, es)) && OrderInv(Run(s, es)) && Origins(Run(s, es))
    decreases |es|
  {
    hide Inv, OrderInv, Origins, Step;
    if es != [] {
      StepInv(s, es[0]);
      StepOrder(s, es[0]);
      StepOrigins(s, es[0]);
      RunOrigins(Step(s, es[0]), es[1..]);
    }
  }

  // ----------------------------------------------------------- main results

  /** In every run: a result made of a reply came from the reply with the call's
      own id, and what a waiting caller finds comes from the generation it asked. */
  lemma ResultIsOwn(es: seq<Event>, id: Id)
    requires id in Run(Initial(), es).calls
    ensures var c := Run(Initial(), es).calls[id];
      && (c.sent == 1 <==> c.result.Some?)
      && (c.result.Some? && c.result.value.FromReply? ==> c.result.value.id == id)
      && (c.result.Some? && c.phase.Waiting? ==> c.result.value.gen == c.phase.gen)
  {
    RunOrigins(Initial(), es);
    assert Sound(Run(Initial(), es).calls[id]);
  }

  /** What dispatching a live frame does in any reachable state: a reply takes
      exactly its own id out of the table, to be answered with it; a reply to
      nobody and any other frame leave the table alone. */
  lemma DispatchExact(es: seq<Event>)
    requires Run(Initial(), es).event.Live?
    ensures var s := Run(Initial(), es);
      var t := Step(s, Dispatch);
      && t.calls == s.calls && t.running == s.running && t.generation == s.generation
      && match s.event.frame
         case ToHandler => t.pending == s.pending && t.tasks == s.tasks && t.event.Free? && t.log == s.log + [Handled(s.event.gen)]
         case Reply(id) =>
           && (forall x :: x in t.pending <==> x in s.pending && x != id)
           && if id in s.pending
              then s.made !in s.tasks && t.tasks == s.tasks[s.made := Task(FromReply(s.event.gen, id), {id}, None)]
                   && t.event == Delivering(s.event.gen, s.made) && t.log == s.log + [Answered(s.event.gen)]
              else t.tasks == s.tasks && t.event.Free? && t.log == s.log
  {
    RunOrigins(Initial(), es);
    hide Run, Exclusive, Closers, Reachable, Ordered, AllBefore;
  }

  /** The end of the running process fails every pending call and reports the
      exit, unless the daemon is closing; the end of an older one does nothing. */
  lemma ExitExact(es: seq<Event>)
    requires Run(Initial(), es).event.Exiting?
    ensures var s := Run(Initial(), es);
      var t := Step(s, DecideExit);
      && t.calls == s.calls
      && if s.running && s.event.gen == s.generation
         then && !t.running && t.pending == {} && s.made !in s.tasks
              && t.tasks == s.tasks[s.made := Task(FromFailure(s.event.gen), s.pending, None)]
              && t.event == Reporting(s.event.gen, s.made) && t.log == s.log + [Invalidated(s.event.gen)]
         else t == s.(event := Free)
  {
    RunOrigins(Initial(), es);
    hide Run, Exclusive, Closers, Reachable, Ordered, AllBefore;
  }

  /** A loop can always go on until nothing is left to answer. */
  lemma {:induction false} Drain(s: State, task: nat) returns (es: seq<Event>)
    requires Inv(s) && task in s.tasks
    ensures var t := Run(s, es); Finished(t, task) && t.log == s.log && t.event == s.event
    decreases |s.tasks[task].todo|, if s.tasks[task].sent.Some? then 1 else 0
  {
    var next: Event;
    if s.tasks[task].sent.Some? {
      next := CloseOne(task);
    } else if s.tasks[task].todo != {} {
      var id :| id in s.tasks[task].todo;
      assert Unsent(s, id);
      next := SendOne(task, id);
    } else {
      return [];
    }
    StepInv(s, next);
    assert next.CloseOne? ==> s.tasks[task].sent.value in s.calls;
    hide Inv;
    var rest := Drain(Step(s, next), task);
    es := [next] + rest;
    assert es[1..] == rest;
  }

  /** Once a running process has exited, its exit can be reported, after its
      calls were failed and before anything else holds eventMu. */
  lemma ExitReported(es: seq<Event>) returns (more: seq<Event>)
    requires var s := Run(Initial(), es); s.event.Exiting? && s.running && s.event.gen == s.generation
    ensures var s := Run(Initial(), es);
      var t := Step(Run(Step(s, DecideExit), more), ReportExit);
      t.event.Free? && t.log == s.log + [Invalidated(s.event.gen), Exited(s.event.gen)]
  {
    RunInv(Initial(), es);
    var s := Run(Initial(), es);
    ExitExact(es);
    StepInv(s, DecideExit);
    hide Inv, Run;
    more := Drain(Step(s, DecideExit), s.made);
  }

  /** Close fails every pending call and reports no exit. */
  lemma CloseExact(es: seq<Event>)
    requires Run(Initial(), es).event.Closing?
    ensures var s := Run(Initial(), es);
      var t := Step(s, DecideClose);
      && t.stopping && !t.running && t.pending == {} && t.event.Free? && t.calls == s.calls
      && if s.running
         then s.made !in s.tasks && t.tasks == s.tasks[s.made := Task(FromFailure(s.generation), s.pending, None)]
         else t.tasks == s.tasks && s.pending == {}
  {
    RunOrigins(Initial(), es);
    hide Run, Exclusive, Closers, Reachable, Ordered, AllBefore;
  }

  /** A call is issued and sent to the running process. */
  function Asked(s: State): State {
    Step(Step(Step(s, Start), Issue), Register(s.issued, true))
  }

  /** The reply of call id is read and dispatched. */
  function ReadBack(s: State, id: Id): State {
    Step(Step(Step(s, LockFrame(s.generation, Reply(id))), CheckFrame), Dispatch)
  }

  /** The loop answers its one channel and the caller takes the result. */
  function HandedBack(s: State, task: nat, id: Id): State {
    Step(Step(Step(Step(s, SendOne(task, id)), CloseOne(task)), EndDelivery), Receive(id))
  }

  lemma AskedExact(s: State)
    requires s.issued !in s.calls && !s.stopping
    ensures var t, g := Asked(s), Started(s).generation;
      t == Started(s).(issued := s.issued + 1, pending := Started(s).pending + {s.issued},
                       calls := s.calls[s.issued := Call(Waiting(g), 0, 0, 0, None)])
  {
  }

  lemma ReadBackExact(s: State, id: Id)
    requires s.event.Free? && s.running && id in s.pending
    ensures ReadBack(s, id) ==
            s.(pending := s.pending - {id}, tasks := s.tasks[s.made := Task(FromReply(s.generation, id), {id}, None)],
               made := s.made + 1, event := Delivering(s.generation, s.made), log := s.log + [Answered(s.generation)])
  {
  }

  lemma HandedBackExact(s: State, task: nat, id: Id)
    requires id in s.calls && s.calls[id] == Call(Waiting(s.generation), 0, 0, 0, None)
    requires task in s.tasks && s.tasks[task].todo == {id} && s.tasks[task].sent.None? && s.event == Delivering(s.generation, task)
    ensures HandedBack(s, task, id).calls == s.calls[id := Call(Returned, 1, 0, 1, Some(s.tasks[task].source))]
    ensures var t := HandedBack(s, task, id); t.event.Free? && t.running == s.running && t.generation == s.generation
  {
    var a := Step(s, SendOne(task, id));
    assert a.tasks[task].todo == {};
  }

  /** From every reachable state in which nothing holds eventMu and Close was
      not called, a call can be made and comes back with its own reply. */
  lemma CallCompletes(es: seq<Event>)
    requires var s := Run(Initial(), es); s.event.Free? && !s.stopping
    ensures var s := Run(Initial(), es);
      var t := HandedBack(ReadBack(Asked(s), s.issued), s.made, s.issued);
      && s.issued !in s.calls
      && t.calls == s.calls[s.issued := Call(Returned, 1, 0, 1, Some(FromReply(t.generation, s.issued)))]
      && t.event.Free? && t.running && t.generation == (if s.running then s.generation else s.generation + 1)
  {
    RunInv(Initial(), es);
    CallOn(Run(Initial(), es));
    hide *;
  }

  lemma CallOn(s: State)
    requires Inv(s) && s.event.Free? && !s.stopping
    ensures var t := HandedBack(ReadBack(Asked(s), s.issued), s.made, s.issued);
      && s.issued !in s.calls
      && t.calls == s.calls[s.issued := Call(Returned, 1, 0, 1, Some(FromReply(t.generation, s.issued)))]
      && t.event.Free? && t.running && t.generation == (if s.running then s.generation else s.generation + 1)
  {
    Fresh(s);
    AskedExact(s);
    var a := Asked(s);
    assert a.event.Free? && a.running && s.issued in a.pending && a.made == s.made;
    ReadBackExact(a, s.issued);
    hide *;
    HandedBackExact(ReadBack(a, s.issued), s.made, s.issued);
  }

  lemma Fresh(s: State)
    requires Inv(s)
    ensures s.issued !in s.calls && s.made !in s.tasks
  {
  }
}
