/** The order in which process generations of the Codex app-server act on the
    outside, daemon/internal/agentexec/codex_appserver.go. */
module RpcOrder {
  import opened Durable
  import opened RpcOwnership

  /** Within a generation: frames, then its invalidation, then its exit report. */
  function Rank(e: Effect): nat {
    if e.Handled? || e.Answered? then 0 else if e.Invalidated? then 1 else 2
  }

  predicate Before(a: Effect, b: Effect) {
    a.gen < b.gen || (a.gen == b.gen && (Rank(a) < Rank(b) || (Rank(a) == 0 && Rank(b) == 0)))
  }

  ghost predicate Ordered(log: seq<Effect>) {
    forall i, j :: 0 <= i < j < |log| ==> Before(log[i], log[j])
  }

  ghost predicate AllBefore(log: seq<Effect>, b: Effect) {
    forall i :: 0 <= i < |log| ==> Before(log[i], b)
  }

  lemma Append(log: seq<Effect>, e: Effect)
    requires Ordered(log) && AllBefore(log, e)
    ensures Ordered(log + [e])
    ensures forall b :: AllBefore(log, b) && Before(e, b) ==> AllBefore(log + [e], b)
  {
  }

  /** e is no later than b and b may still grow. */
  lemma Later(log: seq<Effect>, a: Effect, b: Effect)
    requires AllBefore(log, a) && (a.gen < b.gen || (a.gen == b.gen && Rank(a) <= Rank(b)))
    ensures AllBefore(log, b)
  {
  }

  /** The next effect a running generation may have; for a dead one, anything of
      a later generation. */
  function Frontier(s: State): Effect {
    if s.running then Handled(s.generation) else Handled(s.generation + 1)
  }

  ghost predicate OrderInv(s: State) {
    && Table(s) && Ordered(s.log) && AllBefore(s.log, Frontier(s))
    && (s.stopping ==> !s.running)
    && (s.event.Live? ==> s.running && s.event.gen == s.generation)
    && (s.event.Reporting? ==> Frontier(s).gen > s.event.gen && AllBefore(s.log, Exited(s.event.gen)) && (s.stopping ==> !s.event.Reporting?))
  }

  lemma DispatchOrder(s: State)
    requires OrderInv(s) && s.event.Live?
    ensures OrderInv(Dispatched(s, s.event.gen, s.event.frame))
  {
    Append(s.log, Handled(s.generation));
    Append(s.log, Answered(s.generation)) by { Later(s.log, Handled(s.generation), Answered(s.generation)); }
    hide Ordered, AllBefore;
  }

  lemma InvalidateOrder(s: State, next: Holder)
    requires Table(s) && Ordered(s.log) && AllBefore(s.log, Frontier(s)) && s.running
    requires next.Free? || (next.Reporting? && next.gen == s.generation && !s.stopping)
    ensures OrderInv(Invalidate(s, next))
  {
    Later(s.log, Handled(s.generation), Invalidated(s.generation));
    Later(s.log, Handled(s.generation), Exited(s.generation));
    Later(s.log, Handled(s.generation), Handled(s.generation + 1));
    Append(s.log, Invalidated(s.generation));
    hide Ordered, AllBefore;
  }

  lemma ReportOrder(s: State)
    requires OrderInv(s) && s.event.Reporting?
    ensures OrderInv(s.(event := Free, log := s.log + [Exited(s.event.gen)]))
  {
    Append(s.log, Exited(s.event.gen));
    hide Ordered, AllBefore;
  }

  lemma StartOrder(s: State)
    requires OrderInv(s)
    ensures OrderInv(Started(s))
  {
    hide Ordered, AllBefore;
  }

  lemma StepOrder(s: State, e: Event)
    requires OrderInv(s)
    ensures OrderInv(Step(s, e))
  {
    if e.Start? {
      StartOrder(s);
    } else if e.Dispatch? {
      if s.event.Live? { DispatchOrder(s); }
    } else if e.DecideExit? {
      if s.event.Exiting? && s.process == Some(s.event.gen) && s.generation == s.event.gen {
        InvalidateOrder(s, if s.stopping then Free else Reporting(s.event.gen, s.made));
      }
    } else if e.DecideClose? {
      if s.event.Closing? && s.running { InvalidateOrder(s.(stopping := true), Free); }
    } else if e.ReportExit? {
      if s.event.Reporting? { ReportOrder(s); }
    } else {
      Quiet(s, e);
    }
    hide Ordered, AllBefore;
  }

  lemma Quiet(s: State, e: Event)
    requires OrderInv(s) && !e.Start? && !e.Dispatch? && !e.DecideExit? && !e.DecideClose? && !e.ReportExit?
    ensures OrderInv(Step(s, e))
  {
    hide Ordered, AllBefore;
  }

  lemma {:induction false} RunOrder(s: State, es: seq<Event>)
    requires OrderInv(s)
    ensures OrderInv(Run(s, es))
    decreases |es|
  {
    hide OrderInv, Step;
    if es != [] {
      StepOrder(s, es[0]);
      RunOrder(Step(s, es[0]), es[1..]);
    }
  }

  /** No frame of a generation reaches a handler or a caller after that
      generation was invalidated, each generation is invalidated and reported at
      most once, and everything of one generation, its exit report included,
      precedes everything of the next. */
  lemma GenerationsInOrder(es: seq<Event>)
    ensures Ordered(Run(Initial(), es).log)
  {
    RunOrder(Initial(), es);
  }

  /** A reply can only answer a call that was sent to the same generation. */
  lemma RepliesMatchGeneration(es: seq<Event>)
    ensures var s := Run(Initial(), es);
      s.event.Live? && s.event.frame.Reply? && s.event.frame.id in s.pending ==>
        s.event.frame.id in s.calls && s.calls[s.event.frame.id].phase == Waiting(s.event.gen)
  {
    RunInv(Initial(), es);
    RunOrder(Initial(), es);
    assert Exclusive(Run(Initial(), es));
  }

  lemma FrozenStep(s: State, e: Event)
    requires OrderInv(s) && s.stopping
    ensures Step(s, e).stopping && Step(s, e).log == s.log
  {
    hide Ordered, AllBefore;
  }

  /** After Close nothing happens any more: no handler, no answer, no exit
      report, and no process is running. */
  lemma {:induction false} ClosedForever(s: State, es: seq<Event>)
    requires OrderInv(s) && s.stopping
    ensures Run(s, es).stopping && Run(s, es).log == s.log && !Run(s, es).running
    decreases |es|
  {
    hide Step, Ordered, AllBefore;
    if es != [] {
      FrozenStep(s, es[0]);
      StepOrder(s, es[0]);
      ClosedForever(Step(s, es[0]), es[1..]);
    }
  }
}
