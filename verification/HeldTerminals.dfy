/** A terminal event that comes before its turn is accepted is held and comes
    back with the acceptance; one that comes later is let through at once. */
module HeldTerminals {
  import opened Durable
  import opened ActiveTurns
  import opened TurnRuns

  /** g waits for the decision of its dispatch, bound in its session. */
  ghost predicate Waiting(w: World, g: nat) {
    g in w.turns && w.turns[g].decision == Undecided && IsBound(w.bindings, g, w.turns[g].session)
  }

  ghost predicate Held(w: World, g: nat, e: ControlEvent) {
    Waiting(w, g) && w.bindings[w.turns[g].session].pending == Some(e)
  }

  /** While g is bound, the events attributed to its session are its own. */
  lemma BelongsExact(w: World, g: nat, e: ControlEvent)
    requires Inv(w) && g in w.turns && IsBound(w.bindings, g, w.turns[g].session) && e.session == w.turns[g].session
    ensures Attributable(w.bindings, e) <==> Belongs(e, g, w.turns[g])
  {
    assert TurnOk(w.bindings, g, w.turns[g]);
  }

  lemma ArrivalHeld(w: World, g: nat, e: ControlEvent)
    requires Inv(w) && Waiting(w, g) && Belongs(e, g, w.turns[g])
    ensures Held(Step(w, Terminal(e)), g, e)
  {
    BelongsExact(w, g, e);
    assert TurnOk(w.bindings, g, w.turns[g]);
  }

  /** Once accepted, an event of the bound turn is let through against it. */
  lemma ArrivalReleased(w: World, g: nat, e: ControlEvent)
    requires Inv(w) && g in w.turns && IsBound(w.bindings, g, w.turns[g].session) && w.turns[g].decision == TurnAccepted
    requires Belongs(e, g, w.turns[g])
    ensures var w', h := Step(w, Terminal(e)), w.turns[g];
      && w'.bindings == w.bindings && w'.turns.Keys == w.turns.Keys
      && w'.turns[g] == h.(handlers := h.handlers + multiset{Release(Binding(g, h.client, h.native), e)}, released := h.released + 1)
  {
    BelongsExact(w, g, e);
    assert TurnOk(w.bindings, g, w.turns[g]);
  }

  /** The event that a step hands to terminalForEvent. */
  function Delivered(w: World, ev: Event): Option<ControlEvent> {
    match ev
    case Terminal(e) => Some(e)
    case Replay(g) => if g in w.turns then w.turns[g].replay else None
    case _ => None
  }

  /** A later event of the same turn takes the place of a held one. */
  function Latest(w: World, ev: Event, g: nat, e: ControlEvent): ControlEvent {
    if g in w.turns && Delivered(w, ev).Some? && Belongs(Delivered(w, ev).value, g, w.turns[g]) then Delivered(w, ev).value else e
  }

  function LastHeld(w: World, es: seq<Event>, g: nat, e: ControlEvent): ControlEvent
    decreases |es|
  {
    if es == [] then e else LastHeld(Step(w, es[0]), es[1..], g, Latest(w, es[0], g, e))
  }

  lemma DeliveryHeld(w: World, e: ControlEvent, g: nat, held: ControlEvent)
    requires Inv(w) && Held(w, g, held)
    ensures Held(Arriving(w, e), g, if Belongs(e, g, w.turns[g]) then e else held)
  {
    assert TurnOk(w.bindings, g, w.turns[g]);
    if e.session == w.turns[g].session { BelongsExact(w, g, e); }
    hide Inv, TurnOk;
    PendingArrival(w, e, g, held);
  }

  lemma PendingArrival(w: World, e: ControlEvent, g: nat, held: ControlEvent)
    requires Held(w, g, held) && !w.bindings[w.turns[g].session].accepted
    requires e.session == w.turns[g].session ==> (Attributable(w.bindings, e) <==> Belongs(e, g, w.turns[g]))
    ensures Held(Arriving(w, e), g, if Belongs(e, g, w.turns[g]) then e else held)
  {
  }

  /** Replay takes the event from its own history first; g has none. */
  lemma ReplayHeld(w: World, j: nat, g: nat, held: ControlEvent)
    requires Inv(w) && Held(w, g, held) && j in w.turns && w.turns[j].replay.Some?
    ensures Held(Replaying(w, j, w.turns[j]), g, if Belongs(w.turns[j].replay.value, g, w.turns[g]) then w.turns[j].replay.value else held)
  {
    var v := w.(turns := w.turns[j := w.turns[j].(replay := None)]);
    var e := w.turns[j].replay.value;
    assert TurnOk(w.bindings, g, w.turns[g]) && j != g;
    if e.session == w.turns[g].session { BelongsExact(w, g, e); }
    hide Inv, TurnOk;
    assert Held(v, g, held) && v.turns[g] == w.turns[g];
    PendingArrival(v, e, g, held);
  }

  lemma ClearHeld(w: World, j: nat, r: Release, g: nat, held: ControlEvent)
    requires Inv(w) && Held(w, g, held) && j in w.turns
    ensures Held(Clearing(w, j, w.turns[j], r), g, held)
  {
    assert TurnOk(w.bindings, g, w.turns[g]);
    assert TurnOk(w.bindings, j, w.turns[j]);
  }

  /** Steps of other turns, naming and completion lose nothing that is held. */
  lemma StepHeld(w: World, ev: Event, g: nat, e: ControlEvent)
    requires Inv(w) && Held(w, g, e) && g in Step(w, ev).turns && Step(w, ev).turns[g].decision == Undecided
    ensures Held(Step(w, ev), g, Latest(w, ev, g, e))
  {
    match ev {
      case Terminal(d) => DeliveryHeld(w, d, g, e);
      case Replay(j) => if j in w.turns && w.turns[j].replay.Some? { ReplayHeld(w, j, g, e); }
      case Clear(j, r) => if j in w.turns { ClearHeld(w, j, r, g, e); }
      case Begin(s, c) => BeginHeld(w, s, c, g, e);
      case _ => TurnStepHeld(w, ev, g, e);
    }
  }

  lemma BeginHeld(w: World, s: Text, c: Text, g: nat, e: ControlEvent)
    requires Inv(w) && Held(w, g, e)
    ensures Held(Beginning(w, s, c), g, e)
  {
    assert g <= w.counter && w.turns[g].session in w.bindings;
    hide Inv;
  }

  lemma TurnStepHeld(w: World, ev: Event, g: nat, e: ControlEvent)
    requires Inv(w) && Held(w, g, e) && g in Step(w, ev).turns && Step(w, ev).turns[g].decision == Undecided
    requires ev.Name? || ev.Accept? || ev.Abandon? || ev.Refuse? || ev.Complete?
    ensures Held(Step(w, ev), g, e)
  {
    if ev.generation == g {
      assert TurnOk(w.bindings, g, w.turns[g]);
      OwnStepHeld(w, ev, g, e);
    } else {
      OtherStepHeld(w, ev, g, e);
    }
  }

  lemma OwnStepHeld(w: World, ev: Event, g: nat, e: ControlEvent)
    requires Held(w, g, e) && Reflects(w.bindings[w.turns[g].session], w.turns[g])
    requires g in Step(w, ev).turns && Step(w, ev).turns[g].decision == Undecided
    requires ev == Accept(g) || ev == Abandon(g) || ev == Refuse(g) || ev == Complete(g) || (ev.Name? && ev.generation == g)
    ensures Held(Step(w, ev), g, e)
  {
  }

  /** A call that names another turn does not match the binding of g. */
  lemma OtherStepHeld(w: World, ev: Event, g: nat, e: ControlEvent)
    requires Held(w, g, e) && (ev.Name? || ev.Accept? || ev.Abandon? || ev.Refuse? || ev.Complete?) && ev.generation != g
    ensures Held(Step(w, ev), g, e)
  {
    if ev.generation in w.turns {
      var h := w.turns[ev.generation];
      assert h.session == w.turns[g].session ==> !Matches(w.bindings, h.session, ev.generation, h.client);
    }
  }

  lemma {:induction false} RunHeld(w: World, es: seq<Event>, g: nat, e: ControlEvent)
    requires Inv(w) && Held(w, g, e) && g in Run(w, es).turns && Run(w, es).turns[g].decision == Undecided
    ensures Held(Run(w, es), g, LastHeld(w, es, g, e))
    decreases |es|
  {
    hide Inv, Step, Held, Latest;
    if es != [] {
      var w' := Step(w, es[0]);
      HeldTurn(w, g, e);
      StepInv(w, es[0]);
      StepGrows(w, es[0], g);
      StillUndecided(w', es[1..], g);
      StepHeld(w, es[0], g, e);
      RunHeld(w', es[1..], g, Latest(w, es[0], g, e));
    }
  }

  lemma HeldTurn(w: World, g: nat, e: ControlEvent)
    requires Held(w, g, e)
    ensures g in w.turns
  {
  }

  lemma {:induction false} StillUndecided(w: World, es: seq<Event>, g: nat)
    requires Inv(w) && g in w.turns && g in Run(w, es).turns && Run(w, es).turns[g].decision == Undecided
    ensures w.turns[g].decision == Undecided
    decreases |es|
  {
    hide Inv, Step;
    if es != [] {
      StepInv(w, es[0]);
      StepGrows(w, es[0], g);
      StillUndecided(Step(w, es[0]), es[1..], g);
    }
  }

  /** Without a later event of its own turn, the held event stays the one. */
  lemma {:induction false} OnlyOne(w: World, es: seq<Event>, g: nat, e: ControlEvent)
    requires Undisturbed(w, es, g)
    ensures LastHeld(w, es, g, e) == e
    decreases |es|
  {
    if es != [] { OnlyOne(Step(w, es[0]), es[1..], g, e); }
  }

  /** No step of es delivers an event of turn g. */
  predicate Undisturbed(w: World, es: seq<Event>, g: nat)
    decreases |es|
  {
    es != [] ==>
      && (g in w.turns && Delivered(w, es[0]).Some? ==> !Belongs(Delivered(w, es[0]).value, g, w.turns[g]))
      && Undisturbed(Step(w, es[0]), es[1..], g)
  }

  /** What acceptance and replay make of the held event: the turn stays bound,
      accept returns the event, and its replay is let through against the turn. */
  lemma AcceptReturns(w: World, g: nat, e: ControlEvent)
    requires Inv(w) && Held(w, g, e)
    ensures var h := w.turns[g];
      var a := Step(w, Accept(g));
      && g in a.turns && a.turns[g].decision == TurnAccepted && a.turns[g].replay == Some(e) && a.turns[g].clears == 0
      && h.session in a.bindings && a.bindings[h.session].binding == Binding(g, h.client, h.native) && a.bindings[h.session].accepted
      && var r := Step(a, Replay(g)); var release := Release(Binding(g, h.client, h.native), e);
         && g in r.turns && r.turns[g].replay.None? && r.turns[g].handlers == multiset{release}
         && var c := Step(r, Clear(g, release));
            g in c.turns && c.turns[g].clears == 1 && h.session !in c.bindings
  {
    assert TurnOk(w.bindings, g, w.turns[g]);
    var a := Step(w, Accept(g));
    assert Ready(a.bindings, e);
  }

  /** From every reachable state, a terminal event of a turn that is not yet
      accepted survives whatever else happens until the dispatch is decided: it,
      or the last one of the same turn that followed, is what accept returns, and
      its replay is let through and clears the turn. */
  lemma HeldComesBack(es: seq<Event>, g: nat, e: ControlEvent, mid: seq<Event>)
    requires var w := Run(Initial(), es);
      && Waiting(w, g) && Belongs(e, g, w.turns[g])
      && var u := Run(Step(w, Terminal(e)), mid); g in u.turns && u.turns[g].decision == Undecided
    ensures var w := Step(Run(Initial(), es), Terminal(e));
      var u := Run(w, mid);
      var last := LastHeld(w, mid, g, e);
      && (Undisturbed(w, mid, g) ==> last == e)
      && Held(u, g, last)
      && var a := Step(u, Accept(g));
         && g in a.turns && a.turns[g].replay == Some(last) && IsBound(a.bindings, g, a.turns[g].session)
  {
    RunInv(Initial(), es);
    var v := Run(Initial(), es);
    ArrivalHeld(v, g, e);
    StepInv(v, Terminal(e));
    var w := Step(v, Terminal(e));
    RunHeld(w, mid, g, e);
    RunInv(w, mid);
    AcceptReturns(Run(w, mid), g, LastHeld(w, mid, g, e));
    if Undisturbed(w, mid, g) { OnlyOne(w, mid, g, e); }
    hide Inv, Run, Step, LastHeld, Undisturbed, IsBound, Belongs, Waiting;
  }
}
