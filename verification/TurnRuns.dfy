/** All interleavings of terminal events, native completion and acceptance. */
module TurnRuns {
  import opened Durable
  import opened ActiveTurns

  /** What the dispatching thread did with the turn: acceptance became durable,
      its journal write failed, or the adapter refused the prompt. */
  datatype Decision = Undecided | TurnAccepted | TurnAbandoned | TurnRefused

  /** A thread that terminalForEvent let through: its event and its copy of the binding. */
  datatype Release = Release(binding: Binding, event: ControlEvent)

  /** The history of one generation. native is the id it was given, empty before
      that; replay is the held event that accept returned and that is still to be
      replayed; handlers are the threads between terminalForEvent and
      clearMatching; clears counts calls that reported removing the binding. */
  datatype History = History(session: Text, client: Text, decision: Decision, completed: bool, native: Text,
                             replay: Option<ControlEvent>, handlers: multiset<Release>, clears: nat, released: nat)

  datatype World = World(bindings: Bindings, counter: nat, turns: map<nat, History>)

  /** Callers make each call once per turn; terminal events may come at any time and repeatedly. */
  datatype Event =
    | Begin(session: Text, client: Text)
    | Name(generation: nat, native: Text)
    | Accept(generation: nat)
    | Abandon(generation: nat)
    | Refuse(generation: nat)
    | Complete(generation: nat)
    | Terminal(event: ControlEvent)
    | Replay(generation: nat)
    | Clear(generation: nat, release: Release)

  function Initial(): World { World(map[], 0, map[]) }

  function One(b: bool): nat { if b then 1 else 0 }

  /** The ids are the trimmed ones under which the turn is stored. */
  function Beginning(w: World, s: Text, c: Text): World {
    var g := w.counter + 1;
    if s == [] || c == [] || s in w.bindings then w.(counter := g)
    else World(w.bindings[s := Turn(Binding(g, c, []), false, false, false, None)], g,
               w.turns[g := History(s, c, Undecided, false, [], None, multiset{}, 0, 0)])
  }

  function Naming(w: World, g: nat, h: History, native: Text): World {
    if native == [] || h.native != [] then w
    else
      var t := w.(turns := w.turns[g := h.(native := native)]);
      if Matches(w.bindings, h.session, g, h.client) then t.(bindings := NativeSet(w.bindings, h.session, native)) else t
  }

  function Accepting(w: World, g: nat, h: History): World {
    if h.decision != Undecided then w
    else w.(bindings := Accepted(w.bindings, h.session, g, h.client),
            turns := w.turns[g := h.(decision := TurnAccepted, replay := AcceptPending(w.bindings, h.session, g, h.client),
                                     clears := h.clears + One(AcceptClears(w.bindings, h.session, g, h.client)))])
  }

  function Abandoning(w: World, g: nat, h: History): World {
    if h.decision != Undecided then w
    else w.(bindings := Abandoned(w.bindings, h.session, g, h.client),
            turns := w.turns[g := h.(decision := TurnAbandoned, clears := h.clears + One(AbandonClears(w.bindings, h.session, g, h.client)))])
  }

  function Refusing(w: World, g: nat, h: History): World {
    if h.decision != Undecided then w
    else
      var ok := Clears(w.bindings, h.session, g, h.client, []);
      w.(bindings := if ok then w.bindings - {h.session} else w.bindings,
         turns := w.turns[g := h.(decision := TurnRefused, clears := h.clears + One(ok))])
  }

  function Completing(w: World, g: nat, h: History): World {
    if h.completed then w
    else w.(bindings := Completed(w.bindings, h.session, g, h.client),
            turns := w.turns[g := h.(completed := true, clears := h.clears + One(CompleteClears(w.bindings, h.session, g, h.client)))])
  }

  /** terminalForEvent; a ready event continues as a handler of the bound turn. */
  function Arriving(w: World, e: ControlEvent): World {
    var t := w.(bindings := AfterTerminal(w.bindings, e));
    if !Ready(w.bindings, e) then t
    else
      var b := w.bindings[e.session].binding;
      if b.generation !in w.turns then t
      else
        var h := w.turns[b.generation];
        t.(turns := w.turns[b.generation := h.(handlers := h.handlers + multiset{Release(b, e)}, released := h.released + 1)])
  }

  function Replaying(w: World, g: nat, h: History): World {
    if h.replay.None? then w
    else Arriving(w.(turns := w.turns[g := h.(replay := None)]), h.replay.value)
  }

  function Clearing(w: World, g: nat, h: History, r: Release): World {
    if r !in h.handlers then w
    else
      var ok := Clears(w.bindings, h.session, r.binding.generation, r.binding.client, r.binding.native);
      w.(bindings := if ok then w.bindings - {h.session} else w.bindings,
         turns := w.turns[g := h.(handlers := h.handlers - multiset{r}, clears := h.clears + One(ok))])
  }

  function Step(w: World, e: Event): World {
    match e
    case Begin(s, c) => Beginning(w, s, c)
    case Terminal(ev) => Arriving(w, ev)
    case Name(g, native) => if g in w.turns then Naming(w, g, w.turns[g], native) else w
    case Accept(g) => if g in w.turns then Accepting(w, g, w.turns[g]) else w
    case Abandon(g) => if g in w.turns then Abandoning(w, g, w.turns[g]) else w
    case Refuse(g) => if g in w.turns then Refusing(w, g, w.turns[g]) else w
    case Complete(g) => if g in w.turns then Completing(w, g, w.turns[g]) else w
    case Replay(g) => if g in w.turns then Replaying(w, g, w.turns[g]) else w
    case Clear(g, r) => if g in w.turns then Clearing(w, g, w.turns[g], r) else w
  }

  function Run(w: World, es: seq<Event>): World
    decreases |es|
  {
    if es == [] then w else Run(Step(w, es[0]), es[1..])
  }

  // -------------------------------------------------------------- invariant

  predicate IsBound(b: Bindings, g: nat, s: Text) {
    s in b && b[s].binding.generation == g
  }

  /** How the stored turn reflects its history while it is bound. */
  predicate Reflects(t: Turn, h: History) {
    && t.binding.client == h.client
    && t.accepted == (h.decision == TurnAccepted) && t.indeterminate == (h.decision == TurnAbandoned)
    && h.decision != TurnRefused
    && t.nativeComplete == h.completed
    && t.binding.native == h.native
    && (t.pending.Some? ==> !t.accepted)
    && (h.decision == TurnAbandoned ==> !h.completed)
    && (h.decision == TurnAccepted && h.completed ==> h.replay.Some? || |h.handlers| > 0)
    && h.released == |h.handlers|
  }

  /** The event states no id that is not the turn's own. */
  predicate Belongs(e: ControlEvent, g: nat, h: History) {
    && e.session == h.session
    && (e.generation == 0 || e.generation == g)
    && (e.client == [] || e.client == h.client)
    && (e.native == [] || e.native == h.native)
  }

  /** A released thread acts for its own turn. */
  predicate Genuine(r: Release, g: nat, h: History) {
    && r.binding.generation == g && r.binding.client == h.client && (r.binding.native == [] || r.binding.native == h.native)
    && Belongs(r.event, g, h)
  }

  /** What it takes for a turn to be unbound: refusal, the native end of a turn
      in doubt, or the native end or a finished terminal of an accepted one. */
  predicate MayBeGone(h: History) {
    match h.decision
    case Undecided => false
    case TurnRefused => true
    case TurnAbandoned => h.completed
    case TurnAccepted => h.completed || h.released > |h.handlers|
  }

  ghost predicate TurnOk(b: Bindings, g: nat, h: History) {
    && (!IsBound(b, g, h.session) ==> MayBeGone(h))
    && (h.released > 0 ==> h.decision == TurnAccepted)
    && h.session != []
    && (h.replay.Some? ==> h.decision == TurnAccepted && Belongs(h.replay.value, g, h))
    && (forall r :: r in h.handlers ==> h.decision == TurnAccepted && Genuine(r, g, h))
    && h.clears == One(!IsBound(b, g, h.session))
    && (IsBound(b, g, h.session) ==>
          && Reflects(b[h.session], h)
          && (b[h.session].pending.Some? ==> Belongs(b[h.session].pending.value, g, h)))
  }

  ghost predicate Inv(w: World) {
    && (forall s :: s in w.bindings ==>
          w.bindings[s].binding.generation in w.turns && w.turns[w.bindings[s].binding.generation].session == s)
    && (forall g :: g in w.turns ==> 0 < g <= w.counter && TurnOk(w.bindings, g, w.turns[g]))
  }

  /** A step that touches one session's binding and one history keeps all other turns. */
  lemma OneTurn(w: World, w': World, g: nat)
    requires Inv(w) && g in w.turns && w'.counter == w.counter
    requires g in w'.turns && w'.turns == w.turns[g := w'.turns[g]] && w'.turns[g].session == w.turns[g].session
    requires forall s :: s != w.turns[g].session ==> (s in w'.bindings <==> s in w.bindings)
    requires forall s :: s != w.turns[g].session && s in w.bindings ==> w'.bindings[s] == w.bindings[s]
    requires w'.bindings == w.bindings || IsBound(w.bindings, g, w.turns[g].session)
    requires w.turns[g].session in w'.bindings && IsBound(w.bindings, g, w.turns[g].session) ==> IsBound(w'.bindings, g, w.turns[g].session)
    requires TurnOk(w'.bindings, g, w'.turns[g])
    ensures Inv(w')
  {
    forall x | x in w'.turns && x != g ensures TurnOk(w'.bindings, x, w'.turns[x]) {
      assert TurnOk(w.bindings, x, w.turns[x]);
      assert IsBound(w'.bindings, x, w.turns[x].session) == IsBound(w.bindings, x, w.turns[x].session);
    }
  }

  lemma BoundMatches(w: World, g: nat)
    requires Inv(w) && g in w.turns
    ensures var h := w.turns[g]; Matches(w.bindings, h.session, g, h.client) == IsBound(w.bindings, g, h.session)
  {
    assert TurnOk(w.bindings, g, w.turns[g]);
  }

  lemma BeginInv(w: World, s: Text, c: Text)
    requires Inv(w)
    ensures Inv(Beginning(w, s, c))
  {
    hide TurnOk;
    if s != [] && c != [] && s !in w.bindings {
      BegunTurn(w, s, c);
      BegunInv(w, Beginning(w, s, c), s);
    }
  }

  lemma BegunInv(w: World, w': World, s: Text)
    requires Inv(w) && s !in w.bindings && s in w'.bindings && w'.bindings == w.bindings[s := w'.bindings[s]]
    requires var g := w.counter + 1;
      && w'.counter == g && g in w'.turns && w'.turns == w.turns[g := w'.turns[g]]
      && w'.bindings[s].binding.generation == g && w'.turns[g].session == s && TurnOk(w'.bindings, g, w'.turns[g])
    ensures Inv(w')
  {
    hide TurnOk;
    assert w.counter + 1 !in w.turns;
    forall x | x in w.turns ensures TurnOk(w'.bindings, x, w.turns[x]) {
      OthersUnbound(w.bindings, w'.bindings, s, x, w.turns[x]);
    }
  }

  /** What a successful bind adds to the world. */
  lemma BegunTurn(w: World, s: Text, c: Text)
    requires s != [] && c != [] && s !in w.bindings
    ensures var w', g := Beginning(w, s, c), w.counter + 1;
      && w'.counter == g && s in w'.bindings && g in w'.turns
      && w'.bindings == w.bindings[s := w'.bindings[s]] && w'.turns == w.turns[g := w'.turns[g]]
      && w'.bindings[s].binding.generation == g && w'.turns[g].session == s && TurnOk(w'.bindings, g, w'.turns[g])
  {
  }

  /** A new binding of a free session leaves the other turns as they are. */
  lemma OthersUnbound(b: Bindings, b': Bindings, s: Text, g: nat, h: History)
    requires TurnOk(b, g, h) && s !in b && s in b' && b' == b[s := b'[s]] && b'[s].binding.generation != g
    ensures TurnOk(b', g, h)
  {
    assert IsBound(b', g, h.session) == IsBound(b, g, h.session);
    hide Reflects, Belongs;
  }

  lemma NameInv(w: World, g: nat, native: Text)
    requires Inv(w) && g in w.turns
    ensures Inv(Naming(w, g, w.turns[g], native))
  {
    var h := w.turns[g];
    assert TurnOk(w.bindings, g, h);
    BoundMatches(w, g);
    if native != [] && h.native == [] { OneTurn(w, Naming(w, g, h, native), g); }
  }

  lemma AcceptInv(w: World, g: nat)
    requires Inv(w) && g in w.turns
    ensures Inv(Accepting(w, g, w.turns[g]))
  {
    var h := w.turns[g];
    assert TurnOk(w.bindings, g, h);
    BoundMatches(w, g);
    if h.decision == Undecided { OneTurn(w, Accepting(w, g, h), g); }
  }

  lemma AbandonInv(w: World, g: nat)
    requires Inv(w) && g in w.turns
    ensures Inv(Abandoning(w, g, w.turns[g]))
  {
    var h := w.turns[g];
    assert TurnOk(w.bindings, g, h);
    BoundMatches(w, g);
    if h.decision == Undecided { OneTurn(w, Abandoning(w, g, h), g); }
  }

  lemma RefuseInv(w: World, g: nat)
    requires Inv(w) && g in w.turns
    ensures Inv(Refusing(w, g, w.turns[g]))
  {
    var h := w.turns[g];
    assert TurnOk(w.bindings, g, h);
    BoundMatches(w, g);
    if h.decision == Undecided { OneTurn(w, Refusing(w, g, h), g); }
  }

  lemma CompleteInv(w: World, g: nat)
    requires Inv(w) && g in w.turns
    ensures Inv(Completing(w, g, w.turns[g]))
  {
    var h := w.turns[g];
    assert TurnOk(w.bindings, g, h);
    BoundMatches(w, g);
    if !h.completed { OneTurn(w, Completing(w, g, h), g); }
  }

  lemma ArriveInv(w: World, e: ControlEvent)
    requires Inv(w)
    ensures Inv(Arriving(w, e))
  {
    if Attributable(w.bindings, e) {
      var g := w.bindings[e.session].binding.generation;
      assert TurnOk(w.bindings, g, w.turns[g]);
      OneTurn(w, Arriving(w, e), g);
    }
  }

  lemma ReplayInv(w: World, g: nat)
    requires Inv(w) && g in w.turns
    ensures Inv(Replaying(w, g, w.turns[g]))
  {
    var h := w.turns[g];
    assert TurnOk(w.bindings, g, h);
    if h.replay.Some? {
      var w' := Replaying(w, g, h);
      if IsBound(w.bindings, g, h.session) {
        assert Ready(w.bindings, h.replay.value);
        OneTurn(w, w', g);
      } else {
        var v := w.(turns := w.turns[g := h.(replay := None)]);
        OneTurn(w, v, g);
        ArriveInv(v, h.replay.value);
      }
    }
  }

  lemma ClearInv(w: World, g: nat, r: Release)
    requires Inv(w) && g in w.turns
    ensures Inv(Clearing(w, g, w.turns[g], r))
  {
    var h := w.turns[g];
    assert TurnOk(w.bindings, g, h);
    BoundMatches(w, g);
    if r in h.handlers {
      ClearOk(w, g, h, r);
      hide TurnOk;
      OneTurn(w, Clearing(w, g, h, r), g);
    }
  }

  lemma ClearOk(w: World, g: nat, h: History, r: Release)
    requires TurnOk(w.bindings, g, h) && r in h.handlers && Matches(w.bindings, h.session, g, h.client) == IsBound(w.bindings, g, h.session)
    ensures var w' := Clearing(w, g, h, r); TurnOk(w'.bindings, g, w'.turns[g])
  {
  }

  lemma StepInv(w: World, e: Event)
    requires Inv(w)
    ensures Inv(Step(w, e))
  {
    hide Inv, Beginning, Arriving, Naming, Accepting, Abandoning, Refusing, Completing, Replaying, Clearing;
    match e {
      case Begin(s, c) => BeginInv(w, s, c);
      case Terminal(ev) => ArriveInv(w, ev);
      case Name(g, native) => if g in w.turns { NameInv(w, g, native); }
      case Accept(g) => if g in w.turns { AcceptInv(w, g); }
      case Abandon(g) => if g in w.turns { AbandonInv(w, g); }
      case Refuse(g) => if g in w.turns { RefuseInv(w, g); }
      case Complete(g) => if g in w.turns { CompleteInv(w, g); }
      case Replay(g) => if g in w.turns { ReplayInv(w, g); }
      case Clear(g, r) => if g in w.turns { ClearInv(w, g, r); }
    }
  }

  lemma {:induction false} RunInv(w: World, es: seq<Event>)
    requires Inv(w)
    ensures Inv(Run(w, es))
    decreases |es|
  {
    hide Inv, Step;
    if es != [] {
      StepInv(w, es[0]);
      RunInv(Step(w, es[0]), es[1..]);
    }
  }

  // ----------------------------------------------------------- main results

  /** Both sides and every replay and handler of the turn have finished. */
  predicate Finished(h: History) {
    h.decision != Undecided && h.completed && h.replay.None? && h.handlers == multiset{}
  }

  /** In every interleaving: no terminal is released before durable acceptance;
      at most one call reports clearing a turn; a turn is bound until something
      ends it; and once it is refused, once a doubtful one ends natively, or once
      both sides and the replay are through, the binding is gone and exactly one
      call reported it. */
  lemma TurnResult(es: seq<Event>, g: nat)
    requires g in Run(Initial(), es).turns
    ensures var w := Run(Initial(), es); var h := w.turns[g];
      && (h.released > 0 ==> h.decision == TurnAccepted)
      && h.clears <= 1
      && (h.clears == 1 <==> !IsBound(w.bindings, g, h.session))
      && (!IsBound(w.bindings, g, h.session) ==> MayBeGone(h))
      && (h.decision == TurnRefused || (h.decision == TurnAbandoned && h.completed) || Finished(h) || h.released > |h.handlers| ==>
            h.clears == 1 && !IsBound(w.bindings, g, h.session))
  {
    RunInv(Initial(), es);
    var w := Run(Initial(), es);
    assert TurnOk(w.bindings, g, w.turns[g]);
  }

  /** While a turn is bound, the released terminals are exactly those whose
      handler has not yet cleared: a second one is released if and only if an
      earlier one is still on its way to clearMatching. */
  lemma ReleasesInFlight(es: seq<Event>, e: ControlEvent)
    requires Ready(Run(Initial(), es).bindings, e)
    ensures var w := Run(Initial(), es);
      var g := w.bindings[e.session].binding.generation;
      && g in w.turns && g in Step(w, Terminal(e)).turns
      && (Step(w, Terminal(e)).turns[g].released > 1 <==> w.turns[g].handlers != multiset{})
  {
    RunInv(Initial(), es);
    var w := Run(Initial(), es);
    var g := w.bindings[e.session].binding.generation;
    assert TurnOk(w.bindings, g, w.turns[g]);
  }

  /** What a history never loses: its names, and a decision or native id once made. */
  predicate Continues(h: History, k: History) {
    && k.session == h.session && k.client == h.client && (h.native != [] ==> k.native == h.native)
    && (h.decision != Undecided ==> k.decision == h.decision)
  }

  /** Generations are never reused, so a cleared turn stays cleared. */
  lemma {:induction false} ClearedForever(w: World, es: seq<Event>, g: nat)
    requires Inv(w) && g in w.turns && w.turns[g].clears == 1
    ensures g in Run(w, es).turns && Run(w, es).turns[g].clears == 1
    ensures !IsBound(Run(w, es).bindings, g, w.turns[g].session) && Continues(w.turns[g], Run(w, es).turns[g])
    decreases |es|
  {
    if es == [] {
      assert TurnOk(w.bindings, g, w.turns[g]);
    } else {
      StepInv(w, es[0]);
      ClearedStep(w, es[0], g);
      ClearedForever(Step(w, es[0]), es[1..], g);
    }
  }

  lemma ClearedStep(w: World, e: Event, g: nat)
    requires Inv(w) && g in w.turns && w.turns[g].clears == 1
    ensures g in Step(w, e).turns && Step(w, e).turns[g].clears == 1 && Continues(w.turns[g], Step(w, e).turns[g])
  {
    assert TurnOk(w.bindings, g, w.turns[g]);
    StepInv(w, e);
    StepGrows(w, e, g);
    assert TurnOk(Step(w, e).bindings, g, Step(w, e).turns[g]);
  }

  lemma StepGrows(w: World, e: Event, g: nat)
    requires Inv(w) && g in w.turns
    ensures g in Step(w, e).turns && Continues(w.turns[g], Step(w, e).turns[g])
    ensures w.turns[g].clears <= Step(w, e).turns[g].clears
  {
    hide TurnOk, Accepted, Completed, Abandoned, AfterTerminal, AcceptPending, NativeSet, Matches, Ready, Clears, AcceptClears, CompleteClears, AbandonClears;
  }

  // --------------------------------------------------------- late terminals

  /** The event names its turn in some way. */
  predicate States(e: ControlEvent) {
    e.generation != 0 || e.client != [] || e.native != []
  }

  /** No other turn of the session was given the client id or the native id of g. */
  ghost predicate FreshIds(w: World, g: nat)
    requires g in w.turns
  {
    forall j :: j in w.turns && j != g && w.turns[j].session == w.turns[g].session ==>
      w.turns[j].client != w.turns[g].client && (w.turns[j].native == [] || w.turns[j].native != w.turns[g].native)
  }

  /** A terminal event of a cleared turn that states any of its ids, be it the
      generation, the client id or the native id, has no effect at any later
      time, provided ids other than the generation are not reused. */
  lemma LateTerminalIgnored(w: World, es: seq<Event>, g: nat, e: ControlEvent)
    requires Inv(w) && g in w.turns && w.turns[g].clears == 1 && Belongs(e, g, w.turns[g]) && States(e)
    requires e.generation != 0 || (g in Run(w, es).turns && FreshIds(Run(w, es), g))
    ensures !Attributable(Run(w, es).bindings, e) && Step(Run(w, es), Terminal(e)) == Run(w, es)
  {
    ClearedForever(w, es, g);
    RunInv(w, es);
    NotAttributable(Run(w, es), g, e);
    hide Run, Inv;
  }

  lemma NotAttributable(w: World, g: nat, e: ControlEvent)
    requires Inv(w) && g in w.turns && !IsBound(w.bindings, g, w.turns[g].session) && Belongs(e, g, w.turns[g]) && States(e)
    requires e.generation != 0 || FreshIds(w, g)
    ensures !Attributable(w.bindings, e)
  {
    if e.session in w.bindings {
      var j := w.bindings[e.session].binding.generation;
      assert TurnOk(w.bindings, j, w.turns[j]);
    }
  }

  /** An event that states no id is taken for the terminal of whatever turn the
      session has next: once that is accepted, the event is released against it. */
  lemma IdlessHitsNextTurn(w: World, s: Text, c: Text, l: Lifecycle)
    requires Inv(w) && s != [] && c != [] && s !in w.bindings
    ensures var g := w.counter + 1;
      var t := Step(Step(w, Begin(s, c)), Accept(g));
      && Ready(t.bindings, ControlEvent(s, 0, [], [], l)) && t.bindings[s].binding == Binding(g, c, [])
      && g in t.turns && t.turns[g].session == s && t.turns[g].client == c
  {
  }

  /** Exactly the events that state an id are safe: a terminal event of a
      cleared turn is never attributed to another turn, over all continuations
      with ids that are not reused, if and only if it states one of its ids. */
  lemma IsolationExact(w: World, g: nat, e: ControlEvent)
    requires Inv(w) && g in w.turns && w.turns[g].clears == 1 && Belongs(e, g, w.turns[g]) && FreshIds(w, g)
    ensures (forall es :: g in Run(w, es).turns && FreshIds(Run(w, es), g) ==> !Attributable(Run(w, es).bindings, e)) <==> States(e)
  {
    if States(e) {
      forall es | g in Run(w, es).turns && FreshIds(Run(w, es), g) ensures !Attributable(Run(w, es).bindings, e) {
        LateTerminalIgnored(w, es, g, e);
      }
    } else {
      var es := Intruder(w, g, e);
      assert Attributable(Run(w, es).bindings, e);
    }
  }

  lemma Intruder(w: World, g: nat, e: ControlEvent) returns (es: seq<Event>)
    requires Inv(w) && g in w.turns && Belongs(e, g, w.turns[g]) && FreshIds(w, g) && !States(e)
    ensures g in Run(w, es).turns && FreshIds(Run(w, es), g) && Attributable(Run(w, es).bindings, e)
  {
    if e.session in w.bindings { return []; }
    var c := w.turns[g].client + [0];
    assert |c| == |w.turns[g].client| + 1 && e.session != [] by { assert TurnOk(w.bindings, g, w.turns[g]); }
    es := [Begin(e.session, c)];
    assert es[1..] == [];
    var w' := Step(w, es[0]);
    assert Run(w, es) == Run(w', []) == w';
    assert w'.turns == w.turns[w.counter + 1 := w'.turns[w.counter + 1]] && w'.turns[w.counter + 1].native == [];
  }

  lemma {:induction false} RunAppend(w: World, es: seq<Event>, e: Event)
    ensures Run(w, es + [e]) == Step(Run(w, es), e)
    decreases |es|
  {
    hide Step;
    if es == [] {
      assert [e][1..] == [] && [] + [e] == [e];
    } else {
      assert (es + [e])[1..] == es[1..] + [e] && (es + [e])[0] == es[0];
      RunAppend(Step(w, es[0]), es[1..], e);
    }
  }

  const RACER := ControlEvent([1], 1, [2], [], Success)

  function Times(n: nat): multiset<Release> {
    if n == 0 then multiset{} else Times(n - 1) + multiset{Release(Binding(1, [2], []), RACER)}
  }

  /** One accepted turn with n terminals on their way to clearMatching. */
  function Racing(n: nat): World {
    World(map[[1] := Turn(Binding(1, [2], []), true, false, false, None)], 1,
          map[1 := History([1], [2], TurnAccepted, false, [], None, Times(n), 0, n)])
  }

  lemma RaceStarts()
    ensures Step(Step(Initial(), Begin([1], [2])), Accept(1)) == Racing(0)
  {
    var w := Step(Initial(), Begin([1], [2]));
    assert w.bindings == map[[1] := Turn(Binding(1, [2], []), false, false, false, None)];
    assert w.turns == map[1 := History([1], [2], Undecided, false, [], None, multiset{}, 0, 0)];
  }

  lemma RaceGoesOn(n: nat)
    ensures Step(Racing(n), Terminal(RACER)) == Racing(n + 1)
  {
    assert Times(n + 1) == Times(n) + multiset{Release(Binding(1, [2], []), RACER)};
  }

  /** Racing copies of one terminal event are all released when each is looked
      up before the first clears, however many there are. */
  lemma {:induction false} RacingTerminals(n: nat) returns (es: seq<Event>)
    ensures Run(Initial(), es) == Racing(n) && Racing(n).turns[1].released == n
    decreases n
  {
    if n == 0 {
      var begin := [Begin([1], [2])];
      RaceStarts();
      RunAppend(Initial(), [], Begin([1], [2]));
      RunAppend(Initial(), [] + begin, Accept(1));
      es := [] + begin + [Accept(1)];
    } else {
      var before := RacingTerminals(n - 1);
      RaceGoesOn(n - 1);
      RunAppend(Initial(), before, Terminal(RACER));
      es := before + [Terminal(RACER)];
    }
  }
}
