/** turnTracker of daemon/internal/adapters/control_tracker.go: process exits
    are attributed to the generation whose binding they remove. */
module TurnTracker {
  import opened Durable

  datatype Exit = Exit(code: int, interrupted: bool)
  datatype Tracked = Tracked(generation: nat, client: Text, accepted: bool, terminal: Option<Exit>)
  datatype Outcome = Success | Failure | Interrupted
  datatype Emission = Emission(session: Text, generation: nat, client: Text, outcome: Outcome)

  type Trackings = map<Text, Tracked>

  function OutcomeOf(x: Exit): Outcome {
    if x.interrupted then Interrupted else if x.code != 0 then Failure else Success
  }

  function Begun(b: Trackings, s: Text, g: nat, c: Text): Trackings {
    if s in b then b else b[s := Tracked(g, c, false, None)]
  }

  function Aborted(b: Trackings, s: Text, g: nat): Trackings {
    if s in b && b[s].generation == g then b - {s} else b
  }

  predicate Accepts(b: Trackings, s: Text, g: nat) {
    s in b && b[s].generation == g
  }

  function AcceptedBy(b: Trackings, s: Text, g: nat): Trackings {
    if Accepts(b, s, g) then b[s := b[s].(accepted := true, terminal := None)] else b
  }

  /** finish holds the exit until acceptance, and otherwise removes the binding. */
  function FinishedBy(b: Trackings, s: Text, x: Exit): Trackings {
    if s !in b then b
    else if !b[s].accepted then b[s := b[s].(terminal := Some(x))]
    else b - {s}
  }

  function FinishEmits(b: Trackings, s: Text, x: Exit): Option<Emission> {
    if s in b && b[s].accepted then Some(Emission(s, b[s].generation, b[s].client, OutcomeOf(x))) else None
  }

  class Tracker {
    var bindings: Trackings
    var sent: seq<Emission>

    constructor ()
      ensures bindings == map[] && sent == []
    {
      bindings, sent := map[], [];
    }

    method Begin(s: Text, g: nat, c: Text) returns (ok: bool)
      modifies this`bindings
      ensures ok == (s !in old(bindings)) && bindings == Begun(old(bindings), s, g, c)
    {
      if s in bindings { return false; }
      bindings := bindings[s := Tracked(g, c, false, None)];
      ok := true;
    }

    method Abort(s: Text, g: nat)
      modifies this`bindings
      ensures bindings == Aborted(old(bindings), s, g)
    {
      if s in bindings && bindings[s].generation == g { bindings := bindings - {s}; }
    }

    method Finish(s: Text, x: Exit)
      modifies this
      ensures bindings == FinishedBy(old(bindings), s, x)
      ensures sent == old(sent) + (match FinishEmits(old(bindings), s, x) case None => [] case Some(e) => [e])
    {
      if s !in bindings { return; }
      var binding := bindings[s];
      if !binding.accepted {
        bindings := bindings[s := binding.(terminal := Some(x))];
        return;
      }
      bindings := bindings - {s};
      var outcome := if x.interrupted then Interrupted else if x.code != 0 then Failure else Success;
      sent := sent + [Emission(s, binding.generation, binding.client, outcome)];
    }

    /** accepted without interference: a held exit is finished at once. */
    method Accept(s: Text, g: nat)
      modifies this
      ensures !Accepts(old(bindings), s, g) ==> bindings == old(bindings) && sent == old(sent)
      ensures Accepts(old(bindings), s, g) && old(bindings)[s].terminal.None? ==>
                bindings == AcceptedBy(old(bindings), s, g) && sent == old(sent)
      ensures Accepts(old(bindings), s, g) && old(bindings)[s].terminal.Some? ==>
                bindings == old(bindings) - {s}
                && sent == old(sent) + [Emission(s, g, old(bindings)[s].client, OutcomeOf(old(bindings)[s].terminal.value))]
    {
      if s !in bindings || bindings[s].generation != g { return; }
      var pending := bindings[s].terminal;
      bindings := bindings[s := bindings[s].(accepted := true, terminal := None)];
      if pending.Some? { Finish(s, pending.value); }
    }
  }

  // ------------------------------------------------------- all interleavings

  /** owed are the exits that accepted took out and still has to finish;
      begun are the generations whose begin succeeded, and drawn those that any
      begin was called with; sent are the emissions. */
  datatype World = World(bindings: Trackings, owed: multiset<(Text, Exit)>, drawn: set<nat>, begun: set<nat>, sent: seq<Emission>)

  datatype Event =
    | BeginTurn(session: Text, generation: nat, client: Text)
    | AbortTurn(session: Text, generation: nat)
    | AcceptTurn(session: Text, generation: nat)
    | Exits(session: Text, exit: Exit)
    | FinishOwed(session: Text, exit: Exit)

  function Finishing(w: World, s: Text, x: Exit): World {
    w.(bindings := FinishedBy(w.bindings, s, x),
       sent := match FinishEmits(w.bindings, s, x) case None => w.sent case Some(e) => w.sent + [e])
  }

  /** The daemon's generation counter gives every begin a new generation. */
  function Step(w: World, e: Event): World {
    match e
    case BeginTurn(s, g, c) =>
      if g in w.drawn then w
      else w.(bindings := Begun(w.bindings, s, g, c), drawn := w.drawn + {g}, begun := if s in w.bindings then w.begun else w.begun + {g})
    case AbortTurn(s, g) => w.(bindings := Aborted(w.bindings, s, g))
    case AcceptTurn(s, g) =>
      var t := w.(bindings := AcceptedBy(w.bindings, s, g));
      if Accepts(w.bindings, s, g) && w.bindings[s].terminal.Some? then t.(owed := w.owed + multiset{(s, w.bindings[s].terminal.value)}) else t
    case Exits(s, x) => Finishing(w, s, x)
    case FinishOwed(s, x) =>
      if (s, x) in w.owed then Finishing(w.(owed := w.owed - multiset{(s, x)}), s, x) else w
  }

  function Run(w: World, es: seq<Event>): World
    decreases |es|
  {
    if es == [] then w else Run(Step(w, es[0]), es[1..])
  }

  ghost predicate Inv(w: World) {
    && w.begun <= w.drawn
    && (forall s :: s in w.bindings ==> w.bindings[s].generation in w.begun)
    && (forall s, t :: s in w.bindings && t in w.bindings && w.bindings[s].generation == w.bindings[t].generation ==> s == t)
    && (forall i :: 0 <= i < |w.sent| ==> w.sent[i].generation in w.begun)
    && (forall i, s :: 0 <= i < |w.sent| && s in w.bindings ==> w.sent[i].generation != w.bindings[s].generation)
    && (forall i, j :: 0 <= i < j < |w.sent| ==> w.sent[i].generation != w.sent[j].generation)
  }

  lemma FinishingInv(w: World, s: Text, x: Exit)
    requires Inv(w)
    ensures Inv(Finishing(w, s, x)) && w.sent <= Finishing(w, s, x).sent
  {
  }

  lemma StepInv(w: World, e: Event)
    requires Inv(w)
    ensures Inv(Step(w, e))
    ensures w.sent <= Step(w, e).sent
  {
    hide Finishing;
    match e {
      case Exits(s, x) => FinishingInv(w, s, x);
      case FinishOwed(s, x) => FinishingInv(w.(owed := w.owed - multiset{(s, x)}), s, x);
      case BeginTurn(_, _, _) =>
      case AbortTurn(_, _) =>
      case AcceptTurn(_, _) =>
    }
  }

  lemma {:induction false} RunInv(w: World, es: seq<Event>)
    requires Inv(w)
    ensures Inv(Run(w, es)) && w.sent <= Run(w, es).sent
    decreases |es|
  {
    hide Inv, Step;
    if es != [] {
      StepInv(w, es[0]);
      RunInv(Step(w, es[0]), es[1..]);
    }
  }

  /** However exits, acceptance and aborts interleave, no two terminal events
      carry the same generation, and each carries a generation that was begun. */
  lemma OneTerminalPerBegin(es: seq<Event>, i: nat, j: nat)
    requires i < j < |Run(World(map[], multiset{}, {}, {}, []), es).sent|
    ensures var w := Run(World(map[], multiset{}, {}, {}, []), es);
      w.sent[i].generation != w.sent[j].generation && w.sent[i].generation in w.begun && w.sent[j].generation in w.begun
  {
    RunInv(World(map[], multiset{}, {}, {}, []), es);
  }

  /** What the turn's process end is reported as. */
  ghost predicate Reports(before: World, after: World, s: Text, g: nat, c: Text, x: Exit) {
    && s !in after.bindings && |after.sent| == |before.sent| + 1 && before.sent <= after.sent
    && var e := after.sent[|before.sent|];
       && e.session == s && e.generation == g && e.client == c
       && (e.outcome == Interrupted <==> x.interrupted)
       && (e.outcome == Success <==> !x.interrupted && x.code == 0)
  }

  /** A turn that was begun reports its exit once, as interrupted, failed or
      succeeded, whether the process ends before or after the acceptance. */
  lemma EitherOrder(w: World, s: Text, g: nat, c: Text, x: Exit)
    requires s !in w.bindings && g !in w.drawn
    ensures var b := Step(w, BeginTurn(s, g, c));
      && g in b.begun
      && Reports(w, Step(Step(b, AcceptTurn(s, g)), Exits(s, x)), s, g, c, x)
      && Reports(w, Step(Step(Step(b, Exits(s, x)), AcceptTurn(s, g)), FinishOwed(s, x)), s, g, c, x)
  {
    var b := Step(w, BeginTurn(s, g, c));
    assert b.bindings[s] == Tracked(g, c, false, None);
    var held := Step(b, Exits(s, x));
    assert held.sent == w.sent && held.bindings[s] == Tracked(g, c, false, Some(x));
    var owed := Step(held, AcceptTurn(s, g));
    assert (s, x) in owed.owed && owed.bindings[s] == Tracked(g, c, true, None);
  }

  /** An abort ends the turn it names without a report, and no other. */
  lemma AbortExact(w: World, s: Text, g: nat)
    ensures var t := Step(w, AbortTurn(s, g));
      && t.sent == w.sent && t.owed == w.owed
      && forall u :: (u in t.bindings <==> u in w.bindings && !(u == s && w.bindings[s].generation == g))
                     && (u in t.bindings ==> t.bindings[u] == w.bindings[u])
  {
  }
}
