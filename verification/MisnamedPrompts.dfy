/** How a sealed envelope that names another client id inside gets the wrong relay
    row accepted, relaycore/websocket.go and daemon/cmd/daemon/main.go. */
module MisnamedPrompts {
  import opened Durable
  import opened CommitHandshake
  import opened CommitSafety
  import opened HandshakeRuns
  import D = Dispatch
  import J = JournalModel

  /** Two prompts become rows, and the second one leaves for the daemon. */
  function Preparing(own: Registration, w: Registration): seq<Event> {
    [Registering(own), Registering(w), Forward(w.client)]
  }

  lemma Prepares(c: D.Config, own: Registration, w: Registration)
    requires w.client != own.client
    ensures var s := Run(c, Initial(), Preparing(own, w));
      && s.daemon == D.Initial() && s.prompts == {Filed(RowOf(w))} && s.workers == map[] && s.toRelay == {}
      && s.rows == map[own.client := RowOf(own), w.client := RowOf(w)]
  {
    RunThree(c, Initial(), Registering(own), Registering(w), Forward(w.client));
    hide D.Step, Run;
  }

  /** The registration makes a row that misleads the daemon about k. */
  predicate Clashes(c: D.Config, w: Registration, k: Key) {
    Misleads(c, w.client, RowOf(w), k)
  }

  function Failing(own: Registration, w: Registration, prompt: Text): seq<Event> {
    var x := Filed(RowOf(w));
    Preparing(own, w) + Executing(x, prompt) + Acknowledging(x)
  }

  /** Beside a registration that clashes, the row of k can be accepted although
      no prompt with its session and client id was executed; k's own row may be
      open or sealed. */
  lemma MisnamedAccepts(c: D.Config, k: Key, own: Registration, w: Registration, prompt: Text)
    requires c.max > 0 && own.client == k.client && own.session == k.session && Clashes(c, w, k)
    ensures var s := Run(c, Initial(), Failing(own, w, prompt)); RowAccepted(s, k) && s.daemon.crossed[k] == 0
  {
    var x := Filed(RowOf(w));
    RunOn(c, Initial(), Preparing(own, w) + Executing(x, prompt), Acknowledging(x));
    RunOn(c, Initial(), Preparing(own, w), Executing(x, prompt));
    Prepares(c, own, w);
    Executes(c, Run(c, Initial(), Preparing(own, w)), x, prompt);
    Acknowledges(c, Run(c, Run(c, Initial(), Preparing(own, w)), Executing(x, prompt)), x);
    hide Run, Preparing, Executing, Acknowledging;
  }

  /** Every prompt that the phones send in es is one of ws. */
  ghost predicate Only(es: seq<Event>, ws: set<Registration>) {
    forall e :: e in es && e.Register? ==> Registration(e.client, e.session, e.sealed, e.named) in ws
  }

  /** Every row was made by one of ws. */
  ghost predicate MadeBy(s: State, ws: set<Registration>) {
    forall r :: r in s.rows ==> RowFrom(r, s.rows[r], ws)
  }

  ghost predicate RowFrom(r: Text, row: Row, ws: set<Registration>) {
    exists w :: w in ws && w.client == r && RowOf(w) == row.(accepted := false, committed := false)
  }

  lemma StepMadeBy(c: D.Config, s: State, e: Event, ws: set<Registration>)
    requires MadeBy(s, ws) && (e.Register? ==> Registration(e.client, e.session, e.sealed, e.named) in ws)
    ensures MadeBy(Step(c, s, e), ws)
  {
    hide D.Step;
    var t := Step(c, s, e);
    StepGrows(c, s, e);
    if e.Register? && e.client !in s.rows {
      assert RowOf(Registration(e.client, e.session, e.sealed, e.named)) == t.rows[e.client];
      assert RowFrom(e.client, t.rows[e.client], ws);
    }
    forall r | r in s.rows ensures r in t.rows && RowFrom(r, t.rows[r], ws) {
      assert RowFrom(r, s.rows[r], ws);
      assert t.rows[r].(accepted := false, committed := false) == s.rows[r].(accepted := false, committed := false);
    }
    hide RowFrom;
  }

  lemma {:induction false} RunMadeBy(c: D.Config, s: State, es: seq<Event>, ws: set<Registration>)
    requires MadeBy(s, ws) && Only(es, ws)
    ensures MadeBy(Run(c, s, es), ws)
    decreases |es|
  {
    hide Step, MadeBy;
    if es != [] {
      assert es[0] in es && forall e :: e in es[1..] ==> e in es;
      StepMadeBy(c, s, es[0], ws);
      RunMadeBy(c, Step(c, s, es[0]), es[1..], ws);
    }
  }

  lemma MisnamedClashes(c: D.Config, s: State, ws: set<Registration>, k: Key)
    requires MadeBy(s, ws) && Misnamed(c, s, k)
    ensures exists w :: w in ws && Clashes(c, w, k)
  {
    var r :| r in s.rows && Misleads(c, r, s.rows[r], k);
    assert RowFrom(r, s.rows[r], ws);
    var w :| w in ws && w.client == r && RowOf(w) == s.rows[r].(accepted := false, committed := false);
    assert Clashes(c, w, k);
  }

  /** An accepted row of k means that a prompt with k's session and client id was
      executed. */
  ghost predicate Trusted(s: State, k: Key) {
    RowAccepted(s, k) ==> s.daemon.crossed[k] >= 1
  }

  /** Exactly when acceptance can be trusted: whatever prompts ws the phones send,
      k's own among them, acceptance of k's row means execution in every run if
      and only if none of ws is a sealed prompt of another session and row whose
      envelope carries k's client id and valid identifiers. */
  lemma AcceptanceExact(c: D.Config, k: Key, own: Registration, ws: set<Registration>)
    requires c.max > 0 && own in ws && own.client == k.client && own.session == k.session
    ensures (forall es :: Only(es, ws) ==> Trusted(Run(c, Initial(), es), k)) <==> (forall w :: w in ws ==> !Clashes(c, w, k))
  {
    if w :| w in ws && Clashes(c, w, k) {
      MisnamedAccepts(c, k, own, w, []);
      FailingOnly(own, w, ws);
      assert !Trusted(Run(c, Initial(), Failing(own, w, [])), k);
    } else {
      forall es | Only(es, ws) ensures Trusted(Run(c, Initial(), es), k) {
        AcceptedWasExecuted(c, es, k);
        RunMadeBy(c, Initial(), es, ws);
        if Misnamed(c, Run(c, Initial(), es), k) { MisnamedClashes(c, Run(c, Initial(), es), ws, k); }
      }
    }
  }

  lemma FailingOnly(own: Registration, w: Registration, ws: set<Registration>)
    requires own in ws && w in ws
    ensures Only(Failing(own, w, []), ws)
  {
    assert Registration(own.client, own.session, own.sealed, own.named) == own;
    assert Registration(w.client, w.session, w.sealed, w.named) == w;
  }
}
