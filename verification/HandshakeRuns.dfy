/** Runs of the commit handshake, and the steps of which they are made. */
module HandshakeRuns {
  import opened Durable
  import opened CommitHandshake
  import D = Dispatch
  import J = JournalModel
  import O = DispatchOutcomes

  /** A phone's prompt as the relay registers it; open or sealed, own names or not. */
  datatype Registration = Registration(client: Text, session: Text, sealed: bool, named: Text)

  function RowOf(w: Registration): Row {
    Row(w.session, w.sealed, if w.sealed then w.named else w.client, false, false)
  }

  function Registering(w: Registration): Event {
    Register(w.client, w.session, w.sealed, w.named)
  }

  function Executing(x: Key, prompt: Text): seq<Event> {
    [Daemon(D.ArriveDirect(x, prompt, x, 1, Saved)),
     Daemon(D.Proceed(x.session, D.AdapterReturns(D.Delivered))),
     Daemon(D.Proceed(x.session, D.Settle(2, Saved)))]
  }

  function Acknowledging(x: Key): seq<Event> {
    [Acknowledge(x), AcceptFrame(x, true, 0)]
  }

  lemma RunOne(c: D.Config, s: State, a: Event, es: seq<Event>)
    ensures Run(c, s, [a] + es) == Run(c, Step(c, s, a), es)
  {
    assert ([a] + es)[1..] == es;
  }

  lemma RunThree(c: D.Config, s: State, a: Event, b: Event, d: Event)
    ensures Run(c, s, [a, b, d]) == Step(c, Step(c, Step(c, s, a), b), d)
  {
    assert [a, b, d] == [a] + ([b] + ([d] + []));
    RunOne(c, s, a, [b] + ([d] + []));
    RunOne(c, Step(c, s, a), b, [d] + []);
    RunOne(c, Step(c, Step(c, s, a), b), d, []);
    hide Step;
  }

  lemma RunTwo(c: D.Config, s: State, a: Event, b: Event)
    ensures Run(c, s, [a, b]) == Step(c, Step(c, s, a), b)
  {
    assert [a, b] == [a] + ([b] + []);
    RunOne(c, s, a, [b] + []);
    RunOne(c, Step(c, s, a), b, []);
    hide Step;
  }

  lemma {:induction false} RunOn(c: D.Config, s: State, es: seq<Event>, fs: seq<Event>)
    ensures Run(c, s, es + fs) == Run(c, Run(c, s, es), fs)
    decreases |es|
  {
    hide Step;
    if es == [] {
      assert es + fs == fs;
    } else {
      assert (es + fs)[0] == es[0] && (es + fs)[1..] == es[1..] + fs;
      RunOn(c, Step(c, s, es[0]), es[1..], fs);
    }
  }

  lemma Executes(c: D.Config, s: State, x: Key, prompt: Text)
    requires J.ValidIds(c.rules, x) && c.max > 0 && s.daemon == D.Initial() && x in s.prompts
    ensures var t := Run(c, s, Executing(x, prompt));
      && t.daemon.crossed == multiset{x} && O.OnRecord(t.daemon.jmem, x, J.Accepted) && x in t.known
      && t.daemon.up && t.daemon.attempts == map[]
      && t.rows == s.rows && t.workers == s.workers && t.toRelay == s.toRelay
  {
    RunThree(c, s, Daemon(D.ArriveDirect(x, prompt, x, 1, Saved)), Daemon(D.Proceed(x.session, D.AdapterReturns(D.Delivered))),
             Daemon(D.Proceed(x.session, D.Settle(2, Saved))));
    O.DirectOutcome(c, D.Initial(), x, prompt, x, D.Delivered);
    hide D.Step, Run, J.ValidIds;
  }

  lemma Acknowledges(c: D.Config, s: State, x: Key)
    requires x in s.known && x.client in s.rows && s.workers == map[]
    ensures var t := Run(c, s, Acknowledging(x));
      && t.daemon == s.daemon && t.known == s.known && t.rows == s.rows[x.client := s.rows[x.client].(accepted := true)]
      && t.workers == map[0 := Worker(x.client, s.rows[x.client].session, s.rows[x.client].sealed, Looked)]
  {
    RunTwo(c, s, Acknowledge(x), AcceptFrame(x, true, 0));
    hide Run;
  }
}
