/** Commits are sent before they are marked, and they can always get through. */
module CommitDelivery {
  import opened Durable
  import opened CommitHandshake
  import opened CommitSafety
  import opened HandshakeRuns
  import D = Dispatch
  import J = JournalModel
  import O = DispatchOutcomes

  // --------------------------------------------------- sent before it is marked

  ghost predicate SentFirst(s: State) {
    && (forall r :: r in s.rows && s.rows[r].committed ==> Key(s.rows[r].session, r) in s.toDaemon)
    && (forall w :: w in s.workers ==>
          && s.workers[w].client in s.rows && s.rows[s.workers[w].client].session == s.workers[w].session
          && (s.workers[w].stage == Notified ==> Name(s.workers[w]) in s.toDaemon))
  }

  lemma StepSentFirst(c: D.Config, s: State, e: Event)
    requires SentFirst(s)
    ensures SentFirst(Step(c, s, e))
  {
    hide D.Step, Learned, Sent, Accepting, Repeating, Replaying, Persisting, Sending, Committing, Telling;
    match e
    case AcceptFrame(k, takes, w) => AcceptingSentFirst(s, k, takes, w);
    case Duplicate(client, sealed, w) => RepeatingSentFirst(s, client, sealed, w);
    case Replay(client, w) => RepeatingSentFirst(s, client, false, w);
    case Persist(w, ok) => SavingSentFirst(s, w, ok, ok);
    case Send(w, leaves, ok) => SavingSentFirst(s, w, leaves, ok);
    case MarkCommitted(w, ok) => MarkingSentFirst(s, w, ok);
    case Tell(w) => MarkingSentFirst(s, w, true);
    case _ =>
  }

  lemma AcceptingSentFirst(s: State, k: Key, takes: bool, w: nat)
    requires SentFirst(s)
    ensures SentFirst(Accepting(s, k, takes, w))
  {
  }

  lemma RepeatingSentFirst(s: State, client: Text, sealed: bool, w: nat)
    requires SentFirst(s)
    ensures SentFirst(Repeating(s, client, sealed, w)) && SentFirst(Replaying(s, client, w))
  {
  }

  lemma SavingSentFirst(s: State, w: nat, leaves: bool, ok: bool)
    requires SentFirst(s)
    ensures SentFirst(Persisting(s, w, ok)) && SentFirst(Sending(s, w, leaves, ok))
  {
  }

  lemma MarkingSentFirst(s: State, w: nat, ok: bool)
    requires SentFirst(s)
    ensures SentFirst(Committing(s, w, ok)) && SentFirst(Telling(s, w))
  {
  }

  lemma {:induction false} RunSentFirst(c: D.Config, s: State, es: seq<Event>)
    requires SentFirst(s)
    ensures SentFirst(Run(c, s, es))
    decreases |es|
  {
    hide SentFirst, Step;
    if es != [] {
      StepSentFirst(c, s, es[0]);
      RunSentFirst(c, Step(c, s, es[0]), es[1..]);
    }
  }

  /** In every run: a row that is marked committed, and so is not replayed any
      more, had its commit put on the channel, and so had the prompt of every
      goroutine that is about to mark one. */
  lemma MarkedWasSent(c: D.Config, es: seq<Event>)
    ensures var s := Run(c, Initial(), es);
      && (forall r :: r in s.rows && s.rows[r].committed ==> Key(s.rows[r].session, r) in s.toDaemon)
      && (forall w :: w in s.workers && s.workers[w].stage == Notified ==> Key(s.workers[w].session, s.workers[w].client) in s.toDaemon)
  {
    RunSentFirst(c, Initial(), es);
  }

  // ------------------------------------------------------- commits get through

  /** The daemon is up, holds k as accepted, and nothing holds the session's lock. */
  ghost predicate Ready(c: D.Config, d: D.State, k: Key) {
    d.up && !D.Locked(d, k.session) && O.OnRecord(d.jmem, k, J.Accepted) && J.ValidIds(c.rules, k)
  }

  /** A commit frame makes an accepted record a committed one, in memory and on file. */
  lemma FrameCommits(c: D.Config, d: D.State, k: Key)
    requires Ready(c, d, k)
    ensures var t := D.Step(c, d, D.CommitFrame(k, 3, Saved));
      && O.OnRecord(t.jmem, k, J.Committed) && t.jdisk == t.jmem && t.jmem.Keys == d.jmem.Keys && t.crossed == d.crossed
      && forall j :: j in d.jmem && j != k ==> t.jmem[j] == d.jmem[j]
  {
    hide J.ValidIds;
  }

  /** Worker w saves the message and sends the commit, the daemon takes it, and w
      marks the row and tells the phones. */
  ghost function Saving(c: D.Config, s: State, w: nat): State {
    Step(c, Step(c, s, Persist(w, true)), Send(w, true, true))
  }

  ghost function Marking(c: D.Config, s: State, w: nat): State {
    Step(c, Step(c, s, MarkCommitted(w, true)), Tell(w))
  }

  function Following(k: Key, w: nat): seq<Event> {
    [Persist(w, true), Send(w, true, true)] + [Daemon(D.CommitFrame(k, 3, Saved))] + [MarkCommitted(w, true), Tell(w)]
  }

  lemma Follows(c: D.Config, s: State, k: Key, w: nat)
    ensures Run(c, s, Following(k, w)) == Marking(c, Step(c, Saving(c, s, w), Daemon(D.CommitFrame(k, 3, Saved))), w)
  {
    var a, b, d := [Persist(w, true), Send(w, true, true)], [Daemon(D.CommitFrame(k, 3, Saved))], [MarkCommitted(w, true), Tell(w)];
    RunOn(c, s, a + b, d);
    RunOn(c, s, a, b);
    RunTwo(c, s, a[0], a[1]);
    RunOne(c, Run(c, s, a), b[0], []);
    assert b == [b[0]] + [];
    RunTwo(c, Run(c, s, a + b), d[0], d[1]);
    hide Step, Run;
  }

  lemma Saves(c: D.Config, s: State, w: nat)
    requires w in s.workers && s.workers[w].stage.Looked?
    ensures var t, x := Saving(c, s, w), s.workers[w];
      && t.daemon == s.daemon && t.rows == s.rows && t.acks == s.acks
      && t.workers == s.workers[w := x.(stage := Notified)] && Name(x) in t.toDaemon
      && (x.sealed || Name(x) in t.saved)
  {
    hide D.Step;
  }

  lemma Marks(c: D.Config, s: State, w: nat)
    requires w in s.workers && s.workers[w].stage.Notified? && s.workers[w].client in s.rows
    ensures var t, x := Marking(c, s, w), s.workers[w];
      && t.daemon == s.daemon && t.saved == s.saved && t.rows == s.rows[x.client := s.rows[x.client].(committed := true)]
      && t.acks == (if x.sealed then s.acks else s.acks + {Name(x)})
  {
    hide D.Step;
  }

  /** k is committed on both sides, and its message is in the history unless it is sealed. */
  predicate Concluded(s: State, k: Key) {
    && O.OnRecord(s.daemon.jmem, k, J.Committed) && s.daemon.jdisk == s.daemon.jmem
    && k.client in s.rows && s.rows[k.client].session == k.session && s.rows[k.client].committed
    && (s.rows[k.client].sealed || k in s.saved)
  }

  lemma FollowUp(c: D.Config, s: State, k: Key, w: nat)
    requires Ready(c, s.daemon, k) && k.client in s.rows
    requires w in s.workers && s.workers[w] == Worker(k.client, k.session, s.rows[k.client].sealed, Looked)
    requires s.rows[k.client].session == k.session
    ensures var t := Run(c, s, Following(k, w)); Concluded(t, k) && (s.rows[k.client].sealed || k in t.acks) && t.daemon.crossed == s.daemon.crossed
  {
    Follows(c, s, k, w);
    Saves(c, s, w);
    var u := Saving(c, s, w);
    FrameCommits(c, u.daemon, k);
    var v := Step(c, u, Daemon(D.CommitFrame(k, 3, Saved)));
    assert v.daemon == D.Step(c, u.daemon, D.CommitFrame(k, 3, Saved)) && v.rows == u.rows && v.workers == u.workers && v.saved == u.saved;
    hide D.Step, Saving, Step, Run, Following, Ready;
    Marks(c, v, w);
    hide Marking;
  }

  /** A reconnect starts a worker for an accepted row that is not committed. */
  lemma Replays(c: D.Config, s: State, k: Key, w: nat)
    requires RowAccepted(s, k) && !s.rows[k.client].committed && w !in s.workers
    ensures var t := Step(c, s, Replay(k.client, w));
      && t == s.(workers := s.workers[w := Worker(k.client, k.session, s.rows[k.client].sealed, Looked)])
  {
    hide D.Step;
  }

  /** A repeated prompt that matches its accepted row starts one as well, a
      sealed one already past the history; one that does not match starts none. */
  lemma Repeats(c: D.Config, s: State, k: Key, sealed: bool, w: nat)
    requires RowAccepted(s, k) && w !in s.workers
    ensures Step(c, s, Duplicate(k.client, sealed, w))
            == if s.rows[k.client].sealed != sealed then s
               else s.(workers := s.workers[w := Worker(k.client, k.session, sealed, if sealed then Healed else Looked)])
  {
    hide D.Step;
  }

  lemma Again(c: D.Config, s: State, k: Key)
    requires Ready(c, s.daemon, k) && RowAccepted(s, k) && s.rows[k.client].committed && k in s.toDaemon && Safe(s, k)
    ensures Concluded(Run(c, s, [Daemon(D.CommitFrame(k, 3, Saved))]), k)
  {
    RunOne(c, s, Daemon(D.CommitFrame(k, 3, Saved)), []);
    assert [Daemon(D.CommitFrame(k, 3, Saved))] == [Daemon(D.CommitFrame(k, 3, Saved))] + [];
    FrameCommits(c, s.daemon, k);
    hide D.Step, Ready;
  }

  lemma Identifies(c: D.Config, es: seq<Event>, k: Key)
    ensures var s := Run(c, Initial(), es); O.OnRecord(s.daemon.jmem, k, J.Accepted) ==> J.ValidIds(c.rules, k)
  {
    assert Identified(c, Initial());
    RunIdentified(c, Initial(), es);
    hide Run, J.ValidIds;
  }

  lemma FreshWorker(s: State) returns (w: nat)
    ensures w !in s.workers
  {
    w := Largest(s.workers.Keys);
  }

  lemma Largest(ws: set<nat>) returns (n: nat)
    ensures forall w :: w in ws ==> w < n
  {
    n := 0;
    if w :| w in ws {
      var m := Largest(ws - {w});
      assert forall x :: x in ws ==> x == w || x in ws - {w};
      n := if m > w then m else w + 1;
    }
  }

  /** No reachable state is beyond repair: whatever was lost or crashed before, an
      accepted row whose record the daemon still holds as accepted can become
      committed on both sides, with its message in the history, as soon as the
      daemon is up and the session is not dispatching. */
  lemma CommitHeals(c: D.Config, es: seq<Event>, k: Key) returns (more: seq<Event>)
    requires var s := Run(c, Initial(), es);
      RowAccepted(s, k) && s.daemon.up && !D.Locked(s.daemon, k.session) && O.OnRecord(s.daemon.jmem, k, J.Accepted)
    ensures Concluded(Run(c, Initial(), es + more), k)
  {
    var s := Run(c, Initial(), es);
    Identifies(c, es, k);
    if s.rows[k.client].committed {
      MarkedWasSent(c, es);
      RunInv(c, Initial(), es);
      more := [Daemon(D.CommitFrame(k, 3, Saved))];
      RunOn(c, Initial(), es, more);
      hide Run;
      Again(c, s, k);
    } else {
      var w := FreshWorker(s);
      more := [Replay(k.client, w)] + Following(k, w);
      RunOn(c, Initial(), es, more);
      hide Following, Run;
      RunOne(c, s, Replay(k.client, w), Following(k, w));
      Replays(c, s, k, w);
      FollowUp(c, Step(c, s, Replay(k.client, w)), k, w);
    }
  }

  function Opening(own: Registration): seq<Event> {
    [Registering(own), Forward(own.client)]
  }

  function Whole(own: Registration, k: Key, prompt: Text): seq<Event> {
    Opening(own) + Executing(k, prompt) + Acknowledging(k) + Following(k, 0)
  }

  /** And the whole way exists: every prompt with valid ids, open or sealed under
      its own name, can be executed once, accepted, committed on both sides and,
      when open, reported to the phones. */
  lemma CommitHappens(c: D.Config, k: Key, own: Registration, prompt: Text)
    requires c.max > 0 && J.ValidIds(c.rules, k) && own.client == k.client && own.session == k.session
    requires own.sealed ==> own.named == k.client
    ensures var s := Run(c, Initial(), Whole(own, k, prompt));
      Concluded(s, k) && s.daemon.crossed[k] == 1 && (own.sealed || k in s.acks)
  {
    var begin := Opening(own);
    RunOn(c, Initial(), begin + Executing(k, prompt) + Acknowledging(k), Following(k, 0));
    RunOn(c, Initial(), begin + Executing(k, prompt), Acknowledging(k));
    RunOn(c, Initial(), begin, Executing(k, prompt));
    var s := Run(c, Initial(), begin);
    Opens(c, k, own);
    hide Opening, Executing, Acknowledging, Following, Step, Run;
    Executes(c, s, k, prompt);
    var t := Run(c, s, Executing(k, prompt));
    Acknowledges(c, t, k);
    var u := Run(c, t, Acknowledging(k));
    assert Ready(c, u.daemon, k);
    hide Ready, Concluded;
    FollowUp(c, u, k, 0);
  }

  lemma Opens(c: D.Config, k: Key, own: Registration)
    requires own.client == k.client && own.session == k.session && (own.sealed ==> own.named == k.client)
    ensures var s := Run(c, Initial(), Opening(own));
      && s.rows == map[k.client := RowOf(own)] && k in s.prompts && s.workers == map[] && s.daemon == D.Initial()
  {
    RunTwo(c, Initial(), Registering(own), Forward(k.client));
    hide Run, D.Step;
  }
}
