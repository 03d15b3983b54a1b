/** What the two nodes agree on, whatever the channel and the crashes do. */
module CommitSafety {
  import opened Durable
  import opened JournalTruth
  import opened CommitHandshake
  import D = Dispatch
  import A = AtMostOnce
  import J = JournalModel
  import K = DispatchKeys

  /** What a step adds to the relay is safe to add. */
  ghost predicate Justified(s: State, t: State) {
    && (forall w :: w in t.workers && !(w in s.workers && s.workers[w] == t.workers[w]) ==>
          (RowAccepted(t, Name(t.workers[w])) && t.workers[w].sealed == t.rows[t.workers[w].client].sealed
           && (t.workers[w].stage.Looked? || Safe(t, Name(t.workers[w])))))
    && (forall k :: k in t.toDaemon + t.acks && k !in s.toDaemon + s.acks ==> Safe(t, k))
    && (forall r :: r in t.rows && t.rows[r].committed && !(r in s.rows && s.rows[r].committed) ==> Safe(t, Key(t.rows[r].session, r)))
  }

  lemma RelayKeeps(s: State, t: State)
    requires RelayInv(s) && Grows(s, t) && Justified(s, t)
    ensures RelayInv(t)
  {
    forall k ensures (Safe(s, k) ==> Safe(t, k)) && (RowAccepted(s, k) ==> RowAccepted(t, k)) { SafeStays(s, t, k); }
    forall w | w in t.workers
      ensures RowAccepted(t, Name(t.workers[w])) && t.workers[w].sealed == t.rows[t.workers[w].client].sealed
      ensures !t.workers[w].stage.Looked? ==> Safe(t, Name(t.workers[w]))
    {
      if w in s.workers && s.workers[w] == t.workers[w] {
        assert RowAccepted(s, Name(s.workers[w]));
      }
    }
    hide RowAccepted;
    assert forall k :: k in t.toDaemon || k in t.acks ==> k in t.toDaemon + t.acks;
  }

  lemma BeginJustified(s: State, client: Text, stage: Stage, w: nat)
    requires RelayInv(s) && client in s.rows && s.rows[client].accepted && (stage.Looked? || (stage.Healed? && s.rows[client].sealed))
    ensures RelayInv(Begin(s, client, stage, w))
  {
    var t := Begin(s, client, stage, w);
    assert Grows(s, t);
    assert Justified(s, t);
    RelayKeeps(s, t);
  }

  lemma AcceptingInv(s: State, key: Key, takes: bool, w: nat)
    requires RelayInv(s)
    ensures RelayInv(Accepting(s, key, takes, w))
  {
    var t := Accepting(s, key, takes, w);
    if t != s {
      var m := s.(rows := s.rows[key.client := s.rows[key.client].(accepted := true)]);
      assert Grows(s, m) && Justified(s, m) by { RowKeyUnique(s); }
      RelayKeeps(s, m);
      BeginJustified(m, key.client, Looked, w);
    }
  }

  /** A committed row is safe under its own name. */
  lemma RowKeyUnique(s: State)
    requires RelayInv(s)
    ensures forall r :: r in s.rows && s.rows[r].committed ==> s.rows[r].accepted
  {
    forall r | r in s.rows && s.rows[r].committed ensures s.rows[r].accepted {
      assert Safe(s, Key(s.rows[r].session, r));
    }
  }

  lemma PersistingInv(s: State, w: nat, ok: bool)
    requires RelayInv(s)
    ensures RelayInv(Persisting(s, w, ok))
  {
    var t := Persisting(s, w, ok);
    if t == s { return; }
    assert RowAccepted(s, Name(s.workers[w]));
    assert Grows(s, t);
    assert Justified(s, t);
    hide RelayInv, Justified, Grows, Persisting;
    RelayKeeps(s, t);
  }

  lemma SendingInv(s: State, w: nat, leaves: bool, ok: bool)
    requires RelayInv(s)
    ensures RelayInv(Sending(s, w, leaves, ok))
  {
    var t := Sending(s, w, leaves, ok);
    assert Grows(s, t);
    if InStage(s, w, Healed) {
      var k := Name(s.workers[w]);
      assert Safe(s, k) && RowAccepted(s, k);
      SafeStays(s, t, k);
      assert t.toDaemon <= s.toDaemon + {k};
    }
    assert Justified(s, t);
    RelayKeeps(s, t);
  }

  lemma CommittingInv(s: State, w: nat, ok: bool)
    requires RelayInv(s)
    ensures RelayInv(Committing(s, w, ok))
  {
    var t := Committing(s, w, ok);
    assert Grows(s, t);
    if InStage(s, w, Notified) {
      var k := Name(s.workers[w]);
      assert Safe(s, k);
      SafeStays(s, t, k);
    }
    assert Justified(s, t);
    RelayKeeps(s, t);
  }

  lemma TellingInv(s: State, w: nat)
    requires RelayInv(s)
    ensures RelayInv(Telling(s, w))
  {
    var t := Telling(s, w);
    assert Grows(s, t);
    if w in s.workers && !s.workers[w].stage.Looked? {
      assert Safe(s, Name(s.workers[w]));
      SafeStays(s, t, Name(s.workers[w]));
    }
    assert Justified(s, t);
    RelayKeeps(s, t);
  }

  lemma RelayStep(c: D.Config, s: State, e: Event)
    requires RelayInv(s)
    ensures RelayInv(Step(c, s, e))
  {
    hide RelayInv, Begin, D.Step, Justified;
    match e
    case Daemon(_) => QuietInv(c, s, e);
    case Acknowledge(_) => QuietInv(c, s, e);
    case RelayCrash => QuietInv(c, s, e);
    case Register(_, _, _, _) => QuietInv(c, s, e);
    case Forward(_) => QuietInv(c, s, e);
    case AcceptFrame(k, takes, w) => AcceptingInv(s, k, takes, w);
    case Duplicate(client, sealed, w) =>
      if client in s.rows && s.rows[client].accepted && s.rows[client].sealed == sealed {
        BeginJustified(s, client, if sealed then Healed else Looked, w);
      }
    case Replay(client, w) =>
      if client in s.rows && s.rows[client].accepted { BeginJustified(s, client, Looked, w); }
    case Persist(w, ok) => PersistingInv(s, w, ok);
    case Send(w, leaves, ok) => SendingInv(s, w, leaves, ok);
    case MarkCommitted(w, ok) => CommittingInv(s, w, ok);
    case Tell(w) => TellingInv(s, w);
  }

  lemma QuietInv(c: D.Config, s: State, e: Event)
    requires RelayInv(s) && (e.Daemon? || e.Acknowledge? || e.RelayCrash? || e.Register? || e.Forward?)
    ensures RelayInv(Step(c, s, e))
  {
    StepGrows(c, s, e);
    var t := Step(c, s, e);
    hide D.Step;
    assert Justified(s, t);
    RelayKeeps(s, t);
  }

  /** An accepted row goes back to an acknowledgement with its client id. */
  ghost predicate Backed(s: State, r: Text) {
    exists k :: k in s.toRelay && k.client == r
  }

  ghost predicate DaemonInv(s: State) {
    && A.Inv(s.daemon)
    && (forall k :: Truthful(s.daemon, k) && (Marked(s.daemon, k) ==> k in s.toDaemon))
    && (forall k :: k in s.known ==> s.daemon.crossed[k] >= 1)
  }

  ghost predicate AckInv(s: State) {
    && s.toRelay <= s.known
    && (forall r :: r in s.rows && s.rows[r].accepted ==> Backed(s, r))
  }

  /** A prompt that was forwarded is filed under its row's name. */
  ghost predicate Forwarded(s: State, k: Key) {
    exists r :: r in s.rows && Filed(s.rows[r]) == k
  }

  ghost predicate FrameInv(s: State) {
    && K.Within(s.daemon, s.prompts) && s.known <= s.prompts
    && (forall k :: k in s.prompts ==> Forwarded(s, k))
    && (forall r :: r in s.rows && !s.rows[r].sealed ==> s.rows[r].named == r)
  }

  lemma StaysForwarded(s: State, t: State, k: Key)
    requires Grows(s, t) && Forwarded(s, k)
    ensures Forwarded(t, k)
  {
    var r :| r in s.rows && Filed(s.rows[r]) == k;
    assert r in t.rows && Filed(t.rows[r]) == k;
  }

  lemma FrameStep(c: D.Config, s: State, e: Event)
    requires FrameInv(s)
    ensures FrameInv(Step(c, s, e))
  {
    hide D.Step, K.Within, Forwarded, Learned, Grows;
    var t := Step(c, s, e);
    StepGrows(c, s, e);
    forall k | Forwarded(s, k) ensures Forwarded(t, k) { StaysForwarded(s, t, k); }
    if e.Daemon? && Sent(s, e.e) {
      K.StepWithin(c, s.daemon, e.e, s.prompts);
      LearnedWithin(t.daemon, s.prompts);
    } else if e.Forward? && e.client in s.rows {
      RowForwarded(t, e.client);
      K.MoreKeys(s.daemon, s.prompts, t.prompts);
    }
  }

  lemma RowForwarded(s: State, r: Text)
    requires r in s.rows
    ensures Forwarded(s, Filed(s.rows[r]))
  {
  }

  lemma LearnedWithin(d: D.State, ks: set<Key>)
    requires K.Within(d, ks)
    ensures Learned(d.jmem) <= ks
  {
  }

  ghost predicate Inv(s: State) { RelayInv(s) && DaemonInv(s) && AckInv(s) && FrameInv(s) }

  lemma LearnedCrossed(d: D.State, k: Key)
    requires Truthful(d, k) && k in Learned(d.jmem)
    ensures d.crossed[k] >= 1
  {
  }

  lemma DaemonInvStep(c: D.Config, s: State, e: D.Event)
    requires DaemonInv(s) && Sent(s, e)
    ensures DaemonInv(DaemonStep(c, s, e))
  {
    var t := DaemonStep(c, s, e);
    A.StepInv(c, s.daemon, e);
    forall k
      ensures Truthful(t.daemon, k) && (Marked(t.daemon, k) ==> k in t.toDaemon) && (k in t.known ==> t.daemon.crossed[k] >= 1)
    {
      StepTruth(c, s.daemon, e, k);
      StepMarks(c, s.daemon, e, k);
      CrossedGrows(c, s.daemon, e, k);
      hide Truthful, Marked, D.Step, A.Inv;
      if k in Learned(t.daemon.jmem) { LearnedCrossed(t.daemon, k); }
    }
    hide Truthful, Marked, A.Inv, D.Step;
  }

  lemma OtherSteps(c: D.Config, s: State, e: Event)
    requires DaemonInv(s) && !e.Daemon?
    ensures DaemonInv(Step(c, s, e))
  {
    hide Truthful, Marked, A.Inv;
  }

  lemma AckStep(c: D.Config, s: State, e: Event)
    requires AckInv(s)
    ensures AckInv(Step(c, s, e))
  {
    var t := Step(c, s, e);
    hide D.Step;
    forall r | Backed(s, r) ensures Backed(t, r) {}
    if e.AcceptFrame? && e.key in s.toRelay { assert Backed(t, e.key.client); }
    hide Backed, Learned;
  }

  lemma StepInv(c: D.Config, s: State, e: Event)
    requires Inv(s)
    ensures Inv(Step(c, s, e))
  {
    RelayStep(c, s, e);
    AckStep(c, s, e);
    FrameStep(c, s, e);
    if !e.Daemon? {
      OtherSteps(c, s, e);
    } else if Sent(s, e.e) {
      DaemonInvStep(c, s, e.e);
    }
    hide RelayInv, AckInv, DaemonInv, FrameInv;
  }

  lemma {:induction false} RunInv(c: D.Config, s: State, es: seq<Event>)
    requires Inv(s)
    ensures Inv(Run(c, s, es))
    decreases |es|
  {
    hide Inv, Step;
    if es != [] {
      StepInv(c, s, es[0]);
      RunInv(c, Step(c, s, es[0]), es[1..]);
    }
  }

  /** Whatever messages are lost, delayed or repeated and whoever crashes: a
      daemon record that is committed, in memory or in the file, or was evicted
      as committed, matches a relay row of its session that is durably accepted
      and, unless sealed, whose user message is saved. */
  lemma CommittedIsSafe(c: D.Config, es: seq<Event>, k: Key)
    ensures var s := Run(c, Initial(), es); Marked(s.daemon, k) ==> Safe(s, k)
  {
    RunInv(c, Initial(), es);
  }

  // ------------------------------------------- what an accepted row tells

  /** Whatever the daemon knows as accepted has identifiers that the journal accepts. */
  ghost predicate Identified(c: D.Config, s: State) {
    K.Identified(c, s.daemon) && forall k :: k in s.known ==> J.ValidIds(c.rules, k)
  }

  lemma StepIdentified(c: D.Config, s: State, e: Event)
    requires Identified(c, s)
    ensures Identified(c, Step(c, s, e))
  {
    if e.Daemon? { K.StepIdentified(c, s.daemon, e.e); }
    hide D.Step, J.ValidIds;
  }

  lemma {:induction false} RunIdentified(c: D.Config, s: State, es: seq<Event>)
    requires Identified(c, s)
    ensures Identified(c, Run(c, s, es))
    decreases |es|
  {
    hide Identified, Step;
    if es != [] {
      StepIdentified(c, s, es[0]);
      RunIdentified(c, Step(c, s, es[0]), es[1..]);
    }
  }

  /** Another row, of another session, is sealed and has the daemon file its
      prompt under k's client id, with identifiers that the daemon accepts. */
  ghost predicate Misnamed(c: D.Config, s: State, k: Key) {
    exists r :: r in s.rows && Misleads(c, r, s.rows[r], k)
  }

  predicate Misleads(c: D.Config, r: Text, row: Row, k: Key) {
    && row.sealed && r != k.client && row.named == k.client && row.session != k.session
    && J.ValidIds(c.rules, Filed(row))
  }

  /** The relay accepts a row only when a prompt with its session and client id
      has been executed, unless a row misleads the daemon; and it tells a phone
      only after the message is in the history. */
  lemma AcceptedWasExecuted(c: D.Config, es: seq<Event>, k: Key)
    ensures var s := Run(c, Initial(), es);
      && (k in s.acks ==> Safe(s, k))
      && (RowAccepted(s, k) && !Misnamed(c, s, k) ==> s.daemon.crossed[k] >= 1)
  {
    RunInv(c, Initial(), es);
    assert Identified(c, Initial());
    RunIdentified(c, Initial(), es);
    hide Misnamed, Identified;
    if RowAccepted(Run(c, Initial(), es), k) { AcceptedRow(c, Run(c, Initial(), es), k); }
    hide Run, DaemonInv, AckInv, FrameInv;
  }

  lemma AcceptedRow(c: D.Config, s: State, k: Key)
    requires DaemonInv(s) && AckInv(s) && FrameInv(s) && Identified(c, s) && RowAccepted(s, k)
    ensures !Misnamed(c, s, k) ==> s.daemon.crossed[k] >= 1
  {
    hide A.Inv, Truthful, JournalTruth.Marked, K.Within, K.Identified, J.ValidIds;
    assert Backed(s, k.client);
    var x :| x in s.toRelay && x.client == k.client;
    assert x in s.known && Forwarded(s, x);
    var r :| r in s.rows && Filed(s.rows[r]) == x;
    assert x != k ==> Misleads(c, r, s.rows[r], k);
  }

  /** Rows whose envelopes name them by their own client id, as open prompts
      always do, are never misnamed. */
  lemma OwnNames(c: D.Config, s: State, k: Key)
    requires forall r :: r in s.rows ==> s.rows[r].named == r
    ensures !Misnamed(c, s, k)
  {
  }

  lemma {:induction false} Projects(c: D.Config, s: State, es: seq<Event>) returns (ds: seq<D.Event>)
    ensures Run(c, s, es).daemon == D.Run(c, s.daemon, ds)
    decreases |es|
  {
    hide D.Step;
    ds := [];
    if es != [] {
      var rest := Projects(c, Step(c, s, es[0]), es[1..]);
      if Step(c, s, es[0]).daemon == s.daemon {
        ds := rest;
      } else {
        ds := [es[0].e] + rest;
        assert ds[1..] == rest;
      }
    }
  }

  /** Behind the relay a prompt is still executed at most once more often than
      its record was evicted, and evictions happen only to safe prompts. */
  lemma EndToEnd(c: D.Config, es: seq<Event>, k: Key)
    ensures var s := Run(c, Initial(), es);
      && s.daemon.crossed[k] <= s.daemon.evicted[k] + 1
      && (s.daemon.evicted[k] > 0 ==> Safe(s, k))
  {
    var ds := Projects(c, Initial(), es);
    A.AtMostOnce(c, ds, k);
    CommittedIsSafe(c, es, k);
  }
}
