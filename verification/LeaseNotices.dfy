/** Which notices the relay publishes about a device, and what each way of adding
    and removing a connection comes to, relaycore/connections.go. */
module LeaseNotices {
  import opened Durable
  import opened DaemonLease

  /** The notice that is due: whether a connection was registered for the device
      when this one was published, and with what version. */
  function Due(c: Conn): Notice {
    match c.prior
    case None => CameOnline
    case Some(version) => if version != c.version then ChangedVersion else Silent
  }

  ghost predicate BeingAdded(s: State, c: Id) {
    exists t :: t in s.threads && s.threads[t].Adding? && s.threads[t].conn == c
  }

  predicate NoticeOf(s: State, c: Id, n: Notice)
    requires c in s.conns
  {
    Notified(s.conns[c].device, s.conns[c].generation, n) in s.log
  }

  predicate Carries(th: Thread) {
    th.Adding? && (th.stage.Published? || th.stage.Notify?)
  }

  ghost predicate ThreadsDue(s: State) {
    forall t :: t in s.threads && Carries(s.threads[t]) ==>
      s.threads[t].conn in s.conns && s.threads[t].stage.notice == Due(s.conns[s.threads[t].conn])
  }

  ghost predicate LogDue(s: State) {
    forall c, n :: c in s.conns && s.conns[c].generation > 0 ==>
      (NoticeOf(s, c, n) <==> n == Due(s.conns[c]) && n != Silent && !BeingAdded(s, c))
  }

  ghost predicate Unique(s: State) {
    forall x, y :: x in s.conns && y in s.conns && s.conns[x].generation == s.conns[y].generation && x != y ==> s.conns[x].generation == 0
  }

  ghost predicate NoticeInv(s: State) { ThreadsDue(s) && LogDue(s) && Unique(s) }

  /** No connection's identity changes and no notice is logged. */
  ghost predicate Quiet(s: State, s': State) {
    && s'.conns.Keys == s.conns.Keys && (s'.log == s.log || exists e: Entry :: !e.Notified? && s'.log == s.log + [e])
    && forall x :: x in s.conns ==>
         s'.conns[x] == s.conns[x].(owner := s'.conns[x].owner, closed := s'.conns[x].closed)
  }

  lemma QuietNotices(s: State, s': State)
    requires NoticeInv(s) && Quiet(s, s') && ThreadsDue(s')
    requires forall x :: x in s.conns && s.conns[x].generation > 0 ==> (BeingAdded(s', x) <==> BeingAdded(s, x))
    ensures NoticeInv(s')
  {
    forall c, n | c in s.conns ensures NoticeOf(s', c, n) == NoticeOf(s, c, n) && Due(s'.conns[c]) == Due(s.conns[c]) {}
    hide BeingAdded, Due, ThreadsDue;
  }

  /** Thread t moves on; if it adds a connection it keeps adding that one. */
  lemma MovesOn(s: State, s': State, t: Id)
    requires NoticeInv(s) && Quiet(s, s') && OthersStay(s, s', t)
    requires t in s.threads && s.threads[t].Adding? ==>
               t in s'.threads && s'.threads[t].Adding? && s'.threads[t].conn == s.threads[t].conn
               && (Carries(s'.threads[t]) ==> Carries(s.threads[t]) && s'.threads[t].stage.notice == s.threads[t].stage.notice)
    requires t in s'.threads && s'.threads[t].Adding? ==> t in s.threads && s.threads[t].Adding?
    ensures NoticeInv(s')
  {
    forall x ensures BeingAdded(s', x) <==> BeingAdded(s, x) {
      if BeingAdded(s, x) { var u :| u in s.threads && s.threads[u].Adding? && s.threads[u].conn == x; assert u in s'.threads && s'.threads[u].Adding?; }
      if BeingAdded(s', x) { var u :| u in s'.threads && s'.threads[u].Adding? && s'.threads[u].conn == x; assert u in s.threads && s.threads[u].Adding?; }
    }
    assert ThreadsDue(s');
    QuietNotices(s, s');
  }

  /** The adding thread of a connection without a generation ends. */
  lemma GivesUp(s: State, s': State, t: Id)
    requires NoticeInv(s) && Quiet(s, s') && OthersStay(s, s', t) && t !in s'.threads
    requires t in s.threads && s.threads[t].Adding? && s.threads[t].conn in s.conns && s.conns[s.threads[t].conn].generation == 0
    ensures NoticeInv(s')
  {
    forall x | x in s.conns && s.conns[x].generation > 0 ensures BeingAdded(s', x) <==> BeingAdded(s, x) {
      if BeingAdded(s, x) { var u :| u in s.threads && s.threads[u].Adding? && s.threads[u].conn == x; assert u in s'.threads; }
    }
    assert ThreadsDue(s');
    QuietNotices(s, s');
  }

  lemma StartAddNotices(r: bool, s: State, t: Id, c: Id, d: Id, v: nat)
    requires NoticeInv(s)
    ensures NoticeInv(Step(r, s, StartAdd(t, c, d, v)))
  {
    var s' := Step(r, s, StartAdd(t, c, d, v));
    if s' == s { return; }
    forall x | x != c ensures BeingAdded(s', x) <==> BeingAdded(s, x) {
      if BeingAdded(s, x) { var u :| u in s.threads && s.threads[u].Adding? && s.threads[u].conn == x; assert u in s'.threads; }
    }
    forall x, n | x in s.conns ensures NoticeOf(s', x, n) == NoticeOf(s, x, n) && s'.conns[x] == s.conns[x] {}
    assert ThreadsDue(s');
    hide BeingAdded, Due, ThreadsDue;
  }

  /** Nobody else adds the connection that t adds. */
  lemma SoleAdder(s: State, t: Id, u: Id)
    requires Inv(s) && t in s.threads && u in s.threads && s.threads[t].Adding? && s.threads[u].Adding?
    requires s.threads[t].conn == s.threads[u].conn
    ensures t == u
  {
    assert ThreadOk(s, t, s.threads[t]) && ThreadOk(s, u, s.threads[u]);
    assert s.threads[t].conn in Holds(s.threads[t]) && s.threads[u].conn in Holds(s.threads[u]);
    hide Inv, Placed, Known;
  }

  lemma AdderEnds(s: State, s': State, t: Id)
    requires Inv(s) && t in s.threads && s.threads[t].Adding? && s'.threads == s.threads - {t}
    ensures forall x :: BeingAdded(s', x) <==> BeingAdded(s, x) && x != s.threads[t].conn
  {
    forall x | BeingAdded(s, x) && x != s.threads[t].conn ensures BeingAdded(s', x) {
      var u :| u in s.threads && s.threads[u].Adding? && s.threads[u].conn == x;
      assert u in s'.threads;
    }
    forall x | BeingAdded(s', x) ensures BeingAdded(s, x) && x != s.threads[t].conn {
      var u :| u in s'.threads && s'.threads[u].Adding? && s'.threads[u].conn == x;
      assert u in s.threads;
      if x == s.threads[t].conn { SoleAdder(s, t, u); }
    }
    hide Inv;
  }

  lemma AdderStays(s: State, s': State, t: Id)
    requires t in s.threads && s.threads[t].Adding? && t in s'.threads && s'.threads[t].Adding? && s'.threads[t].conn == s.threads[t].conn
    requires s'.threads == s.threads[t := s'.threads[t]]
    ensures forall x :: BeingAdded(s', x) <==> BeingAdded(s, x)
    ensures BeingAdded(s', s.threads[t].conn)
  {
    forall x ensures BeingAdded(s', x) <==> BeingAdded(s, x) {
      if BeingAdded(s, x) { var u :| u in s.threads && s.threads[u].Adding? && s.threads[u].conn == x; assert u in s'.threads && s'.threads[u].Adding?; }
      if BeingAdded(s', x) { var u :| u in s'.threads && s'.threads[u].Adding? && s'.threads[u].conn == x; assert u in s.threads && s.threads[u].Adding?; }
    }
  }

  /** The last step of an add publishes the notice it carries: the connection is
      still live then, in every interleaving. */
  lemma NotifyExact(r: bool, s: State, t: Id)
    requires Inv(s) && t in s.threads && s.threads[t].Adding? && s.threads[t].stage.Notify?
    ensures var c, n := s.threads[t].conn, s.threads[t].stage.notice;
      var s' := Step(r, s, Advance(t));
      && c in s.conns && s.conns[c].generation > 0 && s'.threads == s.threads - {t} && s'.registry == s.registry
      && s'.conns == s.conns[c := s.conns[c].(owner := None)]
      && s'.log == if n == Silent then s.log else s.log + [Notified(s.conns[c].device, s.conns[c].generation, n)]
  {
    assert ThreadOk(s, t, s.threads[t]);
    hide Inv;
  }

  lemma NotifyNotices(r: bool, s: State, t: Id)
    requires Inv(s) && NoticeInv(s) && t in s.threads && s.threads[t].Adding? && s.threads[t].stage.Notify?
    ensures NoticeInv(Step(r, s, Advance(t)))
  {
    var c, n := s.threads[t].conn, s.threads[t].stage.notice;
    NotifyExact(r, s, t);
    assert BeingAdded(s, c) && n == Due(s.conns[c]);
    var s' := Step(r, s, Advance(t));
    AdderEnds(s, s', t);
    assert ThreadsDue(s') by { hide BeingAdded, LogDue, Inv, Step; }
    hide Inv, Step, BeingAdded, ThreadsDue, Due, LogDue;
    ToldNotices(s, s', c, n);
  }

  lemma ToldNotices(s: State, s': State, c: Id, n: Notice)
    requires NoticeInv(s) && c in s.conns && s.conns[c].generation > 0 && n == Due(s.conns[c]) && BeingAdded(s, c) && !BeingAdded(s', c)
    requires s'.log == if n == Silent then s.log else s.log + [Notified(s.conns[c].device, s.conns[c].generation, n)]
    requires s'.conns.Keys == s.conns.Keys && forall x :: x in s.conns ==> s'.conns[x] == s.conns[x].(owner := s'.conns[x].owner)
    requires forall x :: x in s.conns && x != c ==> (BeingAdded(s', x) <==> BeingAdded(s, x))
    requires ThreadsDue(s')
    ensures NoticeInv(s')
  {
    forall x | x in s.conns ensures Due(s'.conns[x]) == Due(s.conns[x]) {}
    forall x, m | x in s.conns && s.conns[x].generation > 0
      ensures NoticeOf(s', x, m) <==> m == Due(s.conns[x]) && m != Silent && !BeingAdded(s', x)
    {
      assert NoticeOf(s', x, m) <==> NoticeOf(s, x, m) || (x == c && m == n && n != Silent);
    }
    hide BeingAdded, Due, ThreadsDue;
  }

  /** A publication: the new connection has a generation that no entry has yet. */
  lemma PublishNotices(r: bool, s: State, t: Id)
    requires Inv(s) && NoticeInv(s) && Publishes(r, s, t)
    ensures NoticeInv(Step(r, s, Advance(t)))
  {
    PublishExact(r, s, t);
    assert Ordered(s) && Known(s, s.threads[t]);
    forall u | u in s.threads && u != t && s.threads[u].Adding? ensures s.threads[u].conn != s.threads[t].conn {
      if s.threads[u].conn == s.threads[t].conn { SoleAdder(s, t, u); }
    }
    hide Inv, NoticeInv, Step, TakesOver, Ordered;
    TakenNotices(s, Step(r, s, Advance(t)), t);
  }

  lemma TakenNotices(s: State, s': State, t: Id)
    requires NoticeInv(s) && Ordered(s) && t in s.threads && s.threads[t].Adding? && s.threads[t].conn in s.conns && TakesOver(s, s', t)
    requires forall u :: u in s.threads && u != t && s.threads[u].Adding? ==> s.threads[u].conn != s.threads[t].conn
    ensures NoticeInv(s')
  {
    AdderStays(s, s', t);
    hide BeingAdded, Ordered, LogDue;
    PublishThreads(s, s', t);
    hide ThreadsDue;
    FreshNotices(s, s', s.threads[t].conn);
  }

  lemma PublishThreads(s: State, s': State, t: Id)
    requires ThreadsDue(s) && t in s.threads && t in s'.threads && s'.threads == s.threads[t := s'.threads[t]]
    requires s'.threads[t].Adding? && s'.threads[t].conn in s'.conns && s'.threads[t].stage.Published?
    requires s'.threads[t].stage.notice == Due(s'.conns[s'.threads[t].conn]) && s'.conns.Keys == s.conns.Keys
    requires forall u :: u in s.threads && u != t && s.threads[u].Adding? ==> s.threads[u].conn != s'.threads[t].conn
    requires forall x :: x in s.conns && x != s'.threads[t].conn ==> s'.conns[x] == s.conns[x].(closed := s'.conns[x].closed)
    ensures ThreadsDue(s')
  {
  }

  lemma FreshNotices(s: State, s': State, c: Id)
    requires NoticeInv(s) && Ordered(s) && c in s.conns && s.conns[c].generation == 0 && BeingAdded(s', c) && ThreadsDue(s')
    requires s'.conns.Keys == s.conns.Keys && s'.conns[c].generation == s.last + 1 && s'.log == s.log + [Registered(s.conns[c].device, s.last + 1)]
    requires forall x :: x in s.conns && x != c ==> s'.conns[x] == s.conns[x].(closed := s'.conns[x].closed)
    requires forall x :: BeingAdded(s', x) <==> BeingAdded(s, x)
    ensures NoticeInv(s')
  {
    forall x | x in s.conns && x != c ensures Due(s'.conns[x]) == Due(s.conns[x]) {}
    forall x, m | x in s'.conns && s'.conns[x].generation > 0
      ensures NoticeOf(s', x, m) <==> m == Due(s'.conns[x]) && m != Silent && !BeingAdded(s', x)
    {
      if x == c { assert !NoticeOf(s', c, m); } else { assert NoticeOf(s', x, m) <==> NoticeOf(s, x, m); }
    }
    hide BeingAdded, Due, ThreadsDue;
  }

  /** The newcomer gets the next generation and the device, the connection
      registered before it is closed, and thread t goes on with the notice due. */
  ghost predicate TakesOver(s: State, s': State, t: Id)
    requires t in s.threads && s.threads[t].Adding? && s.threads[t].conn in s.conns
  {
    var c := s.threads[t].conn;
    var d := s.conns[c].device;
    && s'.conns.Keys == s.conns.Keys && s'.registry == s.registry[d := c] && s'.last == s.last + 1
    && s.conns[c].generation == 0 && s'.log == s.log + [Registered(d, s.last + 1)]
    && s'.conns[c] == s.conns[c].(generation := s.last + 1, prior := s'.conns[c].prior)
    && (if d in s.registry then s.registry[d] in s.conns && s.registry[d] != c && s'.conns[c].prior == Some(s.conns[s.registry[d]].version)
        else s'.conns[c].prior == None)
    && (forall x :: x in s.conns && x != c ==>
          s'.conns[x] == if d in s.registry && s.registry[d] == x then s.conns[x].(closed := true) else s.conns[x])
    && t in s'.threads && s'.threads == s.threads[t := s'.threads[t]] && s'.threads[t].Adding? && s'.threads[t].conn == c
    && s'.threads[t].stage == Published(if d in s.registry then Some(s.registry[d]) else None, Due(s'.conns[c]))
  }

  /** What a publication does, in terms of the registry. */
  lemma PublishExact(r: bool, s: State, t: Id)
    requires Inv(s) && Publishes(r, s, t)
    ensures TakesOver(s, Step(r, s, Advance(t)), t)
  {
    assert ThreadOk(s, t, s.threads[t]);
    assert s.conns[s.threads[t].conn].generation == 0;
    RegisteredOpen(s, s.conns[s.threads[t].conn].device);
    hide Inv, ThreadOk, Placed, Publishes, Step;
    PublishStep(r, s, t);
  }

  lemma PublishStep(r: bool, s: State, t: Id)
    requires Publishes(r, s, t) && s.conns[s.threads[t].conn].generation == 0
    requires var d := s.conns[s.threads[t].conn].device;
      d in s.registry ==> s.registry[d] in s.conns && !s.conns[s.registry[d]].closed && s.conns[s.registry[d]].generation > 0
    ensures TakesOver(s, Step(r, s, Advance(t)), t)
  {
  }

  /** Locks and thread t move, and nothing else does. */
  lemma ReleaseQuiet(s: State, x: Option<Id>, y: Option<Id>)
    ensures var s' := Release(Release(s, x), y); Quiet(s, s') && s'.threads == s.threads && s'.conns.Keys == s.conns.Keys
  {
  }

  lemma Goes(s: State, m: State, t: Id, th: Thread)
    requires NoticeInv(s) && Quiet(s, m) && m.threads == s.threads && t in s.threads
    requires s.threads[t].Adding? <==> th.Adding?
    requires th.Adding? ==> th.conn == s.threads[t].conn && (Carries(th) ==> Carries(s.threads[t]) && th.stage.notice == s.threads[t].stage.notice)
    ensures NoticeInv(Become(m, t, th))
  {
    hide NoticeInv, Carries;
    MovesOn(s, Become(m, t, th), t);
  }

  lemma Ends(s: State, m: State, t: Id)
    requires NoticeInv(s) && Quiet(s, m) && m.threads == s.threads && t in s.threads
    requires s.threads[t].Adding? ==> s.threads[t].conn in s.conns && s.conns[s.threads[t].conn].generation == 0
    ensures NoticeInv(Exit(m, t))
  {
    hide NoticeInv;
    if s.threads[t].Adding? { GivesUp(s, Exit(m, t), t); } else { MovesOn(s, Exit(m, t), t); }
  }

  lemma TakesLock(s: State, t: Id, x: Id, th: Thread)
    requires NoticeInv(s) && t in s.threads && !Carries(th) && (s.threads[t].Adding? <==> th.Adding?)
    requires th.Adding? ==> th.conn == s.threads[t].conn
    ensures NoticeInv(Acquire(s, t, x, th))
  {
    hide NoticeInv, Carries;
    if x in s.conns && s.conns[x].owner.None? { Goes(s, Locked(s, x, t), t, th); }
  }

  lemma AddMoves(r: bool, s: State, t: Id)
    requires Inv(s) && NoticeInv(s) && t in s.threads && s.threads[t].Adding? && !s.threads[t].stage.Notify? && !Publishes(r, s, t)
    ensures NoticeInv(Step(r, s, Advance(t)))
  {
    assert ThreadOk(s, t, s.threads[t]);
    hide Inv, NoticeInv, Release, Become, Exit, Acquire;
    var c := s.threads[t].conn;
    match s.threads[t].stage {
      case Look =>
        var now := Current(s, s.conns[c].device);
        Goes(s, s, t, Adding(c, if now.None? then Have(None) else Want(now.value)));
      case Want(o) => TakesLock(s, t, o, Adding(c, Have(Some(o))));
      case Published(seen, notice) =>
        ReleaseQuiet(s, seen, None);
        Goes(s, Release(s, seen), t, Adding(c, Notify(notice)));
      case Have(seen) => HaveMoves(r, s, t);
    }
  }

  lemma HaveMoves(r: bool, s: State, t: Id)
    requires Inv(s) && NoticeInv(s) && t in s.threads && s.threads[t].Adding? && s.threads[t].stage.Have? && !Publishes(r, s, t)
    ensures NoticeInv(Step(r, s, Advance(t)))
  {
    assert ThreadOk(s, t, s.threads[t]);
    assert Known(s, s.threads[t]) && s.conns[s.threads[t].conn].generation == 0;
    hide Inv, NoticeInv, ThreadOk, Placed;
    if Current(s, s.conns[s.threads[t].conn].device) != s.threads[t].stage.seen { Retries(r, s, t); } else { Rejects(r, s, t); }
  }

  lemma Retries(r: bool, s: State, t: Id)
    requires NoticeInv(s) && t in s.threads && s.threads[t].Adding? && s.threads[t].stage.Have? && Known(s, s.threads[t])
    requires Current(s, s.conns[s.threads[t].conn].device) != s.threads[t].stage.seen
    ensures NoticeInv(Step(r, s, Advance(t)))
  {
    var c, seen := s.threads[t].conn, s.threads[t].stage.seen;
    ReleaseQuiet(s, seen, None);
    hide NoticeInv, Quiet, Become;
    Goes(s, Release(s, seen), t, Adding(c, Look));
  }

  lemma Rejects(r: bool, s: State, t: Id)
    requires NoticeInv(s) && t in s.threads && s.threads[t].Adding? && s.threads[t].stage.Have? && Known(s, s.threads[t])
    requires s.conns[s.threads[t].conn].generation == 0
    requires Current(s, s.conns[s.threads[t].conn].device) == s.threads[t].stage.seen && !Publishes(r, s, t)
    ensures NoticeInv(Step(r, s, Advance(t)))
  {
    var c, seen := s.threads[t].conn, s.threads[t].stage.seen;
    ReleaseQuiet(s, seen, Some(c));
    hide NoticeInv, Quiet, Exit;
    Ends(s, Release(Release(s, seen), Some(c)), t);
  }

  lemma UnlockedQuiet(s: State, x: Id)
    requires x in s.conns
    ensures Quiet(s, Unlocked(s, x)) && Unlocked(s, x).threads == s.threads
  {
  }

  lemma HandleMoves(r: bool, s: State, t: Id)
    requires Inv(s) && NoticeInv(s) && t in s.threads && (s.threads[t].HandleWant? || s.threads[t].HandleHave? || s.threads[t].HandleLive?)
    ensures NoticeInv(Step(r, s, Advance(t)))
  {
    assert ThreadOk(s, t, s.threads[t]);
    assert s.threads[t].conn in s.conns;
    hide Inv, NoticeInv, ThreadOk, Placed;
    HandlerMoves(r, s, t, s.threads[t].conn);
  }

  lemma HandlerMoves(r: bool, s: State, t: Id, x: Id)
    requires NoticeInv(s) && t in s.threads && x in s.conns && (s.threads[t] in {HandleWant(x), HandleHave(x), HandleLive(x)})
    ensures NoticeInv(Step(r, s, Advance(t)))
  {
    UnlockedQuiet(s, x);
    SelfQuiet(s);
    hide NoticeInv, Acquire, Quiet, Unlocked, Become, Exit;
    match s.threads[t] {
      case HandleWant(_) => TakesLock(s, t, x, HandleHave(x));
      case HandleHave(_) => if Live(s, x) { Goes(s, s, t, HandleLive(x)); } else { Ends(s, Unlocked(s, x), t); }
      case HandleLive(_) => Ends(s, Unlocked(s, x), t);
    }
  }

  lemma SelfQuiet(s: State)
    ensures Quiet(s, s)
  {
  }

  lemma OfflineQuiet(s: State, x: Id)
    requires x in s.conns
    ensures Quiet(s, Offline(s, x)) && Offline(s, x).threads == s.threads
  {
  }

  lemma RemoveMoves(r: bool, s: State, t: Id)
    requires Inv(s) && NoticeInv(s) && t in s.threads && !s.threads[t].Adding? && !s.threads[t].RemoveHave?
    requires !s.threads[t].HandleWant? && !s.threads[t].HandleHave? && !s.threads[t].HandleLive?
    ensures NoticeInv(Step(r, s, Advance(t)))
  {
    assert ThreadOk(s, t, s.threads[t]);
    var x := s.threads[t].conn;
    UnlockedQuiet(s, x);
    OfflineQuiet(s, x);
    SelfQuiet(s);
    hide Inv, NoticeInv, Acquire, Quiet, Unlocked, Become, Exit, ThreadOk, Offline, Placed, Holds;
    match s.threads[t] {
      case RemoveLook(d, _) => if Current(s, d) == Some(x) { Goes(s, s, t, RemoveWant(x)); } else { Ends(s, s, t); }
      case RemoveWant(_) => TakesLock(s, t, x, RemoveHave(x));
      case RemoveDone(_) => Goes(s, Unlocked(s, x), t, RemoveTell(x));
      case RemoveTell(_) => Ends(s, Offline(s, x), t);
    }
  }

  lemma SectionMoves(r: bool, s: State, t: Id)
    requires Inv(s) && NoticeInv(s) && t in s.threads && s.threads[t].RemoveHave?
    ensures NoticeInv(Step(r, s, Advance(t)))
  {
    assert ThreadOk(s, t, s.threads[t]);
    var x := s.threads[t].conn;
    assert x in s.conns;
    hide Inv, NoticeInv, ThreadOk, Placed;
    if Live(s, x) { Unregisters(r, s, t, x); } else { UnlockedQuiet(s, x); Ends(s, Unlocked(s, x), t); }
  }

  lemma Unregisters(r: bool, s: State, t: Id, x: Id)
    requires NoticeInv(s) && t in s.threads && s.threads[t] == RemoveHave(x) && x in s.conns && Live(s, x)
    ensures NoticeInv(Step(r, s, Advance(t)))
  {
    var m := s.(conns := s.conns[x := s.conns[x].(closed := true)], registry := s.registry - {s.conns[x].device});
    assert Step(r, s, Advance(t)) == Become(m, t, RemoveDone(x));
    hide NoticeInv, Step, Become;
    Goes(s, m, t, RemoveDone(x));
  }

  lemma StepNotices(r: bool, s: State, e: Event)
    requires Inv(s) && NoticeInv(s)
    ensures NoticeInv(Step(r, s, e))
  {
    match e {
      case StartAdd(t, c, d, v) => StartAddNotices(r, s, t, c, d, v);
      case Advance(t) =>
        if t in s.threads {
          hide Inv, NoticeInv, Step;
          if s.threads[t].HandleWant? || s.threads[t].HandleHave? || s.threads[t].HandleLive? { HandleMoves(r, s, t); }
          else if s.threads[t].RemoveHave? { SectionMoves(r, s, t); }
          else if !s.threads[t].Adding? { RemoveMoves(r, s, t); }
          else if s.threads[t].stage.Notify? { NotifyNotices(r, s, t); }
          else if Publishes(r, s, t) { PublishNotices(r, s, t); }
          else { AddMoves(r, s, t); }
        }
      case _ =>
        hide Inv, NoticeInv, ThreadsDue, Known;
        QuietStart(r, s, e);
    }
  }

  lemma QuietStart(r: bool, s: State, e: Event)
    requires NoticeInv(s) && (e.StartRemove? || e.StartHandle? || e.HaveEffect?)
    ensures NoticeInv(Step(r, s, e))
  {
    hide NoticeInv;
    MovesOn(s, Step(r, s, e), e.thread);
  }

  /** The newcomer's thread ends and nothing is registered, closed or logged. */
  ghost predicate TurnedAway(s: State, s': State, t: Id) {
    && t !in s'.threads && s'.registry == s.registry && s'.log == s.log && s'.last == s.last && s'.conns.Keys == s.conns.Keys
    && forall x :: x in s.conns ==> s'.conns[x] == s.conns[x].(owner := s'.conns[x].owner)
  }

  /** A newcomer that finds the registry as it saw it is turned away exactly when
      newcomers are and a connection is registered; else it takes over. */
  lemma PolicyExact(r: bool, s: State, t: Id)
    requires Inv(s) && t in s.threads && s.threads[t].Adding? && s.threads[t].stage.Have? && s.threads[t].conn in s.conns
    requires Current(s, s.conns[s.threads[t].conn].device) == s.threads[t].stage.seen
    ensures if r && s.conns[s.threads[t].conn].device in s.registry
            then TurnedAway(s, Step(r, s, Advance(t)), t) else TakesOver(s, Step(r, s, Advance(t)), t)
  {
    assert ThreadOk(s, t, s.threads[t]);
    RegisteredOpen(s, s.conns[s.threads[t].conn].device);
    if Publishes(r, s, t) { PublishExact(r, s, t); }
    hide Inv, ThreadOk, Placed, Step, TakesOver, TurnedAway;
    PolicyStep(r, s, t);
  }

  lemma PolicyStep(r: bool, s: State, t: Id)
    requires t in s.threads && s.threads[t].Adding? && s.threads[t].stage.Have? && Known(s, s.threads[t])
    requires Current(s, s.conns[s.threads[t].conn].device) == s.threads[t].stage.seen
    requires var d := s.conns[s.threads[t].conn].device;
      d in s.registry ==> s.registry[d] in s.conns && !s.conns[s.registry[d]].closed
    ensures if r && s.conns[s.threads[t].conn].device in s.registry then TurnedAway(s, Step(r, s, Advance(t)), t) else Publishes(r, s, t)
  {
  }

  lemma RegisteredOpen(s: State, d: Id)
    requires Inv(s)
    ensures d in s.registry ==> s.registry[d] in s.conns && !s.conns[s.registry[d]].closed && s.conns[s.registry[d]].generation > 0
  {
    assert d in s.registry ==> Newest(s, d, s.registry[d]);
  }

  lemma {:induction false} RunNotices(r: bool, s: State, es: seq<Event>)
    requires Inv(s) && NoticeInv(s)
    ensures Inv(Run(r, s, es)) && NoticeInv(Run(r, s, es))
    decreases |es|
  {
    hide Inv, NoticeInv, Step;
    if es != [] {
      StepInv(r, s, es[0]);
      StepNotices(r, s, es[0]);
      RunNotices(r, Step(r, s, es[0]), es[1..]);
    }
  }

  // ----------------------------------------------------------- main results

  /** In every interleaving, a connection that was published and whose add has
      finished has told exactly what was due: that the device came online when
      no connection was registered for it just before, that the version changed
      when one with another version was, and otherwise nothing. */
  lemma NoticesExact(r: bool, es: seq<Event>, c: Id, n: Notice)
    requires c in Run(r, Initial(), es).conns && Run(r, Initial(), es).conns[c].generation > 0
    ensures var s := Run(r, Initial(), es); var x := s.conns[c];
      Notified(x.device, x.generation, n) in s.log <==>
        && (forall t :: t in s.threads && s.threads[t].Adding? ==> s.threads[t].conn != c)
        && match n
           case CameOnline => x.prior == None
           case ChangedVersion => x.prior.Some? && x.prior.value != x.version
           case Silent => false
  {
    RunNotices(r, Initial(), es);
    assert LogDue(Run(r, Initial(), es));
    assert NoticeOf(Run(r, Initial(), es), c, n) <==> Notified(Run(r, Initial(), es).conns[c].device, Run(r, Initial(), es).conns[c].generation, n) in Run(r, Initial(), es).log;
    hide Run, Inv;
  }

  // ------------------------------------------------------- the offline notice

  /** n further steps of thread t. */
  function Go(r: bool, s: State, t: Id, n: nat): State
    decreases n
  {
    if n == 0 then s else Go(r, Step(r, s, Advance(t)), t, n - 1)
  }

  lemma PublishFree(r: bool, s: State, t: Id, c: Id)
    requires t in s.threads && s.threads[t] == Adding(c, Have(None)) && c in s.conns && s.conns[c].device !in s.registry
    ensures var d, g := s.conns[c].device, s.last + 1;
      Step(r, s, Advance(t)) == State(s.conns[c := s.conns[c].(generation := g, prior := None)], s.registry[d := c], g,
                                      s.threads[t := Adding(c, Published(None, CameOnline))], s.log + [Registered(d, g)])
  {
  }

  lemma NotifyLive(r: bool, s: State, t: Id, c: Id)
    requires t in s.threads && s.threads[t] == Adding(c, Notify(CameOnline)) && c in s.conns && Live(s, c)
    ensures Step(r, s, Advance(t)) == s.(conns := s.conns[c := s.conns[c].(owner := None)], threads := s.threads - {t},
                                         log := s.log + [Notified(s.conns[c].device, s.conns[c].generation, CameOnline)])
  {
  }

  lemma AddMovesOn(r: bool, s: State, t: Id, c: Id)
    requires t in s.threads && c in s.conns
    ensures s.threads[t] == Adding(c, Look) && s.conns[c].device !in s.registry ==> Step(r, s, Advance(t)) == Become(s, t, Adding(c, Have(None)))
    ensures s.threads[t] == Adding(c, Published(None, CameOnline)) ==> Step(r, s, Advance(t)) == Become(s, t, Adding(c, Notify(CameOnline)))
  {
  }

  lemma FourSteps(r: bool, s: State, t: Id)
    ensures Go(r, s, t, 4) == Step(r, Step(r, Step(r, Step(r, s, Advance(t)), Advance(t)), Advance(t)), Advance(t))
  {
    hide Step;
    assert forall x :: Go(r, x, t, 1) == Step(r, x, Advance(t));
    assert forall x :: Go(r, x, t, 2) == Go(r, Step(r, x, Advance(t)), t, 1);
    assert forall x :: Go(r, x, t, 3) == Go(r, Step(r, x, Advance(t)), t, 2);
  }

  /** A device without a connection gets one, and its coming online is told. */
  lemma AddAlone(r: bool, s: State, t: Id, c: Id, d: Id, v: nat)
    requires t !in s.threads && c !in s.conns && d !in s.registry
    ensures var u := Go(r, Step(r, s, StartAdd(t, c, d, v)), t, 4);
      && u.registry == s.registry[d := c] && u.last == s.last + 1 && u.threads == s.threads
      && u.conns == s.conns[c := Conn(d, v, s.last + 1, false, None, None)]
      && u.log == s.log + [Registered(d, s.last + 1), Notified(d, s.last + 1, CameOnline)]
  {
    var a := Step(r, s, StartAdd(t, c, d, v));
    AddMovesOn(r, a, t, c);
    var b := Step(r, a, Advance(t));
    PublishFree(r, b, t, c);
    var p := Step(r, b, Advance(t));
    assert p.threads[t] == Adding(c, Published(None, CameOnline));
    AddMovesOn(r, p, t, c);
    var q := Step(r, p, Advance(t));
    FourSteps(r, a, t);
    NotifyLive(r, q, t, c);
    hide Step, Go;
    assert Step(r, q, Advance(t)).threads == s.threads;
  }

  /** Its teardown goes as far as the offline notice, which is still to come. */
  lemma RemoveAlone(r: bool, s: State, t: Id, d: Id, x: Id)
    requires t !in s.threads && x in s.conns && d in s.registry && s.registry[d] == x
    requires s.conns[x].device == d && !s.conns[x].closed && s.conns[x].owner == None
    ensures Go(r, Step(r, s, StartRemove(t, d, x)), t, 4)
            == s.(registry := s.registry - {d}, conns := s.conns[x := s.conns[x].(closed := true)], threads := s.threads[t := RemoveTell(x)])
  {
    var a := Step(r, s, StartRemove(t, d, x));
    assert a == Become(s, t, RemoveLook(d, x));
    var b := Step(r, a, Advance(t));
    assert b == Become(s, t, RemoveWant(x));
    FourSteps(r, a, t);
    RemoveRest(r, s, b, t, d, x);
    hide Step, Go;
  }

  lemma RemoveRest(r: bool, s: State, b: State, t: Id, d: Id, x: Id)
    requires x in s.conns && d in s.registry && s.registry[d] == x && b == Become(s, t, RemoveWant(x))
    requires s.conns[x].device == d && !s.conns[x].closed && s.conns[x].owner == None
    ensures Step(r, Step(r, Step(r, b, Advance(t)), Advance(t)), Advance(t))
            == s.(registry := s.registry - {d}, conns := s.conns[x := s.conns[x].(closed := true)], threads := s.threads[t := RemoveTell(x)])
  {
    var p := Step(r, b, Advance(t));
    assert p == Become(Locked(s, x, t), t, RemoveHave(x));
    var q := Step(r, p, Advance(t));
    assert q.threads == s.threads[t := RemoveDone(x)];
    assert q.conns == s.conns[x := s.conns[x].(closed := true, owner := Some(t))];
    var u := Step(r, q, Advance(t));
    assert u.conns == s.conns[x := s.conns[x].(closed := true)] && u.threads == s.threads[t := RemoveTell(x)];
  }

  lemma TellStep(r: bool, s: State, t: Id)
    requires t in s.threads && s.threads[t].RemoveTell? && s.threads[t].conn in s.conns
    ensures Step(r, s, Advance(t)) == Exit(Offline(s, s.threads[t].conn), t)
  {
  }

  /** A frame of the registered connection has its effect. */
  lemma HandleAlone(r: bool, s: State, t: Id, d: Id)
    requires t !in s.threads && d in s.registry && s.registry[d] in s.conns
    requires var x := s.conns[s.registry[d]]; x.device == d && !x.closed && x.owner == None && x.generation > 0
    ensures var x := s.registry[d];
      var live := Go(r, Step(r, s, StartHandle(t, x)), t, 2);
      && t in live.threads && live.threads[t] == HandleLive(x)
      && Step(r, live, HaveEffect(t)).log == s.log + [Effect(d, s.conns[x].generation)]
  {
    var x := s.registry[d];
    var a := Step(r, s, StartHandle(t, x));
    assert a == Become(s, t, HandleWant(x));
    var b := Step(r, a, Advance(t));
    assert b == Become(Locked(s, x, t), t, HandleHave(x));
    assert Go(r, a, t, 2) == Go(r, b, t, 1) == Step(r, b, Advance(t));
  }

  /** The offline notice can be overtaken, as it is published without a lock: in
      every state in which a teardown is about to publish it, the device can
      connect again and tell so first; the last that is heard of a device with
      an open connection is then that it went offline. */
  lemma OfflineOvertaken(r: bool, s: State, t: Id, u: Id, c: Id, v: nat)
    requires t in s.threads && s.threads[t].RemoveTell? && u !in s.threads && c !in s.conns
    requires s.threads[t].conn in s.conns && s.conns[s.threads[t].conn].device !in s.registry
    ensures var x := s.conns[s.threads[t].conn];
      var w := Step(r, Go(r, Step(r, s, StartAdd(u, c, x.device, v)), u, 4), Advance(t));
      && w.log == s.log + [Registered(x.device, s.last + 1), Notified(x.device, s.last + 1, CameOnline), WentOffline(x.device, x.generation)]
      && w.registry == s.registry[x.device := c] && c in w.conns && !w.conns[c].closed
  {
    var d := s.conns[s.threads[t].conn].device;
    AddAlone(r, s, u, c, d, v);
    var w := Go(r, Step(r, s, StartAdd(u, c, d, v)), u, 4);
    hide Go, Step;
    TellStep(r, w, t);
  }

  /** It does happen: one device connects, is torn down, and connects again. */
  lemma OfflineComesLast(r: bool, d: Id, v: nat)
    ensures var a := Go(r, Step(r, Initial(), StartAdd(0, 0, d, v)), 0, 4);
      var b := Go(r, Step(r, a, StartRemove(1, d, 0)), 1, 4);
      var e := Step(r, Go(r, Step(r, b, StartAdd(2, 1, d, v)), 2, 4), Advance(1));
      && e.log == [Registered(d, 1), Notified(d, 1, CameOnline), Registered(d, 2), Notified(d, 2, CameOnline), WentOffline(d, 1)]
      && d in e.registry
  {
    AddAlone(r, Initial(), 0, 0, d, v);
    var a := Go(r, Step(r, Initial(), StartAdd(0, 0, d, v)), 0, 4);
    hide Go, Step;
    RemoveAlone(r, a, 1, d, 0);
    var b := Go(r, Step(r, a, StartRemove(1, d, 0)), 1, 4);
    OfflineOvertaken(r, b, 1, 2, 1, v);
  }

  // ---------------------------------------------------- when the notice is late

  /** The entry is about a connection that exists. */
  ghost predicate Concerns(conns: map<Id, Conn>, e: Entry) {
    e.generation > 0 && exists c :: c in conns && conns[c].device == e.device && conns[c].generation == e.generation
  }

  /** Every generation is on the log from its registration on, and no other. */
  ghost predicate Listed(s: State) {
    && (forall c :: c in s.conns && s.conns[c].generation > 0 ==> Registered(s.conns[c].device, s.conns[c].generation) in s.log)
    && (forall i :: 0 <= i < |s.log| ==> Concerns(s.conns, s.log[i]))
  }

  predicate SameNames(before: map<Id, Conn>, after: map<Id, Conn>) {
    && after.Keys == before.Keys
    && forall x :: x in before ==> after[x].device == before[x].device && after[x].generation == before[x].generation
  }

  lemma StaysConcerned(before: map<Id, Conn>, after: map<Id, Conn>, e: Entry)
    requires SameNames(before, after) && Concerns(before, e)
    ensures Concerns(after, e)
  {
    var c :| c in before && before[c].device == e.device && before[c].generation == e.generation;
    assert after[c].device == e.device;
  }

  lemma NamesListed(s: State, s': State)
    requires Listed(s) && SameNames(s.conns, s'.conns) && s'.log == s.log
    ensures Listed(s')
  {
    forall i | 0 <= i < |s.log| ensures Concerns(s'.conns, s.log[i]) { StaysConcerned(s.conns, s'.conns, s.log[i]); }
    hide Concerns;
  }

  lemma LoggedListed(s: State, s': State, c: Id, e: Entry)
    requires Listed(s) && SameNames(s.conns, s'.conns) && s'.log == s.log + [e]
    requires c in s.conns && e.device == s.conns[c].device && e.generation == s.conns[c].generation > 0
    ensures Listed(s')
  {
    assert s'.conns[c].device == e.device && Concerns(s'.conns, e);
    forall i | 0 <= i < |s.log| ensures Concerns(s'.conns, s.log[i]) { StaysConcerned(s.conns, s'.conns, s.log[i]); }
    hide Concerns;
  }

  /** The other steps neither name a connection nor log anything. */
  lemma AddNames(r: bool, s: State, t: Id)
    requires t in s.threads && s.threads[t].Adding? && !s.threads[t].stage.Notify? && Known(s, s.threads[t]) && !Publishes(r, s, t)
    ensures var s' := Step(r, s, Advance(t)); SameNames(s.conns, s'.conns) && s'.log == s.log
  {
  }

  lemma OtherNames(r: bool, s: State, t: Id)
    requires t in s.threads && !s.threads[t].Adding? && !s.threads[t].RemoveTell?
    ensures var s' := Step(r, s, Advance(t)); SameNames(s.conns, s'.conns) && s'.log == s.log
  {
    if s.threads[t].HandleWant? || s.threads[t].HandleHave? || s.threads[t].HandleLive? {
      HandleNames(r, s, t);
    } else if s.threads[t].RemoveHave? {
      SectionNames(r, s, t);
    } else {
      RemoveNames(r, s, t);
    }
    hide Step;
  }

  lemma HandleNames(r: bool, s: State, t: Id)
    requires t in s.threads && (s.threads[t].HandleWant? || s.threads[t].HandleHave? || s.threads[t].HandleLive?)
    ensures var s' := Step(r, s, Advance(t)); SameNames(s.conns, s'.conns) && s'.log == s.log
  {
  }

  lemma SectionNames(r: bool, s: State, t: Id)
    requires t in s.threads && s.threads[t].RemoveHave?
    ensures var s' := Step(r, s, Advance(t)); SameNames(s.conns, s'.conns) && s'.log == s.log
  {
  }

  lemma RemoveNames(r: bool, s: State, t: Id)
    requires t in s.threads && (s.threads[t].RemoveLook? || s.threads[t].RemoveWant? || s.threads[t].RemoveDone?)
    ensures var s' := Step(r, s, Advance(t)); SameNames(s.conns, s'.conns) && s'.log == s.log
  {
  }

  lemma TakenListed(s: State, s': State, t: Id)
    requires Listed(s) && t in s.threads && s.threads[t].Adding? && s.threads[t].conn in s.conns && TakesOver(s, s', t)
    ensures Listed(s')
  {
    var c := s.threads[t].conn;
    assert s'.conns[c].generation == s.last + 1 && s'.conns[c].device == s.conns[c].device;
    assert Concerns(s'.conns, s'.log[|s.log|]);
    forall i | 0 <= i < |s.log| ensures Concerns(s'.conns, s'.log[i]) {
      var x :| x in s.conns && s.conns[x].device == s.log[i].device && s.conns[x].generation == s.log[i].generation;
      assert s'.conns[x].device == s.log[i].device;
    }
    hide Concerns;
  }

  lemma StartListed(r: bool, s: State, e: Event)
    requires Inv(s) && Listed(s) && !e.Advance?
    ensures Listed(Step(r, s, e))
  {
    match e {
      case StartAdd(t, c, d, v) => AddedListed(r, s, t, c, d, v);
      case HaveEffect(t) => EffectListed(r, s, t);
      case _ =>
        hide Inv, Listed;
        NamesListed(s, Step(r, s, e));
    }
  }

  lemma AddedListed(r: bool, s: State, t: Id, c: Id, d: Id, v: nat)
    requires Listed(s)
    ensures Listed(Step(r, s, StartAdd(t, c, d, v)))
  {
    var s' := Step(r, s, StartAdd(t, c, d, v));
    forall i | 0 <= i < |s.log| ensures Concerns(s'.conns, s.log[i]) {
      var x :| x in s.conns && s.conns[x].device == s.log[i].device && s.conns[x].generation == s.log[i].generation;
      assert s'.conns[x] == s.conns[x];
    }
    hide Concerns;
  }

  lemma EffectListed(r: bool, s: State, t: Id)
    requires Inv(s) && Listed(s)
    ensures Listed(Step(r, s, HaveEffect(t)))
  {
    if t in s.threads && s.threads[t].HandleLive? {
      assert ThreadOk(s, t, s.threads[t]);
      var c := s.threads[t].conn;
      hide Inv, Listed;
      LoggedListed(s, Step(r, s, HaveEffect(t)), c, Effect(s.conns[c].device, s.conns[c].generation));
    }
  }

  lemma AdvanceListed(r: bool, s: State, t: Id)
    requires Inv(s) && Listed(s) && t in s.threads
    ensures Listed(Step(r, s, Advance(t)))
  {
    assert ThreadOk(s, t, s.threads[t]);
    var s' := Step(r, s, Advance(t));
    if Publishes(r, s, t) {
      PublishExact(r, s, t);
      hide Inv, Listed, Step, TakesOver;
      TakenListed(s, s', t);
    } else if s.threads[t].Adding? && s.threads[t].stage.Notify? {
      NotifyExact(r, s, t);
      var c, n := s.threads[t].conn, s.threads[t].stage.notice;
      hide Inv, Listed, Step;
      if n == Silent { NamesListed(s, s'); } else { LoggedListed(s, s', c, Notified(s.conns[c].device, s.conns[c].generation, n)); }
    } else if s.threads[t].RemoveTell? {
      TellListed(r, s, t);
    } else {
      if s.threads[t].Adding? { AddNames(r, s, t); } else { OtherNames(r, s, t); }
      hide Inv, Listed, Step;
      NamesListed(s, s');
    }
  }

  lemma TellListed(r: bool, s: State, t: Id)
    requires Inv(s) && Listed(s) && t in s.threads && s.threads[t].RemoveTell?
    ensures Listed(Step(r, s, Advance(t)))
  {
    assert ThreadOk(s, t, s.threads[t]);
    var x := s.threads[t].conn;
    TellStep(r, s, t);
    hide Inv, Listed, Step;
    LoggedListed(s, Exit(Offline(s, x), t), x, WentOffline(s.conns[x].device, s.conns[x].generation));
  }

  lemma {:induction false} RunListed(r: bool, s: State, es: seq<Event>)
    requires Inv(s) && Listed(s)
    ensures Inv(Run(r, s, es)) && Listed(Run(r, s, es))
    decreases |es|
  {
    hide Inv, Listed, Step;
    if es != [] {
      StepInv(r, s, es[0]);
      if es[0].Advance? && es[0].thread in s.threads { AdvanceListed(r, s, es[0].thread); } else { OrStart(r, s, es[0]); }
      RunListed(r, Step(r, s, es[0]), es[1..]);
    }
  }

  lemma OrStart(r: bool, s: State, e: Event)
    requires Inv(s) && Listed(s) && (e.Advance? ==> e.thread !in s.threads)
    ensures Listed(Step(r, s, e))
  {
    hide Inv, Listed;
    if !e.Advance? { StartListed(r, s, e); }
  }

  /** Exactly when an offline notice is late: in every reachable state in which a
      teardown is about to publish it, something of a newer connection of the
      device is already on the log if and only if there is such a connection. */
  lemma OfflineLateExact(r: bool, es: seq<Event>, t: Id)
    requires var s := Run(r, Initial(), es); t in s.threads && s.threads[t].RemoveTell? && s.threads[t].conn in s.conns
    ensures var s := Run(r, Initial(), es);
      var x := s.conns[s.threads[t].conn];
      && Step(r, s, Advance(t)).log == s.log + [WentOffline(x.device, x.generation)]
      && ((exists i :: 0 <= i < |s.log| && s.log[i].device == x.device && s.log[i].generation > x.generation)
          <==> exists c :: c in s.conns && s.conns[c].device == x.device && s.conns[c].generation > x.generation)
  {
    RunListed(r, Initial(), es);
    var s := Run(r, Initial(), es);
    var x := s.conns[s.threads[t].conn];
    TellStep(r, s, t);
    hide Run, Inv, Step;
    LateExact(s, x);
  }

  lemma LateExact(s: State, x: Conn)
    requires Listed(s)
    ensures (exists i :: 0 <= i < |s.log| && s.log[i].device == x.device && s.log[i].generation > x.generation)
            <==> exists c :: c in s.conns && s.conns[c].device == x.device && s.conns[c].generation > x.generation
  {
    if i :| 0 <= i < |s.log| && s.log[i].device == x.device && s.log[i].generation > x.generation {
      var c :| c in s.conns && s.conns[c].device == s.log[i].device && s.conns[c].generation == s.log[i].generation;
      assert s.conns[c].generation > x.generation;
    }
    if c :| c in s.conns && s.conns[c].device == x.device && s.conns[c].generation > x.generation {
      var e := Registered(s.conns[c].device, s.conns[c].generation);
      assert e in s.log;
      var i :| 0 <= i < |s.log| && s.log[i] == e;
      assert s.log[i].generation > x.generation;
    }
  }
}
