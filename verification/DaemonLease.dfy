/** Replacing a daemon connection: TryAddDaemonVersioned, RemoveDaemon and
    handleDaemonMessage of relaycore as interleaved atomic steps. The registry
    lock is held within single steps; each connection's lock has an owner. */
module DaemonLease {
  import opened Durable

  type Id = nat

  /** generation is 0 until the connection is published; prior remembers the
      version of the connection that was registered for the device just then. */
  datatype Conn = Conn(device: Id, version: nat, generation: nat, closed: bool, owner: Option<Id>, prior: Option<nat>)

  datatype Notice = Silent | CameOnline | ChangedVersion

  datatype Stage =
    | Look                                          // about to read the registry
    | Want(prior: Id)                                 // waiting for the old connection's lock
    | Have(seen: Option<Id>)                        // holds it, about to take the registry lock
    | Published(seen: Option<Id>, notice: Notice)   // registered, old connection still locked
    | Notify(notice: Notice)                        // about to publish the notice

  datatype Thread =
    | Adding(conn: Id, stage: Stage)
    | RemoveLook(device: Id, conn: Id)
    | RemoveWant(conn: Id)
    | RemoveHave(conn: Id)
    | RemoveDone(conn: Id)
    | RemoveTell(conn: Id)   // has given the lock back, about to publish the offline notice
    | HandleWant(conn: Id)
    | HandleHave(conn: Id)
    | HandleLive(conn: Id)   // passed the live check; every effect of the frame happens here

  datatype Entry =
    | Registered(device: Id, generation: nat)
    | Effect(device: Id, generation: nat)
    | Notified(device: Id, generation: nat, notice: Notice)
    | WentOffline(device: Id, generation: nat)

  datatype State = State(conns: map<Id, Conn>, registry: map<Id, Id>, last: nat, threads: map<Id, Thread>, log: seq<Entry>)

  datatype Event =
    | StartAdd(thread: Id, conn: Id, device: Id, version: nat)
    | StartRemove(thread: Id, device: Id, conn: Id)
    | StartHandle(thread: Id, conn: Id)
    | HaveEffect(thread: Id)
    | Advance(thread: Id)

  function Initial(): State { State(map[], map[], 0, map[], []) }

  function Current(s: State, device: Id): Option<Id> {
    if device in s.registry then Some(s.registry[device]) else None
  }

  function Locked(s: State, x: Id, t: Id): State
    requires x in s.conns
  {
    s.(conns := s.conns[x := s.conns[x].(owner := Some(t))])
  }

  function Unlocked(s: State, x: Id): State
    requires x in s.conns
  {
    s.(conns := s.conns[x := s.conns[x].(owner := None)])
  }

  function Become(s: State, t: Id, th: Thread): State { s.(threads := s.threads[t := th]) }
  function Exit(s: State, t: Id): State { s.(threads := s.threads - {t}) }

  /** isLiveDaemonLocked. */
  predicate Live(s: State, x: Id)
    requires x in s.conns
  {
    !s.conns[x].closed && Current(s, s.conns[x].device) == Some(x)
  }

  /** Take a lock if it is free, otherwise keep waiting. */
  function Acquire(s: State, t: Id, x: Id, th: Thread): State {
    if x in s.conns && s.conns[x].owner.None? then Become(Locked(s, x, t), t, th) else s
  }

  function Release(s: State, x: Option<Id>): State {
    if x.Some? && x.value in s.conns then Unlocked(s, x.value) else s
  }

  /** The section under the registry lock of TryAddDaemonVersioned. */
  function Publish(rejectNew: bool, s: State, t: Id, c: Id, seen: Option<Id>): State
    requires c in s.conns && (seen.Some? ==> seen.value in s.conns)
  {
    var d := s.conns[c].device;
    var online := seen.Some? && !s.conns[seen.value].closed;
    if Current(s, d) != seen then Become(Release(s, seen), t, Adding(c, Look))
    else if rejectNew && online then Exit(Unlocked(Release(s, seen), c), t)
    else
      var notice := if !online then CameOnline
                    else if s.conns[seen.value].version != s.conns[c].version then ChangedVersion else Silent;
      var others := if seen.Some? then s.conns[seen.value := s.conns[seen.value].(closed := true)] else s.conns;
      var prior := if d in s.registry && s.registry[d] in s.conns then Some(s.conns[s.registry[d]].version) else None;
      State(others[c := s.conns[c].(generation := s.last + 1, prior := prior)], s.registry[d := c], s.last + 1,
            s.threads[t := Adding(c, Published(seen, notice))], s.log + [Registered(d, s.last + 1)])
  }

  function AddStep(rejectNew: bool, s: State, t: Id, c: Id, stage: Stage): State
    requires c in s.conns
    requires (stage.Have? || stage.Published?) && stage.seen.Some? ==> stage.seen.value in s.conns
  {
    match stage
    case Look =>
      (match Current(s, s.conns[c].device)
       case None => Become(s, t, Adding(c, Have(None)))
       case Some(o) => Become(s, t, Adding(c, Want(o))))
    case Want(o) => Acquire(s, t, o, Adding(c, Have(Some(o))))
    case Have(seen) => Publish(rejectNew, s, t, c, seen)
    case Published(seen, notice) => Become(Release(s, seen), t, Adding(c, Notify(notice)))
    case Notify(notice) =>
      var told := if notice != Silent && Live(s, c)
                  then s.(log := s.log + [Notified(s.conns[c].device, s.conns[c].generation, notice)]) else s;
      Exit(Unlocked(told, c), t)
  }

  function RemoveSection(s: State, t: Id, x: Id): State
    requires x in s.conns
  {
    if !Live(s, x) then Exit(Unlocked(s, x), t)
    else Become(s.(conns := s.conns[x := s.conns[x].(closed := true)], registry := s.registry - {s.conns[x].device}), t, RemoveDone(x))
  }

  function Offline(s: State, x: Id): State
    requires x in s.conns
  {
    s.(log := s.log + [WentOffline(s.conns[x].device, s.conns[x].generation)])
  }

  function ThreadStep(rejectNew: bool, s: State, t: Id, th: Thread): State
    requires Known(s, th)
  {
    match th
    case Adding(c, stage) => AddStep(rejectNew, s, t, c, stage)
    case RemoveLook(d, x) => if Current(s, d) == Some(x) then Become(s, t, RemoveWant(x)) else Exit(s, t)
    case RemoveWant(x) => Acquire(s, t, x, RemoveHave(x))
    case RemoveHave(x) => RemoveSection(s, t, x)
    case RemoveDone(x) => Become(Unlocked(s, x), t, RemoveTell(x))
    case RemoveTell(x) => Exit(Offline(s, x), t)
    case HandleWant(x) => Acquire(s, t, x, HandleHave(x))
    case HandleHave(x) => if Live(s, x) then Become(s, t, HandleLive(x)) else Exit(Unlocked(s, x), t)
    case HandleLive(x) => Exit(Unlocked(s, x), t)
  }

  function Step(rejectNew: bool, s: State, e: Event): State {
    match e
    case StartAdd(t, c, d, v) =>
      if t in s.threads || c in s.conns then s
      else Become(s.(conns := s.conns[c := Conn(d, v, 0, false, Some(t), None)]), t, Adding(c, Look))
    case StartRemove(t, d, x) => if t in s.threads || x !in s.conns then s else Become(s, t, RemoveLook(d, x))
    case StartHandle(t, x) =>
      if t in s.threads || x !in s.conns || s.conns[x].generation == 0 then s else Become(s, t, HandleWant(x))
    case HaveEffect(t) =>
      if t in s.threads && s.threads[t].HandleLive? && s.threads[t].conn in s.conns then
        var x := s.conns[s.threads[t].conn];
        s.(log := s.log + [Effect(x.device, x.generation)])
      else s
    case Advance(t) => if t in s.threads && Known(s, s.threads[t]) then ThreadStep(rejectNew, s, t, s.threads[t]) else s
  }

  function Run(rejectNew: bool, s: State, es: seq<Event>): State
    decreases |es|
  {
    if es == [] then s else Run(rejectNew, Step(rejectNew, s, es[0]), es[1..])
  }

  // -------------------------------------------------------------- invariant

  function Opt(x: Option<Id>): set<Id> { if x.Some? then {x.value} else {} }

  /** The connection locks that a thread holds. */
  function Holds(th: Thread): set<Id> {
    match th
    case Adding(c, stage) => {c} + (if stage.Have? || stage.Published? then Opt(stage.seen) else {})
    case RemoveHave(x) => {x}
    case RemoveDone(x) => {x}
    case HandleHave(x) => {x}
    case HandleLive(x) => {x}
    case _ => {}
  }

  /** The connections that a thread refers to exist. */
  predicate Known(s: State, th: Thread) {
    match th
    case Adding(c, stage) =>
      && c in s.conns
      && (stage.Want? ==> stage.prior in s.conns)
      && ((stage.Have? || stage.Published?) && stage.seen.Some? ==> stage.seen.value in s.conns)
    case RemoveLook(_, x) => x in s.conns
    case _ => th.conn in s.conns
  }

  /** Before it is published a connection has no generation; from then on until
      its thread ends, and for a handler past the live check, it is registered. */
  predicate Placed(s: State, th: Thread)
    requires Known(s, th)
  {
    match th
    case Adding(c, stage) =>
      if stage.Published? || stage.Notify? then s.conns[c].generation > 0 && Live(s, c)
                                                && (stage.Published? && stage.seen.Some? ==> stage.seen.value != c)
      else
        && s.conns[c].generation == 0 && !s.conns[c].closed
        && (stage.Want? ==> s.conns[stage.prior].generation > 0)
        && (stage.Have? && stage.seen.Some? ==> s.conns[stage.seen.value].generation > 0)
    case HandleLive(x) => Live(s, x) && s.conns[x].generation > 0
    case RemoveLook(_, _) => true
    case _ => s.conns[th.conn].generation > 0
  }

  ghost predicate ThreadOk(s: State, t: Id, th: Thread) {
    && Known(s, th) && Placed(s, th)
    && forall x :: x in Holds(th) ==> x in s.conns && s.conns[x].owner == Some(t)
  }

  ghost predicate Owners(s: State) {
    forall x :: x in s.conns && s.conns[x].owner.Some? ==>
      s.conns[x].owner.value in s.threads && x in Holds(s.threads[s.conns[x].owner.value])
  }

  /** The registered connection of a device is open and the newest ever issued for it. */
  ghost predicate Registry(s: State) {
    forall d :: d in s.registry ==> Newest(s, d, s.registry[d])
  }

  ghost predicate Newest(s: State, d: Id, c: Id) {
    && c in s.conns && s.conns[c].device == d && !s.conns[c].closed && s.conns[c].generation > 0
    && (forall x :: x in s.conns && s.conns[x].device == d ==> s.conns[x].generation <= s.conns[c].generation)
    && (forall i :: 0 <= i < |s.log| && s.log[i].device == d ==> s.log[i].generation <= s.conns[c].generation)
  }

  ghost predicate Ordered(s: State) {
    && (forall x :: x in s.conns ==> s.conns[x].generation <= s.last)
    && (forall i :: 0 <= i < |s.log| ==> s.log[i].generation <= s.last)
    && (forall i, j :: 0 <= i < j < |s.log| && s.log[i].device == s.log[j].device && !s.log[j].WentOffline? ==>
          s.log[i].generation <= s.log[j].generation)
  }

  ghost predicate Inv(s: State) {
    && (forall t :: t in s.threads ==> ThreadOk(s, t, s.threads[t]))
    && Owners(s) && Registry(s) && Ordered(s)
  }

  // ---------------------------------------------------------- preservation

  /** Nothing changed but lock owners and threads. */
  ghost predicate SameCore(s: State, s': State) {
    && s'.conns.Keys == s.conns.Keys && s'.registry == s.registry && s'.last == s.last && s'.log == s.log
    && forall x :: x in s.conns ==> s'.conns[x] == s.conns[x].(owner := s'.conns[x].owner)
  }

  lemma SamePlaced(s: State, s': State, th: Thread)
    requires SameCore(s, s') && Known(s, th) && Placed(s, th)
    ensures Known(s', th) && Placed(s', th)
  {
  }

  lemma SameRegistry(s: State, s': State)
    requires SameCore(s, s') && Registry(s) && Ordered(s)
    ensures Registry(s') && Ordered(s')
  {
  }

  /** The threads other than t are the same in both states. */
  ghost predicate OthersStay(s: State, s': State, t: Id) {
    forall u :: u != t ==> (u in s'.threads <==> u in s.threads) && (u in s.threads ==> s'.threads[u] == s.threads[u])
  }

  /** Locks change hands only between t and nobody. */
  ghost predicate OwnLocks(s: State, s': State, t: Id)
    requires s'.conns.Keys == s.conns.Keys
  {
    forall x :: x in s.conns && s'.conns[x].owner != s.conns[x].owner ==>
      (s.conns[x].owner.None? || s.conns[x].owner == Some(t)) && (s'.conns[x].owner.None? || s'.conns[x].owner == Some(t))
  }

  /** A step of thread t that only moves t and takes or gives back t's locks. */
  lemma LockStep(s: State, s': State, t: Id)
    requires Inv(s) && SameCore(s, s') && OthersStay(s, s', t) && OwnLocks(s, s', t)
    requires t in s'.threads ==> ThreadOk(s', t, s'.threads[t])
    requires forall x :: x in s.conns && s'.conns[x].owner == Some(t) ==> t in s'.threads && x in Holds(s'.threads[t])
    ensures Inv(s')
  {
    hide Known, Placed, Registry, Ordered, Holds;
    SameRegistry(s, s');
    forall u | u in s'.threads && u != t ensures ThreadOk(s', u, s'.threads[u]) {
      assert ThreadOk(s, u, s.threads[u]);
      SamePlaced(s, s', s.threads[u]);
    }
  }

  /** t moves on without touching a lock. */
  lemma MoveInv(s: State, t: Id, th: Thread)
    requires Inv(s) && t in s.threads && Holds(th) == Holds(s.threads[t]) && Known(s, th) && Placed(s, th)
    ensures Inv(Become(s, t, th))
  {
    hide Registry, Ordered, Placed, Known, Holds;
    assert ThreadOk(s, t, s.threads[t]);
    SamePlaced(s, Become(s, t, th), th);
    LockStep(s, Become(s, t, th), t);
  }

  /** t takes a free lock, or keeps waiting. */
  lemma AcquireInv(s: State, t: Id, x: Id, th: Thread)
    requires Inv(s) && t in s.threads && Holds(th) == Holds(s.threads[t]) + {x} && Known(s, th) && Placed(s, th)
    ensures Inv(Acquire(s, t, x, th))
  {
    hide Registry, Ordered, Placed, Known, Holds;
    assert ThreadOk(s, t, s.threads[t]);
    if x in s.conns && s.conns[x].owner.None? {
      var s' := Acquire(s, t, x, th);
      assert SameCore(s, s');
      SamePlaced(s, s', th);
      LockStep(s, s', t);
    }
  }

  /** t gives back one lock and moves on. */
  lemma ReleaseInv(s: State, t: Id, x: Option<Id>, th: Thread)
    requires Inv(s) && t in s.threads && Holds(th) == Holds(s.threads[t]) - Opt(x) && Opt(x) <= Holds(s.threads[t])
    requires Known(s, th) && Placed(s, th)
    ensures Inv(Become(Release(s, x), t, th))
  {
    hide Registry, Ordered, Placed, Known, Holds;
    assert ThreadOk(s, t, s.threads[t]);
    var s' := Become(Release(s, x), t, th);
    assert SameCore(s, s');
    SamePlaced(s, s', th);
    LockStep(s, s', t);
  }

  /** t gives back everything it holds and ends. */
  lemma ExitInv(s: State, t: Id, x: Option<Id>, y: Option<Id>)
    requires Inv(s) && t in s.threads && Holds(s.threads[t]) == Opt(x) + Opt(y)
    ensures Inv(Exit(Release(Release(s, x), y), t))
  {
    hide Registry, Ordered, Placed, Known, Holds;
    assert ThreadOk(s, t, s.threads[t]);
    var s' := Exit(Release(Release(s, x), y), t);
    assert SameCore(s, s') && OthersStay(s, s', t);
    assert OwnLocks(s, s', t);
    assert forall z :: z in s.conns && s.conns[z].owner == Some(t) ==> z in Opt(x) + Opt(y);
    hide Inv, SameCore, OthersStay, OwnLocks;
    LockStep(s, s', t);
  }

  lemma AddStepInv(r: bool, s: State, t: Id)
    requires Inv(s) && t in s.threads && s.threads[t].Adding? && !s.threads[t].stage.Have? && !s.threads[t].stage.Notify?
    ensures Known(s, s.threads[t]) && Inv(ThreadStep(r, s, t, s.threads[t]))
  {
    assert ThreadOk(s, t, s.threads[t]);
    var c := s.threads[t].conn;
    match s.threads[t].stage {
      case Look =>
        var now := Current(s, s.conns[c].device);
        MoveInv(s, t, Adding(c, if now.None? then Have(None) else Want(now.value)));
      case Want(o) => AcquireInv(s, t, o, Adding(c, Have(Some(o))));
      case Published(seen, notice) => ReleaseInv(s, t, seen, Adding(c, Notify(notice)));
    }
  }

  lemma OtherStepInv(r: bool, s: State, t: Id)
    requires Inv(s) && t in s.threads && !s.threads[t].Adding? && Known(s, s.threads[t])
    requires !(s.threads[t].RemoveHave? && Live(s, s.threads[t].conn))
    ensures Inv(ThreadStep(r, s, t, s.threads[t]))
  {
    assert ThreadOk(s, t, s.threads[t]);
    hide Inv;
    var x := s.threads[t].conn;
    match s.threads[t] {
      case RemoveLook(d, _) =>
        if Current(s, d) == Some(x) { CurrentPublished(s, d); MoveInv(s, t, RemoveWant(x)); } else { ExitInv(s, t, None, None); }
      case RemoveWant(_) => AcquireInv(s, t, x, RemoveHave(x));
      case RemoveHave(_) => ExitInv(s, t, Some(x), None);
      case RemoveDone(_) => ReleaseInv(s, t, Some(x), RemoveTell(x));
      case RemoveTell(_) => OfflineInv(s, x); ExitInv(Offline(s, x), t, None, None);
      case HandleWant(_) => AcquireInv(s, t, x, HandleHave(x));
      case HandleHave(_) => if Live(s, x) { MoveInv(s, t, HandleLive(x)); } else { ExitInv(s, t, Some(x), None); }
      case HandleLive(_) => ExitInv(s, t, Some(x), None);
    }
  }

  lemma CurrentPublished(s: State, d: Id)
    requires Inv(s) && d in s.registry
    ensures s.registry[d] in s.conns && s.conns[s.registry[d]].generation > 0
  {
    hide ThreadOk, Ordered;
  }

  /** Appending an entry for the registered connection keeps the log in order. */
  lemma LogInv(s: State, x: Id, entry: Entry)
    requires Inv(s) && x in s.conns && Live(s, x)
    requires entry.device == s.conns[x].device && entry.generation == s.conns[x].generation
    ensures Inv(s.(log := s.log + [entry]))
  {
    var s' := s.(log := s.log + [entry]);
    forall u | u in s'.threads ensures ThreadOk(s', u, s'.threads[u]) {
      assert ThreadOk(s, u, s.threads[u]);
    }
  }

  /** The offline notice comes without a lock, so it may be late. */
  lemma OfflineInv(s: State, x: Id)
    requires Inv(s) && x in s.conns
    ensures Inv(Offline(s, x))
  {
    var s' := Offline(s, x);
    forall u | u in s'.threads ensures ThreadOk(s', u, s'.threads[u]) {
      assert ThreadOk(s, u, s.threads[u]);
    }
    forall d | d in s.registry ensures Newest(s', d, s.registry[d]) {
      assert Newest(s, d, s.registry[d]);
    }
    hide ThreadOk;
  }

  lemma NotifyInv(r: bool, s: State, t: Id)
    requires Inv(s) && t in s.threads && s.threads[t].Adding? && s.threads[t].stage.Notify?
    ensures Known(s, s.threads[t]) && Inv(ThreadStep(r, s, t, s.threads[t]))
  {
    var c := s.threads[t].conn;
    assert ThreadOk(s, t, s.threads[t]);
    hide Inv;
    var entry := Notified(s.conns[c].device, s.conns[c].generation, s.threads[t].stage.notice);
    var told := if s.threads[t].stage.notice == Silent then s else s.(log := s.log + [entry]);
    if told != s { LogInv(s, c, entry); }
    ExitInv(told, t, Some(c), None);
  }

  /** Who relies on a connection being registered holds its lock, so nobody but
      the thread that unregisters x relies on x. */
  lemma RemovePlaced(s: State, s': State, t: Id, u: Id)
    requires Inv(s) && t in s.threads && s.threads[t].RemoveHave? && Known(s, s.threads[t]) && Live(s, s.threads[t].conn)
    requires s' == RemoveSection(s, t, s.threads[t].conn) && u in s.threads && u != t
    ensures ThreadOk(s', u, s.threads[u])
  {
    hide Registry, Ordered, Owners;
    assert ThreadOk(s, t, s.threads[t]) && ThreadOk(s, u, s.threads[u]);
    assert s.threads[t].conn !in Holds(s.threads[u]);
  }

  lemma RemoveInv(r: bool, s: State, t: Id)
    requires Inv(s) && t in s.threads && s.threads[t].RemoveHave? && Known(s, s.threads[t]) && Live(s, s.threads[t].conn)
    ensures Inv(ThreadStep(r, s, t, s.threads[t]))
  {
    var x := s.threads[t].conn;
    var s' := RemoveSection(s, t, x);
    forall u | u in s'.threads && u != t ensures ThreadOk(s', u, s'.threads[u]) {
      RemovePlaced(s, s', t, u);
    }
    RemoverOk(s, t);
    RemoveOrdered(s, t, x);
    hide ThreadOk, Owners, Registry, Ordered;
  }

  lemma RemoverOk(s: State, t: Id)
    requires Inv(s) && t in s.threads && s.threads[t].RemoveHave? && Known(s, s.threads[t]) && Live(s, s.threads[t].conn)
    ensures var s' := RemoveSection(s, t, s.threads[t].conn); ThreadOk(s', t, s'.threads[t]) && Owners(s')
  {
    hide Registry, Ordered, Owners;
    assert ThreadOk(s, t, s.threads[t]);
    OwnersStay(s, RemoveSection(s, t, s.threads[t].conn), t);
  }

  lemma RemoveOrdered(s: State, t: Id, x: Id)
    requires Inv(s) && x in s.conns && Live(s, x)
    ensures Registry(RemoveSection(s, t, x)) && Ordered(RemoveSection(s, t, x))
  {
    hide ThreadOk, Owners;
    var s' := RemoveSection(s, t, x);
    forall d | d in s'.registry ensures Newest(s', d, s'.registry[d]) {
      assert Newest(s, d, s.registry[d]);
    }
  }

  ghost predicate Publishes(r: bool, s: State, t: Id) {
    && t in s.threads && s.threads[t].Adding? && s.threads[t].stage.Have? && Known(s, s.threads[t])
    && Current(s, s.conns[s.threads[t].conn].device) == s.threads[t].stage.seen
    && !(r && s.threads[t].stage.seen.Some? && !s.conns[s.threads[t].stage.seen.value].closed)
  }

  /** What publishing c changes: c gets a generation and is registered, the
      connection seen before is closed, and no lock moves. */
  ghost predicate Replaces(s: State, s': State, c: Id, seen: Option<Id>) {
    && c in s.conns && s'.conns.Keys == s.conns.Keys && s'.registry == s.registry[s.conns[c].device := c]
    && Current(s, s.conns[c].device) == seen
    && (forall x :: x in s.conns ==> s'.conns[x].owner == s.conns[x].owner && s'.conns[x].device == s.conns[x].device)
    && (forall x :: x in s.conns ==> s.conns[x].generation > 0 ==> s'.conns[x].generation > 0)
    && (forall x :: x in s.conns && x != c && Some(x) != seen ==> s'.conns[x] == s.conns[x])
  }

  lemma PublishReplaces(r: bool, s: State, t: Id)
    requires Publishes(r, s, t)
    ensures Replaces(s, Publish(r, s, t, s.threads[t].conn, s.threads[t].stage.seen), s.threads[t].conn, s.threads[t].stage.seen)
  {
  }

  lemma PublishPlaced(r: bool, s: State, t: Id, u: Id)
    requires Inv(s) && Publishes(r, s, t) && u in s.threads && u != t
    ensures ThreadOk(Publish(r, s, t, s.threads[t].conn, s.threads[t].stage.seen), u, s.threads[u])
  {
    hide Registry, Ordered, Owners;
    var c, seen := s.threads[t].conn, s.threads[t].stage.seen;
    assert ThreadOk(s, t, s.threads[t]) && ThreadOk(s, u, s.threads[u]);
    assert c !in Holds(s.threads[u]) && (seen.Some? ==> seen.value !in Holds(s.threads[u]));
    PublishReplaces(r, s, t);
    var s' := Publish(r, s, t, c, seen);
    hide Publish, Inv, Publishes;
    OthersPlaced(s, s', c, seen, u, s.threads[u]);
  }

  lemma OthersPlaced(s: State, s': State, c: Id, seen: Option<Id>, u: Id, th: Thread)
    requires Replaces(s, s', c, seen) && ThreadOk(s, u, th) && c !in Holds(th) && (seen.Some? ==> seen.value !in Holds(th))
    ensures ThreadOk(s', u, th)
  {
    assert th.Adding? ==> th.conn in Holds(th);
    assert th.HandleLive? ==> th.conn in Holds(th);
  }

  lemma PublishOrdered(r: bool, s: State, t: Id)
    requires Inv(s) && Publishes(r, s, t)
    ensures var s' := Publish(r, s, t, s.threads[t].conn, s.threads[t].stage.seen); Registry(s') && Ordered(s')
  {
    var c, seen := s.threads[t].conn, s.threads[t].stage.seen;
    assert ThreadOk(s, t, s.threads[t]);
    assert s.conns[c].generation == 0 && !s.conns[c].closed && (seen.Some? ==> s.conns[seen.value].generation > 0);
    hide ThreadOk, Owners;
    PublishNewest(s, Publish(r, s, t, c, seen), c, seen);
  }

  /** The new connection gets the largest generation and replaces the old one. */
  lemma PublishNewest(s: State, s': State, c: Id, seen: Option<Id>)
    requires Registry(s) && Ordered(s) && c in s.conns && s.conns[c].generation == 0 && !s.conns[c].closed
    requires seen == Current(s, s.conns[c].device) && s'.last == s.last + 1 && s'.conns.Keys == s.conns.Keys
    requires s'.registry == s.registry[s.conns[c].device := c] && s'.log == s.log + [Registered(s.conns[c].device, s.last + 1)]
    requires s'.conns[c] == s.conns[c].(generation := s.last + 1, prior := s'.conns[c].prior)
    requires forall x :: x in s.conns && x != c ==> s'.conns[x] == s.conns[x] || (seen == Some(x) && s'.conns[x] == s.conns[x].(closed := true))
    ensures Registry(s') && Ordered(s')
  {
    var d := s.conns[c].device;
    assert Ordered(s');
    assert Newest(s', d, c);
    forall e | e in s.registry && e != d ensures Newest(s', e, s.registry[e]) {
      assert Newest(s, e, s.registry[e]);
      assert seen.Some? ==> Newest(s, d, seen.value);
    }
  }

  lemma PublishInv(r: bool, s: State, t: Id)
    requires Inv(s) && t in s.threads && s.threads[t].Adding? && s.threads[t].stage.Have?
    ensures Known(s, s.threads[t]) && Inv(ThreadStep(r, s, t, s.threads[t]))
  {
    assert ThreadOk(s, t, s.threads[t]);
    var c, seen := s.threads[t].conn, s.threads[t].stage.seen;
    var s' := Publish(r, s, t, c, seen);
    if Current(s, s.conns[c].device) != seen {
      ReleaseInv(s, t, seen, Adding(c, Look));
    } else if !Publishes(r, s, t) {
      ExitInv(s, t, seen, Some(c));
    } else {
      forall u | u in s'.threads && u != t ensures ThreadOk(s', u, s'.threads[u]) {
        PublishPlaced(r, s, t, u);
      }
      PublishOrdered(r, s, t);
      PublisherOk(r, s, t);
      hide ThreadOk, Registry, Ordered;
    }
  }

  lemma PublisherOk(r: bool, s: State, t: Id)
    requires Inv(s) && Publishes(r, s, t)
    ensures var s' := Publish(r, s, t, s.threads[t].conn, s.threads[t].stage.seen); ThreadOk(s', t, s'.threads[t]) && Owners(s')
  {
    var c, seen := s.threads[t].conn, s.threads[t].stage.seen;
    assert ThreadOk(s, t, s.threads[t]);
    assert !s.conns[c].closed && (seen.Some? ==> seen.value != c);
    var s' := Publish(r, s, t, c, seen);
    PublishReplaces(r, s, t);
    hide Inv, Owners, ThreadOk, Placed, Registry, Ordered;
    PublisherMoves(r, s, t);
    hide Publish, Publishes, Known;
    OwnersStay(s, s', t);
    PublisherPlaced(s, s', t, c, seen);
  }

  lemma PublisherMoves(r: bool, s: State, t: Id)
    requires Publishes(r, s, t) && !s.conns[s.threads[t].conn].closed && s.threads[t].stage.seen != Some(s.threads[t].conn)
    ensures var c, seen := s.threads[t].conn, s.threads[t].stage.seen;
      var s' := Publish(r, s, t, c, seen);
      && t in s'.threads && s'.threads == s.threads[t := s'.threads[t]] && Holds(s'.threads[t]) == Holds(s.threads[t])
      && s'.threads[t].Adding? && s'.threads[t].conn == c && s'.threads[t].stage.Published? && s'.threads[t].stage.seen == seen
      && s'.conns[c].generation > 0 && !s'.conns[c].closed
  {
  }

  lemma PublisherPlaced(s: State, s': State, t: Id, c: Id, seen: Option<Id>)
    requires Replaces(s, s', c, seen) && s'.conns[c].generation > 0 && !s'.conns[c].closed && (seen.Some? ==> seen.value != c)
    requires t in s.threads && ThreadOk(s, t, s.threads[t]) && t in s'.threads && Holds(s'.threads[t]) == Holds(s.threads[t])
    requires s'.threads[t].Adding? && s'.threads[t].conn == c && s'.threads[t].stage.Published? && s'.threads[t].stage.seen == seen
    ensures ThreadOk(s', t, s'.threads[t])
  {
  }

  lemma OwnersStay(s: State, s': State, t: Id)
    requires Owners(s) && t in s.threads && t in s'.threads && s'.conns.Keys == s.conns.Keys
    requires s'.threads == s.threads[t := s'.threads[t]] && Holds(s'.threads[t]) == Holds(s.threads[t])
    requires forall x :: x in s.conns ==> s'.conns[x].owner == s.conns[x].owner
    ensures Owners(s')
  {
    hide Holds;
  }

  lemma StartInv(r: bool, s: State, e: Event)
    requires Inv(s) && (e.StartRemove? || e.StartHandle?)
    ensures Inv(Step(r, s, e))
  {
    var s' := Step(r, s, e);
    if s' != s {
      assert ThreadOk(s', e.thread, s'.threads[e.thread]);
      NewThreadInv(s, e.thread, s'.threads[e.thread]);
    }
  }

  /** A thread that holds nothing may start at any time. */
  lemma NewThreadInv(s: State, t: Id, th: Thread)
    requires Inv(s) && t !in s.threads && Holds(th) == {} && Known(s, th) && Placed(s, th)
    ensures Inv(Become(s, t, th))
  {
    hide Registry, Ordered, Known, Placed, Holds;
    var s' := Become(s, t, th);
    SameRegistry(s, s');
    SamePlaced(s, s', th);
    forall u | u in s.threads ensures ThreadOk(s', u, s.threads[u]) {
      assert ThreadOk(s, u, s.threads[u]);
      SamePlaced(s, s', s.threads[u]);
    }
  }

  lemma StartAddInv(r: bool, s: State, t: Id, c: Id, d: Id, v: nat)
    requires Inv(s)
    ensures Inv(Step(r, s, StartAdd(t, c, d, v)))
  {
    var s' := Step(r, s, StartAdd(t, c, d, v));
    if s' == s { return; }
    forall u | u in s.threads ensures ThreadOk(s', u, s.threads[u]) {
      AddedOk(s, s', t, c, u);
    }
    assert ThreadOk(s', t, s'.threads[t]);
    AddedNewest(s, s', c);
    assert Owners(s');
    hide ThreadOk, Registry, Ordered, Owners;
  }

  lemma AddedNewest(s: State, s': State, c: Id)
    requires Registry(s) && Ordered(s) && c !in s.conns && c in s'.conns && s'.conns == s.conns[c := s'.conns[c]]
    requires s'.conns[c].generation == 0 && s'.registry == s.registry && s'.log == s.log && s'.last == s.last
    ensures Registry(s') && Ordered(s')
  {
    forall d | d in s.registry ensures Newest(s', d, s.registry[d]) {
      assert Newest(s, d, s.registry[d]);
    }
  }

  lemma AddedOk(s: State, s': State, t: Id, c: Id, u: Id)
    requires Inv(s) && t !in s.threads && c !in s.conns && u in s.threads
    requires c in s'.conns && s' == s.(conns := s.conns[c := s'.conns[c]], threads := s.threads[t := Adding(c, Look)])
    ensures ThreadOk(s', u, s.threads[u])
  {
    hide Registry, Ordered, Owners;
    assert ThreadOk(s, u, s.threads[u]);
  }

  lemma StepInv(r: bool, s: State, e: Event)
    requires Inv(s)
    ensures Inv(Step(r, s, e))
  {
    match e {
      case StartAdd(t, c, d, v) => StartAddInv(r, s, t, c, d, v);
      case StartRemove(_, _, _) => StartInv(r, s, e);
      case StartHandle(_, _) => StartInv(r, s, e);
      case HaveEffect(t) =>
        if t in s.threads && s.threads[t].HandleLive? {
          assert ThreadOk(s, t, s.threads[t]);
          var x := s.threads[t].conn;
          LogInv(s, x, Effect(s.conns[x].device, s.conns[x].generation));
        }
      case Advance(t) => if t in s.threads { AdvanceInv(r, s, t); }
    }
  }

  lemma AdvanceInv(r: bool, s: State, t: Id)
    requires Inv(s) && t in s.threads
    ensures Known(s, s.threads[t]) && Inv(ThreadStep(r, s, t, s.threads[t]))
  {
    assert ThreadOk(s, t, s.threads[t]);
    hide Inv, ThreadOk, ThreadStep;
    var th := s.threads[t];
    if th.Adding? {
      if th.stage.Have? { PublishInv(r, s, t); }
      else if th.stage.Notify? { NotifyInv(r, s, t); }
      else { AddStepInv(r, s, t); }
    } else if th.RemoveHave? && Live(s, th.conn) {
      RemoveInv(r, s, t);
    } else {
      OtherStepInv(r, s, t);
    }
  }

  lemma {:induction false} RunInv(r: bool, s: State, es: seq<Event>)
    requires Inv(s)
    ensures Inv(Run(r, s, es))
    decreases |es|
  {
    hide Inv, Step;
    if es != [] {
      StepInv(r, s, es[0]);
      RunInv(r, Step(r, s, es[0]), es[1..]);
    }
  }

  // ----------------------------------------------------------- main results

  /** In every interleaving the registered connection of a device is open and
      has the largest generation issued to that device. */
  lemma RegisteredIsNewest(r: bool, es: seq<Event>, d: Id)
    requires d in Run(r, Initial(), es).registry
    ensures var s := Run(r, Initial(), es);
      && s.registry[d] in s.conns && !s.conns[s.registry[d]].closed && s.conns[s.registry[d]].device == d
      && forall x :: x in s.conns && s.conns[x].device == d ==> s.conns[x].generation <= s.conns[s.registry[d]].generation
  {
    RunInv(r, Initial(), es);
  }

  /** In every interleaving registrations, frame effects and online notices of one
      device happen in generation order: once a later generation is registered,
      nothing of an earlier one follows but its offline notice. */
  lemma GenerationOrder(r: bool, es: seq<Event>, i: nat, j: nat)
    requires i < j < |Run(r, Initial(), es).log|
    ensures var log := Run(r, Initial(), es).log;
      log[i].device == log[j].device && !log[j].WentOffline? ==> log[i].generation <= log[j].generation
  {
    RunInv(r, Initial(), es);
  }

  /** The lock a thread is waiting for. */
  function WaitsFor(th: Thread): Option<Id> {
    if th.Adding? && th.stage.Want? then Some(th.stage.prior)
    else if th.RemoveWant? || th.HandleWant? then Some(th.conn)
    else None
  }

  /** No chain of waiting threads: whoever holds a lock that others wait for
      is not waiting itself, so these steps cannot deadlock. */
  lemma HoldersAreFree(r: bool, es: seq<Event>, t: Id)
    requires t in Run(r, Initial(), es).threads && WaitsFor(Run(r, Initial(), es).threads[t]).Some?
    ensures var s := Run(r, Initial(), es); var x := WaitsFor(s.threads[t]).value;
      && x in s.conns
      && (s.conns[x].owner.Some? ==> s.conns[x].owner.value in s.threads && WaitsFor(s.threads[s.conns[x].owner.value]).None?)
  {
    RunInv(r, Initial(), es);
    var s := Run(r, Initial(), es);
    assert ThreadOk(s, t, s.threads[t]);
    var x := WaitsFor(s.threads[t]).value;
    if s.conns[x].owner.Some? {
      assert ThreadOk(s, s.conns[x].owner.value, s.threads[s.conns[x].owner.value]);
    }
  }
}
