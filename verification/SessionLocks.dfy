/** sessionLockMap of daemon/cmd/daemon/prompt_state.go: per-session locks whose
    map entries are deleted and recreated, as interleaved atomic steps. */
module SessionLocks {
  import opened Durable

  type Id = nat

  datatype Entry = Entry(refs: int, holder: Option<Id>)

  /** A caller inside lock: blocked on the entry's mutex, past it, or past the
      unlock and about to give its reference back. */
  datatype Caller = Waiting(session: Text, entry: Id) | Holding(session: Text, entry: Id) | Leaving(session: Text, entry: Id)

  /** entries are all lock objects ever made; locks is the map that the code keeps. */
  datatype State = State(locks: map<Text, Id>, entries: map<Id, Entry>, callers: map<Id, Caller>)

  datatype Event =
    | Enter(caller: Id, session: Text, made: Id)   // made names the object if one is made
    | Acquire(caller: Id)
    | Unlock(caller: Id)
    | Leave(caller: Id)

  function Initial(): State { State(map[], map[], map[]) }

  function Entering(s: State, t: Id, session: Text, made: Id): State {
    if session in s.locks then
      var e := s.locks[session];
      if e !in s.entries then s
      else s.(entries := s.entries[e := s.entries[e].(refs := s.entries[e].refs + 1)], callers := s.callers[t := Waiting(session, e)])
    else if made in s.entries then s
    else State(s.locks[session := made], s.entries[made := Entry(1, None)], s.callers[t := Waiting(session, made)])
  }

  function Leaving'(s: State, t: Id, session: Text, e: Id): State
    requires e in s.entries
  {
    var refs := s.entries[e].refs - 1;
    State(if refs == 0 then s.locks - {session} else s.locks, s.entries[e := s.entries[e].(refs := refs)], s.callers - {t})
  }

  function Step(s: State, ev: Event): State {
    match ev
    case Enter(t, session, made) => if t in s.callers then s else Entering(s, t, session, made)
    case Acquire(t) =>
      if t in s.callers && s.callers[t].Waiting? && s.callers[t].entry in s.entries && s.entries[s.callers[t].entry].holder.None? then
        var c := s.callers[t];
        s.(entries := s.entries[c.entry := s.entries[c.entry].(holder := Some(t))], callers := s.callers[t := Holding(c.session, c.entry)])
      else s
    case Unlock(t) =>
      if t in s.callers && s.callers[t].Holding? && s.callers[t].entry in s.entries then
        var c := s.callers[t];
        s.(entries := s.entries[c.entry := s.entries[c.entry].(holder := None)], callers := s.callers[t := Leaving(c.session, c.entry)])
      else s
    case Leave(t) =>
      if t in s.callers && s.callers[t].Leaving? && s.callers[t].entry in s.entries
      then Leaving'(s, t, s.callers[t].session, s.callers[t].entry) else s
  }

  function Run(s: State, es: seq<Event>): State
    decreases |es|
  {
    if es == [] then s else Run(Step(s, es[0]), es[1..])
  }

  /** Everyone who refers to an entry: holder, waiters and those leaving. */
  function Users(callers: map<Id, Caller>, e: Id): set<Id> {
    set t | t in callers && callers[t].entry == e
  }

  function UserCount(callers: map<Id, Caller>, e: Id): int { |Users(callers, e)| }

  /** Every caller uses the entry that the map holds for its session, and no
      entry serves two sessions. */
  ghost predicate Linked(s: State) {
    && (forall t :: t in s.callers ==>
          (s.callers[t].entry in s.entries && s.callers[t].session in s.locks && s.locks[s.callers[t].session] == s.callers[t].entry))
    && (forall x :: x in s.locks ==> s.locks[x] in s.entries)
    && (forall x, y :: x in s.locks && y in s.locks && s.locks[x] == s.locks[y] ==> x == y)
  }

  /** A mutex names its one holder. */
  ghost predicate Owned(s: State) {
    forall t :: t in s.callers && s.callers[t].Holding? ==>
      (s.callers[t].entry in s.entries && s.entries[s.callers[t].entry].holder == Some(t))
  }

  ghost predicate Counted(s: State) {
    forall e :: e in s.entries ==> s.entries[e].refs == UserCount(s.callers, e)
  }

  /** The map keeps no entry without references. */
  ghost predicate Referenced(s: State) {
    forall x :: x in s.locks && s.locks[x] in s.entries ==> s.entries[s.locks[x]].refs > 0
  }

  ghost predicate Inv(s: State) {
    Linked(s) && Owned(s) && Counted(s) && Referenced(s)
  }

  lemma EnterLinked(s: State, t: Id, session: Text, made: Id)
    requires Inv(s) && t !in s.callers
    ensures Linked(Entering(s, t, session, made)) && Owned(Entering(s, t, session, made))
  {
  }

  lemma UsersGrow(callers: map<Id, Caller>, t: Id, c: Caller, x: Id)
    requires t !in callers
    ensures UserCount(callers[t := c], x) == UserCount(callers, x) + if x == c.entry then 1 else 0
  {
    assert Users(callers[t := c], x) == Users(callers, x) + if x == c.entry then {t} else {};
  }

  lemma EnterCounted(s: State, t: Id, session: Text, made: Id)
    requires Inv(s) && t !in s.callers
    ensures Counted(Entering(s, t, session, made)) && Referenced(Entering(s, t, session, made))
  {
    var s' := Entering(s, t, session, made);
    if s' != s {
      var e := s'.callers[t].entry;
      NoUsers(s, e);
      assert e in s'.entries && s'.entries == s.entries[e := s'.entries[e]];
      assert UserCount(s.callers, e) >= 0;
      forall x ensures UserCount(s'.callers, x) == UserCount(s.callers, x) + if x == e then 1 else 0 {
        UsersGrow(s.callers, t, Waiting(session, e), x);
      }
      hide Linked, Owned, UserCount;
      assert Counted(s');
      assert Referenced(s');
    }
  }

  lemma NoUsers(s: State, e: Id)
    requires Linked(s)
    ensures e !in s.entries ==> UserCount(s.callers, e) == 0
  {
    assert e !in s.entries ==> Users(s.callers, e) == {};
  }

  lemma UsersShrink(callers: map<Id, Caller>, t: Id, x: Id)
    requires t in callers
    ensures UserCount(callers - {t}, x) == UserCount(callers, x) - if x == callers[t].entry then 1 else 0
  {
    if x == callers[t].entry {
      assert Users(callers - {t}, x) == Users(callers, x) - {t};
      assert t in Users(callers, x);
    } else {
      assert Users(callers - {t}, x) == Users(callers, x);
    }
  }

  lemma Emptied(callers: map<Id, Caller>, e: Id, u: Id)
    requires UserCount(callers, e) == 0 && u in callers
    ensures callers[u].entry != e
  {
    assert u !in Users(callers, e);
  }

  lemma LeaveCounted(s: State, t: Id)
    requires Inv(s) && t in s.callers && s.callers[t].Leaving?
    ensures Counted(Leaving'(s, t, s.callers[t].session, s.callers[t].entry))
  {
    forall x ensures UserCount(s.callers - {t}, x) == UserCount(s.callers, x) - if x == s.callers[t].entry then 1 else 0 {
      UsersShrink(s.callers, t, x);
    }
    hide UserCount, Owned, Referenced;
  }

  lemma LeaveInv(s: State, t: Id)
    requires Inv(s) && t in s.callers && s.callers[t].Leaving?
    ensures Inv(Leaving'(s, t, s.callers[t].session, s.callers[t].entry))
  {
    var c := s.callers[t];
    var s' := Leaving'(s, t, c.session, c.entry);
    LeaveCounted(s, t);
    if s'.entries[c.entry].refs == 0 {
      forall u | u in s'.callers ensures s'.callers[u].entry != c.entry {
        Emptied(s'.callers, c.entry, u);
      }
    }
    assert s'.entries[c.entry].refs >= 0;
    hide UserCount, Counted;
    assert Owned(s');
    LeaveLinked(s, t);
  }

  lemma LeaveLinked(s: State, t: Id)
    requires Linked(s) && Referenced(s) && t in s.callers && s.callers[t].Leaving?
    requires var s' := Leaving'(s, t, s.callers[t].session, s.callers[t].entry);
      && s'.entries[s.callers[t].entry].refs >= 0
      && (s'.entries[s.callers[t].entry].refs == 0 ==> forall u :: u in s'.callers ==> s'.callers[u].entry != s.callers[t].entry)
    ensures var s' := Leaving'(s, t, s.callers[t].session, s.callers[t].entry); Linked(s') && Referenced(s')
  {
  }

  /** A step on a mutex moves no reference. */
  ghost predicate SameReferences(s: State, s': State) {
    && s'.locks == s.locks && s'.entries.Keys == s.entries.Keys && s'.callers.Keys == s.callers.Keys
    && (forall t :: t in s.callers ==> s'.callers[t].entry == s.callers[t].entry && s'.callers[t].session == s.callers[t].session)
    && (forall x :: x in s.entries ==> s'.entries[x].refs == s.entries[x].refs)
  }

  lemma SameReferencesKeep(s: State, s': State)
    requires SameReferences(s, s') && Linked(s) && Counted(s) && Referenced(s)
    ensures Linked(s') && Counted(s') && Referenced(s')
  {
    forall x ensures UserCount(s'.callers, x) == UserCount(s.callers, x) {
      assert Users(s'.callers, x) == Users(s.callers, x);
    }
    hide UserCount, Users;
    SameLinks(s, s');
    hide Linked;
  }

  lemma SameLinks(s: State, s': State)
    requires SameReferences(s, s') && Linked(s)
    ensures Linked(s')
  {
  }

  lemma MutexOwned(s: State, e: Event)
    requires Owned(s) && (e.Acquire? || e.Unlock?)
    ensures Owned(Step(s, e))
  {
  }

  lemma MutexReferences(s: State, e: Event)
    requires Linked(s) && (e.Acquire? || e.Unlock?)
    ensures SameReferences(s, Step(s, e))
  {
  }

  lemma StepInv(s: State, e: Event)
    requires Inv(s)
    ensures Inv(Step(s, e))
  {
    hide Linked, Owned, Counted, Referenced;
    if e.Enter? {
      if e.caller !in s.callers {
        EnterLinked(s, e.caller, e.session, e.made);
        EnterCounted(s, e.caller, e.session, e.made);
      }
    } else if e.Leave? {
      if e.caller in s.callers && s.callers[e.caller].Leaving? { LeaveInv(s, e.caller); }
    } else {
      MutexOwned(s, e);
      MutexReferences(s, e);
      SameReferencesKeep(s, Step(s, e));
    }
  }

  lemma {:induction false} RunInv(s: State, es: seq<Event>)
    requires Inv(s)
    ensures Inv(Run(s, es))
    decreases |es|
  {
    hide Inv, Step;
    if es != [] {
      StepInv(s, es[0]);
      RunInv(Step(s, es[0]), es[1..]);
    }
  }

  /** In every interleaving two callers never hold the same session, although
      entries come and go. */
  lemma MutualExclusion(es: seq<Event>, t: Id, u: Id)
    requires var s := Run(Initial(), es); t in s.callers && u in s.callers && s.callers[t].Holding? && s.callers[u].Holding?
    ensures var s := Run(Initial(), es); s.callers[t].session == s.callers[u].session ==> t == u
  {
    RunInv(Initial(), es);
  }

  /** A live entry counts exactly its users, every caller's entry is the live
      one of its session, and the map is empty when nobody is inside. */
  lemma ReferencesExact(es: seq<Event>)
    ensures var s := Run(Initial(), es);
      && (forall x :: x in s.locks ==> s.locks[x] in s.entries && s.entries[s.locks[x]].refs == |Users(s.callers, s.locks[x])| > 0)
      && (forall t :: t in s.callers ==> s.callers[t].session in s.locks && s.locks[s.callers[t].session] == s.callers[t].entry)
      && (s.callers == map[] ==> s.locks == map[])
  {
    RunInv(Initial(), es);
    var s := Run(Initial(), es);
    if s.callers == map[] {
      assert forall x :: x in s.locks ==> Users(s.callers, s.locks[x]) == {};
    }
  }

  // ----------------------------------------------------------------- progress

  /** A mutex that is held is held by somebody who is inside. */
  ghost predicate Held(s: State) {
    forall e :: e in s.entries && s.entries[e].holder.Some? ==>
      s.entries[e].holder.value in s.callers && s.callers[s.entries[e].holder.value].Holding?
      && s.callers[s.entries[e].holder.value].entry == e
  }

  lemma StepHeld(s: State, e: Event)
    requires Inv(s) && Held(s)
    ensures Held(Step(s, e))
  {
    hide Counted, Referenced;
  }

  lemma {:induction false} RunHeld(s: State, es: seq<Event>)
    requires Inv(s) && Held(s)
    ensures Inv(Run(s, es)) && Held(Run(s, es))
    decreases |es|
  {
    hide Inv, Held, Step;
    if es != [] {
      StepInv(s, es[0]);
      StepHeld(s, es[0]);
      RunHeld(Step(s, es[0]), es[1..]);
    }
  }

  /** In every reachable state a waiting caller can hold its session at once, or
      somebody else holds it, and can hand it over by unlocking. */
  lemma WaiterProceeds(es: seq<Event>, t: Id) returns (u: Id)
    requires var s := Run(Initial(), es); t in s.callers && s.callers[t].Waiting?
    ensures var s := Run(Initial(), es);
      var now, later := Step(s, Acquire(t)), Step(Step(s, Unlock(u)), Acquire(t));
      var mine := Holding(s.callers[t].session, s.callers[t].entry);
      || (t in now.callers && now.callers[t] == mine)
      || (u in s.callers && s.callers[u].Holding? && s.callers[u].session == s.callers[t].session
          && t in later.callers && later.callers[t] == mine)
  {
    RunHeld(Initial(), es);
    var s := Run(Initial(), es);
    u := t;
    if s.entries[s.callers[t].entry].holder.Some? { u := s.entries[s.callers[t].entry].holder.value; }
    hide Run, Counted, Referenced;
  }

  /** Entering waits on the entry that the session has, or on a new one; leaving
      takes the entry out of the map exactly when it was the last user's. */
  lemma EnterAndLeave(es: seq<Event>, t: Id, session: Text, made: Id)
    ensures var s := Run(Initial(), es);
      && (t !in s.callers && made !in s.entries ==>
            var w := Step(s, Enter(t, session, made));
            w.callers == s.callers[t := Waiting(session, if session in s.locks then s.locks[session] else made)])
      && (t in s.callers && s.callers[t].Leaving? ==>
            var w := Step(s, Leave(t));
            && w.callers == s.callers - {t}
            && (s.callers[t].session !in w.locks <==> Users(w.callers, s.callers[t].entry) == {})
            && forall x :: x != s.callers[t].session ==> (x in w.locks <==> x in s.locks))
  {
    RunInv(Initial(), es);
    var s := Run(Initial(), es);
    hide Run;
    if t in s.callers && s.callers[t].Leaving? { LeaveExact(s, t); }
    hide Counted, Referenced;
  }

  lemma LeaveExact(s: State, t: Id)
    requires Inv(s) && t in s.callers && s.callers[t].Leaving?
    ensures var w := Step(s, Leave(t));
      && w.callers == s.callers - {t}
      && (s.callers[t].session !in w.locks <==> Users(w.callers, s.callers[t].entry) == {})
      && forall x :: x != s.callers[t].session ==> (x in w.locks <==> x in s.locks)
  {
    LeaveCounted(s, t);
    var w := Step(s, Leave(t));
    assert w.entries[s.callers[t].entry].refs == |Users(w.callers, s.callers[t].entry)|;
  }
}
