/** Which phone sockets listen to which device (relaycore/connections.go). */
module PhoneIndex {
  import opened Durable

  const MAX_PER_DEVICE := 8

  type Socket = nat
  type Device = nat
  datatype Principal = Principal(phone: Text, bypass: bool)

  type Lists = map<Device, seq<Socket>>

  datatype Index = Index(lists: Lists, outbounds: set<Socket>, principals: map<Socket, Principal>)

  datatype Op =
    | Add(device: Device, socket: Socket, principal: Principal)
    | Remove(device: Device, socket: Socket)
    | Resubscribe(device: Device, socket: Socket)
    | Drop(socket: Socket)

  // ---------------------------------------------------------- on values

  /** The pure filter. */
  function Without(s: seq<Socket>, x: Socket): seq<Socket> {
    if s == [] then [] else (if s[0] == x then [] else [s[0]]) + Without(s[1..], x)
  }

  function Get(lists: Lists, d: Device): seq<Socket> { if d in lists then lists[d] else [] }

  /** A list is stored only while it is not empty. */
  function Put(lists: Lists, d: Device, s: seq<Socket>): Lists {
    if s == [] then lists - {d} else lists[d := s]
  }

  function Newest(s: seq<Socket>): seq<Socket> {
    if |s| <= MAX_PER_DEVICE then s else s[|s| - MAX_PER_DEVICE..]
  }

  predicate Subscribed(lists: Lists, x: Socket) {
    exists d :: d in lists && x in lists[d]
  }

  function Pruned(lists: Lists, x: Socket): Lists {
    map d | d in lists && Without(lists[d], x) != [] :: Without(lists[d], x)
  }

  /** The sockets that lose their outbound when device d is cut to the newest 8. */
  function Stopped(lists: Lists, d: Device): set<Socket> {
    var s := Get(lists, d);
    var after := Put(lists, d, Newest(s));
    set y | y in s && y !in Newest(s) && !Subscribed(after, y)
  }

  /** Subscribe and cut, shared by add and resubscribe. */
  function Enlisted(i: Index, d: Device, x: Socket): Index {
    var lists := i.lists[d := Get(i.lists, d) + [x]];
    var gone := Stopped(lists, d);
    Index(Put(lists, d, Newest(lists[d])), i.outbounds + {x} - gone, i.principals - gone)
  }

  function Apply(i: Index, op: Op): Index {
    match op
    case Add(d, x, p) => Enlisted(i.(principals := i.principals[x := p]), d, x)
    case Resubscribe(d, x) => Enlisted(i.(lists := Pruned(i.lists, x)), d, x)
    case Remove(d, x) =>
      var lists := Put(i.lists, d, Without(Get(i.lists, d), x));
      if Subscribed(lists, x) then i.(lists := lists) else Index(lists, i.outbounds - {x}, i.principals - {x})
    case Drop(x) => Index(Pruned(i.lists, x), i.outbounds - {x}, i.principals - {x})
  }

  function Run(i: Index, ops: seq<Op>): Index
    decreases |ops|
  {
    if ops == [] then i else Run(Apply(i, ops[0]), ops[1..])
  }

  /** A socket has an outbound exactly when some device lists it; principals
      belong to such sockets; stored lists hold between 1 and 8 sockets. */
  ghost predicate Valid(i: Index) {
    && (forall x :: x in i.outbounds <==> Subscribed(i.lists, x))
    && i.principals.Keys <= i.outbounds
    && (forall d :: d in i.lists ==> 0 < |i.lists[d]| <= MAX_PER_DEVICE)
  }

  // ---------------------------------------------------------------- lemmas

  lemma {:induction false} WithoutMembers(s: seq<Socket>, x: Socket)
    ensures forall y :: y in Without(s, x) <==> y in s && y != x
    ensures |Without(s, x)| <= |s|
    decreases |s|
  {
    if s != [] { WithoutMembers(s[1..], x); }
  }

  lemma {:induction false} WithoutAppend(s: seq<Socket>, y: Socket, x: Socket)
    ensures Without(s + [y], x) == Without(s, x) + (if y == x then [] else [y])
    decreases |s|
  {
    if s == [] {
      assert [] + [y] == [y] && [y][1..] == [];
    } else {
      assert (s + [y])[1..] == s[1..] + [y] && (s + [y])[0] == s[0];
      WithoutAppend(s[1..], y, x);
      var tail := if y == x then [] else [y];
      assert [s[0]] + (Without(s[1..], x) + tail) == [s[0]] + Without(s[1..], x) + tail;
    }
  }

  /** Removing a socket that is absent changes nothing. */
  lemma {:induction false} WithoutAbsent(s: seq<Socket>, x: Socket)
    requires x !in s
    ensures Without(s, x) == s
    decreases |s|
  {
    if s != [] { WithoutAbsent(s[1..], x); }
  }

  lemma PrunedMembers(lists: Lists, x: Socket)
    ensures !Subscribed(Pruned(lists, x), x)
    ensures forall y :: y != x ==> (Subscribed(Pruned(lists, x), y) <==> Subscribed(lists, y))
  {
    forall d | d in lists ensures forall y :: y in Without(lists[d], x) <==> y in lists[d] && y != x {
      WithoutMembers(lists[d], x);
    }
    forall y | y != x && Subscribed(lists, y) ensures Subscribed(Pruned(lists, x), y) {
      var d :| d in lists && y in lists[d];
      assert y in Pruned(lists, x)[d];
    }
  }

  predicate Elsewhere(lists: Lists, d: Device, y: Socket) {
    exists e :: e in lists && e != d && y in lists[e]
  }

  lemma PutMembers(lists: Lists, d: Device, s: seq<Socket>, y: Socket)
    ensures Subscribed(Put(lists, d, s), y) <==> y in s || Elsewhere(lists, d, y)
  {
    var after := Put(lists, d, s);
    if y in s { assert d in after && y in after[d]; }
    if e :| e in lists && e != d && y in lists[e] { assert e in after && y in after[e]; }
  }

  lemma GetMembers(lists: Lists, d: Device, y: Socket)
    ensures Subscribed(lists, y) <==> y in Get(lists, d) || Elsewhere(lists, d, y)
  {
    if y in Get(lists, d) { assert d in lists; }
  }

  lemma ElsewhereStays(lists: Lists, d: Device, s: seq<Socket>, y: Socket)
    ensures Elsewhere(lists[d := s], d, y) <==> Elsewhere(lists, d, y)
  {
    if e :| e in lists && e != d && y in lists[e] { assert e in lists[d := s] && y in lists[d := s][e]; }
  }

  lemma EnlistedValid(i: Index, d: Device, x: Socket)
    requires forall y :: y != x ==> (y in i.outbounds <==> Subscribed(i.lists, y))
    requires i.principals.Keys <= i.outbounds + {x}
    requires forall e :: e in i.lists ==> 0 < |i.lists[e]| <= MAX_PER_DEVICE
    ensures Valid(Enlisted(i, d, x))
    ensures x in Get(Enlisted(i, d, x).lists, d)
  {
    var full := Get(i.lists, d) + [x];
    var lists := i.lists[d := full];
    var j := Enlisted(i, d, x);
    assert lists[d] == full && Newest(full)[|Newest(full)| - 1] == x;
    forall y ensures y in j.outbounds <==> Subscribed(j.lists, y) {
      PutMembers(lists, d, Newest(full), y);
      GetMembers(i.lists, d, y);
      ElsewhereStays(i.lists, d, full, y);
      assert y in full <==> y in Get(i.lists, d) || y == x;
      assert y in Newest(full) ==> y in full;
    }
  }

  /** Every operation keeps the index consistent. */
  lemma ApplyValid(i: Index, op: Op)
    requires Valid(i)
    ensures Valid(Apply(i, op))
  {
    match op {
      case Add(d, x, p) => EnlistedValid(i.(principals := i.principals[x := p]), d, x);
      case Resubscribe(d, x) =>
        PrunedMembers(i.lists, x);
        PrunedSizes(i.lists, x);
        EnlistedValid(i.(lists := Pruned(i.lists, x)), d, x);
      case Remove(d, x) => RemoveValid(i, d, x);
      case Drop(x) =>
        PrunedMembers(i.lists, x);
        PrunedSizes(i.lists, x);
    }
  }

  lemma PrunedSizes(lists: Lists, x: Socket)
    requires forall d :: d in lists ==> 0 < |lists[d]| <= MAX_PER_DEVICE
    ensures forall d :: d in Pruned(lists, x) ==> 0 < |Pruned(lists, x)[d]| <= MAX_PER_DEVICE
  {
    forall d | d in lists ensures |Without(lists[d], x)| <= |lists[d]| { WithoutMembers(lists[d], x); }
  }

  lemma RemoveValid(i: Index, d: Device, x: Socket)
    requires Valid(i)
    ensures Valid(Apply(i, Remove(d, x)))
  {
    var s := Get(i.lists, d);
    WithoutMembers(s, x);
    forall y ensures y != x ==> (Subscribed(Put(i.lists, d, Without(s, x)), y) <==> Subscribed(i.lists, y))
      ensures Subscribed(Put(i.lists, d, Without(s, x)), x) ==> Subscribed(i.lists, x)
    {
      PutMembers(i.lists, d, Without(s, x), y);
      GetMembers(i.lists, d, y);
      PutMembers(i.lists, d, Without(s, x), x);
      GetMembers(i.lists, d, x);
    }
  }

  /** In every reachable state the index is consistent. */
  lemma {:induction false} RunValid(i: Index, ops: seq<Op>)
    requires Valid(i)
    ensures Valid(Run(i, ops))
    decreases |ops|
  {
    hide Valid, Apply;
    if ops != [] {
      ApplyValid(i, ops[0]);
      RunValid(Apply(i, ops[0]), ops[1..]);
    }
  }

  function Count(s: seq<Socket>, x: Socket): nat { multiset(s)[x] }

  /** Resubscribing leaves the socket exactly once, in the list of its new device. */
  lemma ResubscribeMoves(i: Index, d: Device, x: Socket)
    requires Valid(i)
    ensures var lists := Apply(i, Resubscribe(d, x)).lists;
      && d in lists && Count(lists[d], x) == 1 && lists[d][|lists[d]| - 1] == x
      && forall e :: e in lists && e != d ==> x !in lists[e]
  {
    var others := Pruned(i.lists, x);
    var lists := Apply(i, Resubscribe(d, x)).lists;
    EnlistedLists(i.(lists := others), d, x);
    assert forall e :: e in others ==> x !in others[e] by { PrunedMembers(i.lists, x); }
    assert x !in Get(others, d);
    LastOnce(Get(others, d), x);
    assert lists == others[d := Newest(Get(others, d) + [x])];
    hide Apply, Pruned, Valid, Newest;
  }

  lemma EnlistedLists(i: Index, d: Device, x: Socket)
    ensures Enlisted(i, d, x).lists == i.lists[d := Newest(Get(i.lists, d) + [x])]
  {
    assert Newest(Get(i.lists, d) + [x]) != [];
  }

  lemma LastOnce(s: seq<Socket>, x: Socket)
    requires x !in s
    ensures var kept := Newest(s + [x]); kept != [] && kept[|kept| - 1] == x && Count(kept, x) == 1
  {
    var kept := Newest(s + [x]);
    var front := if |s| < MAX_PER_DEVICE then s else s[|s| + 1 - MAX_PER_DEVICE..];
    assert kept == front + [x] && x !in front;
  }

  /** Adding puts the socket last in its device's list, of which the newest eight
      stay; other lists are as before, and the socket can be written to. */
  lemma AddOutcome(i: Index, d: Device, x: Socket, p: Principal)
    requires Valid(i)
    ensures var j, before := Apply(i, Add(d, x, p)), Get(i.lists, d);
      && d in j.lists && j.lists[d] == (if |before| < 8 then before else before[|before| - 7..]) + [x]
      && (forall e :: e != d ==> (e in j.lists <==> e in i.lists) && (e in j.lists ==> j.lists[e] == i.lists[e]))
      && x in j.outbounds && x in j.principals && j.principals[x] == p
      && (forall y :: y in i.outbounds && y !in j.outbounds ==> y in before && !Subscribed(j.lists, y))
      && (forall y :: y in j.outbounds && y in i.principals && y != x ==> y in j.principals && j.principals[y] == i.principals[y])
  {
    ApplyValid(i, Add(d, x, p));
    var before := Get(i.lists, d);
    EnlistedLists(i, d, x);
    assert Newest(before + [x]) == (if |before| < 8 then before else before[|before| - 7..]) + [x];
    var j := Apply(i, Add(d, x, p));
    assert j.lists == Enlisted(i, d, x).lists;
    assert x in j.lists[d];
    assert Subscribed(j.lists, x);
    hide Valid, Newest;
  }

  /** Removing takes the socket out of one list; it stays reachable exactly while
      another device lists it. */
  lemma RemoveOutcome(i: Index, d: Device, x: Socket)
    requires Valid(i)
    ensures var j := Apply(i, Remove(d, x));
      && Get(j.lists, d) == Without(Get(i.lists, d), x) && (forall y :: y in Get(j.lists, d) <==> y in Get(i.lists, d) && y != x)
      && (forall e :: e != d ==> (e in j.lists <==> e in i.lists) && (e in j.lists ==> j.lists[e] == i.lists[e]))
      && (x in j.outbounds <==> x in i.outbounds && Elsewhere(i.lists, d, x))
      && (forall y :: y != x ==> (y in j.outbounds <==> y in i.outbounds)
                                 && (y in j.principals <==> y in i.principals) && (y in j.principals ==> j.principals[y] == i.principals[y]))
  {
    WithoutMembers(Get(i.lists, d), x);
    PutMembers(i.lists, d, Without(Get(i.lists, d), x), x);
    GetMembers(i.lists, d, x);
  }

  /** Dropping takes the socket out of every list and leaves the others there. */
  lemma DropOutcome(i: Index, x: Socket)
    ensures var j := Apply(i, Drop(x));
      && (forall d :: Get(j.lists, d) == Without(Get(i.lists, d), x))
      && (forall d, y :: y in Get(j.lists, d) <==> y in Get(i.lists, d) && y != x)
      && j.outbounds == i.outbounds - {x} && j.principals == i.principals - {x}
  {
    forall d ensures Get(Apply(i, Drop(x)).lists, d) == Without(Get(i.lists, d), x)
      ensures forall y :: y in Get(Apply(i, Drop(x)).lists, d) <==> y in Get(i.lists, d) && y != x
    {
      WithoutMembers(Get(i.lists, d), x);
    }
  }

  // ---------------------------------------------------------------- the object

  /** withoutPhoneConn filters in place: the kept sockets move to the front. */
  method FilterInPlace(a: array<Socket>, n: nat, target: Socket) returns (m: nat)
    requires n <= a.Length
    modifies a
    ensures m <= n && a[..m] == Without(old(a[..n]), target)
    ensures a[n..] == old(a[n..])
  {
    m := 0;
    var i := 0;
    while i < n
      invariant m <= i <= n
      invariant a[..m] == Without(old(a[..i]), target)
      invariant a[i..] == old(a[i..])
    {
      assert old(a[..i + 1]) == old(a[..i]) + [old(a[i])];
      assert a[i] == a[i..][0] == old(a[i..])[0] == old(a[i]);
      WithoutAppend(old(a[..i]), old(a[i]), target);
      var tail := a[i + 1..];
      assert tail == a[i..][1..] == old(a[i..])[1..] == old(a[i + 1..]);
      if a[i] != target {
        a[m] := a[i];
        m := m + 1;
      }
      i := i + 1;
    }
  }

  class PhoneConns {
    var lists: Lists
    var outbounds: set<Socket>
    var principals: map<Socket, Principal>

    function Value(): Index
      reads this
    {
      Index(lists, outbounds, principals)
    }

    constructor ()
      ensures Value() == Index(map[], {}, map[]) && Valid(Value())
    {
      lists, outbounds, principals := map[], {}, map[];
    }

    /** evictExcessPhoneConnsLocked. */
    method EvictExcess(d: Device) returns (closed: seq<Socket>)
      requires d in lists && lists[d] != []
      modifies this
      ensures lists == Put(old(lists), d, Newest(old(lists)[d])) && d in lists && closed + lists[d] == old(lists)[d]
      ensures outbounds == old(outbounds) - Stopped(old(lists), d)
      ensures principals == old(principals) - Stopped(old(lists), d)
    {
      closed := [];
      ghost var all := lists[d];
      assert lists == old(lists)[d := all];
      while |lists[d]| > MAX_PER_DEVICE
        invariant d in lists && lists == old(lists)[d := lists[d]]
        invariant closed + lists[d] == all
        invariant |all| <= MAX_PER_DEVICE ==> closed == []
        invariant |all| > MAX_PER_DEVICE ==> |lists[d]| >= MAX_PER_DEVICE
        invariant outbounds == old(outbounds) - Gone(lists, closed) && principals == old(principals) - Gone(lists, closed)
        decreases |lists[d]|
      {
        var oldest := lists[d][0];
        GoneStep(lists, d, closed);
        lists := lists[d := lists[d][1..]];
        if !Subscribed(lists, oldest) {
          outbounds := outbounds - {oldest};
          principals := principals - {oldest};
        }
        closed := closed + [oldest];
      }
      assert lists[d] == Newest(all);
      GoneAll(old(lists), lists, d, closed);
    }

    method Join(d: Device, x: Socket) returns (closed: seq<Socket>)
      modifies this
      ensures Value() == Enlisted(old(Value()), d, x)
    {
      lists := lists[d := Get(lists, d) + [x]];
      outbounds := outbounds + {x};
      closed := EvictExcess(d);
    }

    method AddPhone(d: Device, x: Socket, p: Principal) returns (closed: seq<Socket>)
      requires Valid(Value())
      modifies this
      ensures Valid(Value()) && Value() == Apply(old(Value()), Add(d, x, p))
    {
      ApplyValid(Value(), Add(d, x, p));
      principals := principals[x := p];
      closed := Join(d, x);
    }

    /** The loop that takes a socket out of every list. */
    method Prune(x: Socket)
      modifies this`lists
      ensures lists == Pruned(old(lists), x)
    {
      var rest := lists.Keys;
      while rest != {}
        invariant rest <= old(lists).Keys && lists.Keys <= old(lists).Keys && rest <= lists.Keys
        invariant forall d :: d in rest ==> lists[d] == old(lists)[d]
        invariant forall d :: d in old(lists) && d !in rest ==>
                    (d in lists <==> Without(old(lists)[d], x) != []) && (d in lists ==> lists[d] == Without(old(lists)[d], x))
        decreases |rest|
      {
        var d :| d in rest;
        var s := Without(lists[d], x);
        lists := Put(lists, d, s);
        rest := rest - {d};
      }
    }

    method ResubscribePhone(d: Device, x: Socket) returns (closed: seq<Socket>)
      requires Valid(Value())
      modifies this
      ensures Valid(Value()) && Value() == Apply(old(Value()), Resubscribe(d, x))
    {
      ApplyValid(Value(), Resubscribe(d, x));
      Prune(x);
      closed := Join(d, x);
    }

    method RemovePhone(d: Device, x: Socket)
      requires Valid(Value())
      modifies this
      ensures Valid(Value()) && Value() == Apply(old(Value()), Remove(d, x))
    {
      ApplyValid(Value(), Remove(d, x));
      lists := Put(lists, d, Without(Get(lists, d), x));
      if !Subscribed(lists, x) {
        outbounds := outbounds - {x};
        principals := principals - {x};
      }
    }

    method DropPhone(x: Socket)
      requires Valid(Value())
      modifies this
      ensures Valid(Value()) && Value() == Apply(old(Value()), Drop(x))
    {
      ApplyValid(Value(), Drop(x));
      Prune(x);
      outbounds := outbounds - {x};
      principals := principals - {x};
    }
  }

  /** The closed sockets that no device lists any more. */
  function Gone(lists: Lists, closed: seq<Socket>): set<Socket> {
    set y | y in closed && !Subscribed(lists, y)
  }

  /** Dropping the first socket of a list unsubscribes at most that socket. */
  lemma GoneStep(lists: Lists, d: Device, closed: seq<Socket>)
    requires d in lists && lists[d] != []
    ensures var after, x := lists[d := lists[d][1..]], lists[d][0];
      Gone(after, closed + [x]) == Gone(lists, closed) + (if Subscribed(after, x) then {} else {x})
  {
    var after, x := lists[d := lists[d][1..]], lists[d][0];
    assert lists[d] == [x] + after[d];
    forall y | y != x ensures Subscribed(after, y) <==> Subscribed(lists, y) {
      if e :| e in lists && y in lists[e] { assert y in after[e]; }
      if e :| e in after && y in after[e] { assert y in lists[e]; }
    }
    if e :| e in after && x in after[e] { assert x in lists[e]; }
    assert x in lists[d] && Subscribed(lists, x);
  }

  lemma GoneAll(before: Lists, after: Lists, d: Device, closed: seq<Socket>)
    requires d in before && d in after && after == before[d := after[d]]
    requires closed + after[d] == before[d] && after[d] == Newest(before[d]) && after[d] != []
    ensures Gone(after, closed) == Stopped(before, d)
  {
    assert forall y :: y in before[d] <==> y in closed || y in after[d];
    assert forall y :: y in after[d] ==> Subscribed(after, y);
    assert Put(before, d, Newest(before[d])) == after;
  }
}
