/** Whole histories of the rate limiter of relaycore/websocket.go. */
module RateRuns {
  import opened Durable
  import opened RateLimiter

  function TableAfter(c: Config, calls: seq<Call>): Table
    decreases |calls|
  {
    if calls == [] then map[] else Next(c, TableAfter(c, calls[..|calls| - 1]), calls[|calls| - 1])
  }

  /** A history: time does not run backwards and every choice is one the walk
      over the map can make. */
  ghost predicate History(c: Config, calls: seq<Call>)
    decreases |calls|
  {
    calls != [] ==>
      var before := calls[..|calls| - 1];
      && History(c, before) && Possible(c, TableAfter(c, before), calls[|calls| - 1])
      && (before != [] ==> before[|before| - 1].now <= calls[|calls| - 1].now)
  }

  /** An admitted call: when it came, and when its window had begun. */
  datatype Admission = Admission(at: int, start: int)

  function Recorded(c: Config, t: Table, call: Call, key: Text, h: seq<Admission>): seq<Admission> {
    if call.key == key && Admits(c, t, call) then h + [Admission(call.now, Next(c, t, call)[key].start)] else h
  }

  function Admissions(c: Config, calls: seq<Call>, key: Text): seq<Admission>
    decreases |calls|
  {
    if calls == [] then []
    else
      var before := calls[..|calls| - 1];
      Recorded(c, TableAfter(c, before), calls[|calls| - 1], key, Admissions(c, before, key))
  }

  /** The call removes the key although its window is still open. */
  predicate DropsOpen(c: Config, t: Table, call: Call, key: Text) {
    key in t && key !in Next(c, t, call) && !Expired(c, t[key], call.now)
  }

  predicate NeverDroppedOpen(c: Config, calls: seq<Call>, key: Text)
    decreases |calls|
  {
    calls != [] ==>
      var before := calls[..|calls| - 1];
      NeverDroppedOpen(c, before, key) && !DropsOpen(c, TableAfter(c, before), calls[|calls| - 1], key)
  }

  /** Windows do not overlap and hold no more than limit admissions each. */
  ghost predicate Spaced(c: Config, h: seq<Admission>) {
    Apart(c, h) && Limited(c, h)
  }

  ghost predicate Apart(c: Config, h: seq<Admission>) {
    && (forall i :: 0 <= i < |h| ==> h[i].start <= h[i].at < h[i].start + c.window)
    && (forall i, j :: 0 <= i < j < |h| ==> h[i].at <= h[j].at && (h[i].start == h[j].start || h[i].start + c.window <= h[j].start))
  }

  ghost predicate Limited(c: Config, h: seq<Admission>) {
    forall i, j :: 0 <= i < j < |h| && i + c.limit <= j ==> h[i].start + c.window <= h[j].start
  }

  /** What the table knows of a key: its open window and how many of the last
      admissions fell in it. */
  ghost predicate Tracks(c: Config, t: Table, h: seq<Admission>, key: Text, now: int) {
    && (forall i :: 0 <= i < |h| ==> h[i].at <= now)
    && (key !in t ==> forall i :: 0 <= i < |h| ==> h[i].start + c.window <= now)
    && (key in t ==> InWindow(c, t[key], h))
  }

  ghost predicate InWindow(c: Config, e: Entry, h: seq<Admission>) {
    && 1 <= e.count <= c.limit && e.count <= |h|
    && (forall i :: |h| - e.count <= i < |h| ==> h[i].start == e.start)
    && (forall i :: 0 <= i < |h| - e.count ==> h[i].start + c.window <= e.start)
  }

  lemma NewWindow(c: Config, h: seq<Admission>, now: int)
    requires c.limit >= 1 && c.window > 0 && Spaced(c, h)
    requires forall i :: 0 <= i < |h| ==> h[i].at <= now && h[i].start + c.window <= now
    ensures var h' := h + [Admission(now, now)]; Spaced(c, h') && InWindow(c, Entry(now, 1), h')
  {
    var h' := h + [Admission(now, now)];
    assert h'[|h|] == Admission(now, now) && forall i :: 0 <= i < |h| ==> h'[i] == h[i];
    SpacedAppend(c, h, h');
  }

  /** Appending an admission keeps the spacing if it fits its own window and
      lies far enough from the earlier ones. */
  lemma SpacedAppend(c: Config, h: seq<Admission>, h': seq<Admission>)
    requires c.limit >= 1 && Spaced(c, h) && |h'| == |h| + 1 && forall i :: 0 <= i < |h| ==> h'[i] == h[i]
    requires var a := h'[|h|];
      && a.start <= a.at < a.start + c.window
      && (forall i :: 0 <= i < |h| ==> h[i].at <= a.at && (h[i].start == a.start || h[i].start + c.window <= a.start))
      && (forall i :: 0 <= i <= |h| - c.limit ==> h[i].start + c.window <= a.start)
    ensures Spaced(c, h')
  {
    assert Apart(c, h');
    assert Limited(c, h');
  }

  lemma SameWindow(c: Config, h: seq<Admission>, e: Entry, now: int)
    requires Spaced(c, h) && InWindow(c, e, h) && e.count < c.limit
    requires now < e.start + c.window && forall i :: 0 <= i < |h| ==> h[i].at <= now
    ensures var h' := h + [Admission(now, e.start)]; Spaced(c, h') && InWindow(c, e.(count := e.count + 1), h')
  {
    assert h[|h| - 1].start == e.start;
    var h' := h + [Admission(now, e.start)];
    assert h'[|h|] == Admission(now, e.start) && forall i :: 0 <= i < |h| ==> h'[i] == h[i];
    SpacedAppend(c, h, h');
  }

  lemma WindowOver(c: Config, h: seq<Admission>, e: Entry, now: int)
    requires c.window > 0 && InWindow(c, e, h) && Expired(c, e, now)
    ensures forall i :: 0 <= i < |h| ==> h[i].start + c.window <= now
  {
  }

  lemma OwnNewWindow(c: Config, t: Table, h: seq<Admission>, call: Call, now: int)
    requires c.limit >= 1 && c.window > 0 && Spaced(c, h) && Tracks(c, t, h, call.key, now) && now <= call.now
    requires call.key in t ==> Expired(c, t[call.key], call.now)
    ensures var h' := Recorded(c, t, call, call.key, h);
      Spaced(c, h') && Tracks(c, Next(c, t, call), h', call.key, call.now)
  {
    if call.key in t { WindowOver(c, h, t[call.key], call.now); }
    NewWindow(c, h, call.now);
    hide Spaced, InWindow, MadeRoom;
    assert Next(c, t, call)[call.key] == Entry(call.now, 1);
    assert Recorded(c, t, call, call.key, h) == h + [Admission(call.now, call.now)];
  }

  lemma OwnSameWindow(c: Config, t: Table, h: seq<Admission>, call: Call, now: int)
    requires c.limit >= 1 && Spaced(c, h) && Tracks(c, t, h, call.key, now) && now <= call.now
    requires call.key in t && !Expired(c, t[call.key], call.now)
    ensures var h' := Recorded(c, t, call, call.key, h);
      Spaced(c, h') && Tracks(c, Next(c, t, call), h', call.key, call.now)
  {
    var e := t[call.key];
    if e.count < c.limit {
      SameWindow(c, h, e, call.now);
      assert Next(c, t, call)[call.key] == e.(count := e.count + 1);
      assert Recorded(c, t, call, call.key, h) == h + [Admission(call.now, e.start)];
    }
    hide Spaced, InWindow;
  }

  lemma OtherCall(c: Config, t: Table, h: seq<Admission>, call: Call, key: Text, now: int)
    requires c.window > 0 && Tracks(c, t, h, key, now) && now <= call.now && call.key != key && !DropsOpen(c, t, call, key)
    ensures Tracks(c, Next(c, t, call), h, key, call.now)
  {
    if key in t && key !in Next(c, t, call) {
      WindowOver(c, h, t[key], call.now);
    }
    hide InWindow;
  }

  function Clock(calls: seq<Call>, first: int): int {
    if calls == [] then first else calls[|calls| - 1].now
  }

  lemma {:induction false} HistoryTracks(c: Config, calls: seq<Call>, key: Text, first: int)
    requires c.limit >= 1 && c.window > 0 && History(c, calls) && NeverDroppedOpen(c, calls, key)
    ensures Spaced(c, Admissions(c, calls, key))
    ensures Tracks(c, TableAfter(c, calls), Admissions(c, calls, key), key, Clock(calls, first))
    decreases |calls|
  {
    hide Spaced, Tracks, Next, Possible, Recorded;
    if calls == [] {
      assert Spaced(c, []) && Tracks(c, map[], [], key, first) by { NothingYet(c, key, first); }
    } else {
      var n := |calls| - 1;
      var before, call := calls[..n], calls[n];
      HistoryTracks(c, before, key, call.now);
      var t, h := TableAfter(c, before), Admissions(c, before, key);
      if call.key == key {
        if key in t && !Expired(c, t[key], call.now) {
          OwnSameWindow(c, t, h, call, Clock(before, call.now));
        } else {
          OwnNewWindow(c, t, h, call, Clock(before, call.now));
        }
      } else {
        OtherCall(c, t, h, call, key, Clock(before, call.now));
        NotRecorded(c, t, call, key, h);
      }
    }
  }

  lemma NothingYet(c: Config, key: Text, first: int)
    ensures Spaced(c, []) && Tracks(c, map[], [], key, first)
  {
  }

  lemma NotRecorded(c: Config, t: Table, call: Call, key: Text, h: seq<Admission>)
    ensures call.key != key ==> Recorded(c, t, call, key, h) == h
  {
  }

  lemma SpacedTwice(c: Config, h: seq<Admission>, i: int, j: int)
    requires c.limit >= 1 && Spaced(c, h) && 0 <= i && i + 2 * c.limit <= j < |h|
    ensures h[i].at + c.window < h[j].at
  {
    var m := i + c.limit;
    assert h[i].start + c.window <= h[m].start;
    assert h[m].start + c.window <= h[j].start;
  }

  /** The admissions of a key in [a, b]. */
  function Within(h: seq<Admission>, a: int, b: int): set<int> {
    set i | 0 <= i < |h| && a <= h[i].at <= b
  }

  /** A key that is never dropped in an open window is admitted at most twice
      the limit in any interval shorter than the window, over every history and
      whatever other keys do. */
  lemma TwiceTheLimit(c: Config, calls: seq<Call>, key: Text, a: int, b: int)
    requires c.limit >= 1 && History(c, calls) && NeverDroppedOpen(c, calls, key) && a <= b < a + c.window
    ensures |Within(Admissions(c, calls, key), a, b)| <= 2 * c.limit
  {
    HistoryTracks(c, calls, key, 0);
    var h := Admissions(c, calls, key);
    var w := Within(h, a, b);
    var low := FirstAt(h, a, 0);
    forall j | j in w ensures low <= j < low + 2 * c.limit {
      if j >= low + 2 * c.limit { SpacedTwice(c, h, low, j); }
    }
    Fits(w, low, 2 * c.limit);
  }

  lemma {:induction false} FirstAt(h: seq<Admission>, a: int, from: nat) returns (low: nat)
    requires from <= |h| && forall i :: 0 <= i < from ==> h[i].at < a
    ensures from <= low <= |h| && (forall i :: 0 <= i < low ==> h[i].at < a) && (low < |h| ==> a <= h[low].at)
    decreases |h| - from
  {
    low := from;
    if from < |h| && h[from].at < a { low := FirstAt(h, a, from + 1); }
  }

  lemma {:induction false} Fits(w: set<int>, low: int, n: nat)
    requires forall j :: j in w ==> low <= j < low + n
    ensures |w| <= n
    decreases n
  {
    if n == 0 {
      assert forall j :: j !in w;
    } else {
      var top := low + n - 1;
      var rest := w - {top};
      Fits(rest, low, n - 1);
      assert w <= rest + {top};
      BatchSizeMono(w, rest, top);
    }
  }

  lemma BatchSizeMono(w: set<int>, rest: set<int>, top: int)
    requires rest == w - {top}
    ensures |w| <= |rest| + 1
  {
    if top in w { assert w == rest + {top}; } else { assert w == rest; }
  }

  /** A refusal is earned: the last limit admissions of the key all lie within
      one window that is still open. */
  lemma RefusedAtLimit(c: Config, calls: seq<Call>, call: Call)
    requires c.limit >= 1 && c.window > 0 && History(c, calls) && NeverDroppedOpen(c, calls, call.key)
    requires calls != [] ==> calls[|calls| - 1].now <= call.now
    requires !Admits(c, TableAfter(c, calls), call)
    ensures var h := Admissions(c, calls, call.key);
      |h| >= c.limit && forall i :: |h| - c.limit <= i < |h| ==> call.now - c.window < h[i].at <= call.now
  {
    HistoryTracks(c, calls, call.key, call.now);
    var t, h := TableAfter(c, calls), Admissions(c, calls, call.key);
    assert InWindow(c, t[call.key], h) && t[call.key].count == c.limit;
    forall i | |h| - c.limit <= i < |h| ensures call.now - c.window < h[i].at <= call.now {
      assert h[i].start <= h[i].at;
    }
  }

  /** What a call may drop: nothing while there is room; else keys whose window
      is over, and besides at most one, which no kept key is older than. */
  lemma DropsExact(c: Config, t: Table, call: Call)
    requires Possible(c, t, call)
    ensures var after := Next(c, t, call);
      && call.key in after
      && (|t| < c.maxKeys || call.key in t ==> t.Keys <= after.Keys)
      && (forall j :: j in t && j !in after && !Expired(c, t[j], call.now) ==>
            j == call.oldest && forall i :: i in t && i in after && i != call.key ==> t[j].start <= t[i].start)
      && (forall j :: j in after && j != call.key ==> j in t && after[j] == t[j])
  {
  }

  /** What a call counts: the call's own key in its window, or in a new one. */
  lemma CountsExact(c: Config, t: Table, call: Call)
    ensures var after := Next(c, t, call);
      call.key in after && after[call.key] ==
        if call.key !in t then Entry(call.now, 1)
        else if call.now - t[call.key].start >= c.window then (if c.limit > 0 then Entry(call.now, 1) else Entry(call.now, 0))
        else if t[call.key].count < c.limit then Entry(t[call.key].start, t[call.key].count + 1)
        else t[call.key]
  {
  }

  lemma SweptSize(c: Config, t: Table, now: int, batch: set<Text>)
    ensures Swept(c, t, now, batch).Keys <= t.Keys && |Swept(c, t, now, batch)| <= |t|
  {
    var s := Swept(c, t, now, batch);
    BatchFits(t.Keys, s.Keys);
  }

  /** The size bound breaks in exactly one situation: a new key meets a full
      table in whose batch nothing has expired, and the oldest window belongs to
      the empty key, which is never evicted. */
  lemma RoomExactly(c: Config, t: Table, call: Call)
    requires c.maxKeys >= 1 && |t| <= c.maxKeys && Possible(c, t, call)
    ensures |Next(c, t, call)| > c.maxKeys <==>
      call.key !in t && |Swept(c, t, call.now, call.batch)| == |t| == c.maxKeys && call.oldest == []
  {
    var next := Next(c, t, call);
    if call.key in t {
      assert next.Keys == t.Keys;
    } else {
      SweptSize(c, t, call.now, call.batch);
      var room := MadeRoom(c, t, call);
      var swept := Swept(c, t, call.now, call.batch);
      assert call.key !in swept;
      assert next.Keys == room.Keys + {call.key};
      if |t| == c.maxKeys && |swept| >= c.maxKeys && call.oldest != [] {
        assert swept != map[];
        assert room.Keys == swept.Keys - {call.oldest};
      }
    }
  }

  /** With no empty key ever presented, the table stays within maxKeys. */
  lemma {:induction false} TableBounded(c: Config, calls: seq<Call>)
    requires c.maxKeys >= 1 && History(c, calls) && forall i :: 0 <= i < |calls| ==> calls[i].key != []
    ensures [] !in TableAfter(c, calls) && |TableAfter(c, calls)| <= c.maxKeys
    decreases |calls|
  {
    if calls != [] {
      var before, call := calls[..|calls| - 1], calls[|calls| - 1];
      TableBounded(c, before);
      var t := TableAfter(c, before);
      RoomExactly(c, t, call);
      SweptSize(c, t, call.now, call.batch);
      if call.key !in t && |Swept(c, t, call.now, call.batch)| == |t| == c.maxKeys {
        assert Swept(c, t, call.now, call.batch) != map[];
        assert call.oldest in t;
      }
    }
  }

  lemma {:induction false} SomeBatch(all: set<Text>, n: nat) returns (batch: set<Text>)
    requires n <= |all|
    ensures batch <= all && |batch| == n
    decreases n
  {
    batch := {};
    if n > 0 {
      var smaller := SomeBatch(all, n - 1);
      assert all == smaller + (all - smaller);
      assert all - smaller != {};
      var x: Text :| x in all - smaller;
      batch := smaller + {x};
    }
  }

  /** The table of the runs that grow: the empty key is oldest, nothing expires. */
  ghost predicate Crowded(c: Config, t: Table, n: nat) {
    && |t| == n && [] in t && t[[]].start == 0
    && (forall k :: k in t ==> |k| < n && 0 <= t[k].start <= 1)
  }

  lemma CrowdedStep(c: Config, t: Table, n: nat, call: Call)
    requires c.window > 1 && Crowded(c, t, n) && |call.key| == n && call.now == 1 && call.oldest == []
    requires call.batch <= t.Keys && |call.batch| == (if |t| < BatchSize then |t| else BatchSize)
    ensures Possible(c, t, call) && Crowded(c, Next(c, t, call), n + 1)
  {
    assert call.key !in t;
    assert Swept(c, t, 1, call.batch) == t;
    assert IsOldest(t, []);
    assert Next(c, t, call) == t[call.key := Entry(1, 1)];
    assert Next(c, t, call).Keys == t.Keys + {call.key};
  }

  lemma SomeText(n: nat) returns (k: Text)
    ensures |k| == n
  {
    k := seq(n, _ => 97);
  }

  lemma FirstKey(c: Config, call: Call)
    requires call == Call([], 0, {}, [])
    ensures Possible(c, map[], call) && Crowded(c, Next(c, map[], call), 1)
  {
    assert Swept(c, map[], 0, {}) == map[];
    assert Next(c, map[], call) == map[[] := Entry(0, 1)];
  }

  /** Once the empty key is oldest the table has no bound at all: for every n
      there is a history, all within one window, that leaves n keys in it. */
  lemma {:induction false} EmptyKeyGrows(c: Config, n: nat) returns (calls: seq<Call>)
    requires c.window > 1 && n >= 1
    ensures History(c, calls) && Crowded(c, TableAfter(c, calls), n)
    ensures calls != [] && 0 <= calls[|calls| - 1].now <= 1
    decreases n
  {
    hide Crowded, Possible, Next;
    if n == 1 {
      var call := Call([], 0, {}, []);
      calls := [call];
      assert calls[..0] == [];
      FirstKey(c, call);
    } else {
      var before := EmptyKeyGrows(c, n - 1);
      var t := TableAfter(c, before);
      var batch := SomeBatch(t.Keys, if |t| < BatchSize then |t| else BatchSize);
      var key := SomeText(n - 1);
      var call := Call(key, 1, batch, []);
      CrowdedStep(c, t, n - 1, call);
      calls := before + [call];
      assert calls[..|calls| - 1] == before;
    }
  }
}
