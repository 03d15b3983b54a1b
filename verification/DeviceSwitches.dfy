/** allowDeviceSwitch of relaycore/websocket.go: at most six device switches of
    one phone connection within a minute. Times are in nanoseconds. */
module DeviceSwitches {
  const SwitchWindow: int := 60_000_000_000
  const SwitchLimit: nat := 6

  /** The switches later than the cutoff, in order. */
  function Recent(times: seq<int>, cutoff: int): seq<int> {
    if times == [] then []
    else
      var last := times[|times| - 1];
      var before := Recent(times[..|times| - 1], cutoff);
      if last > cutoff then before + [last] else before
  }

  /** One call: what is too old is dropped, and the call joins unless the limit is reached. */
  function Switched(held: seq<int>, now: int): seq<int> {
    var valid := Recent(held, now - SwitchWindow);
    if |valid| < SwitchLimit then valid + [now] else valid
  }

  /** The filter loop of the source, and the decision on what it keeps. */
  method AllowDeviceSwitch(switches: seq<int>, now: int) returns (kept: seq<int>, ok: bool)
    ensures ok <==> |Recent(switches, now - SwitchWindow)| < SwitchLimit
    ensures kept == Switched(switches, now)
  {
    var cutoff := now - SwitchWindow;
    var valid: seq<int> := [];
    for i := 0 to |switches|
      invariant valid == Recent(switches[..i], cutoff)
    {
      assert switches[..i + 1][..i] == switches[..i];
      if switches[i] > cutoff { valid := valid + [switches[i]]; }
    }
    assert switches[..|switches|] == switches;
    if |valid| >= SwitchLimit { return valid, false; }
    return valid + [now], true;
  }

  /** The list that a connection holds after calls at the given times, and the
      times at which a switch was accepted since the connection opened. */
  function Kept(calls: seq<int>): seq<int> {
    if calls == [] then []
    else Switched(Kept(calls[..|calls| - 1]), calls[|calls| - 1])
  }

  predicate LastAccepted(calls: seq<int>)
    requires calls != []
  {
    |Recent(Kept(calls[..|calls| - 1]), calls[|calls| - 1] - SwitchWindow)| < SwitchLimit
  }

  function Accepted(calls: seq<int>): seq<int> {
    if calls == [] then []
    else
      var before := Accepted(calls[..|calls| - 1]);
      if LastAccepted(calls) then before + [calls[|calls| - 1]] else before
  }

  predicate Sorted(calls: seq<int>) {
    forall i, j :: 0 <= i <= j < |calls| ==> calls[i] <= calls[j]
  }

  /** How many of the times lie in (t - window, t]. */
  function InWindow(times: seq<int>, t: int): nat {
    if times == [] then 0
    else
      var last := times[|times| - 1];
      InWindow(times[..|times| - 1], t) + if t - SwitchWindow < last <= t then 1 else 0
  }

  lemma {:induction false} RecentTwice(times: seq<int>, c: int, d: int)
    requires c <= d
    ensures Recent(Recent(times, c), d) == Recent(times, d)
  {
    if times != [] {
      var last := times[|times| - 1];
      var before := times[..|times| - 1];
      RecentTwice(before, c, d);
      RecentAppend(Recent(before, c), last, d);
      if last <= c { assert Recent(times, c) == Recent(before, c); }
    }
  }

  lemma RecentAppend(times: seq<int>, t: int, cutoff: int)
    ensures Recent(times + [t], cutoff) == if t > cutoff then Recent(times, cutoff) + [t] else Recent(times, cutoff)
  {
    assert (times + [t])[..|times|] == times;
  }

  lemma {:induction false} RecentSize(times: seq<int>, c: int)
    ensures |Recent(times, c)| <= |times|
  {
    if times != [] { RecentSize(times[..|times| - 1], c); }
  }

  lemma CallStep(calls: seq<int>)
    requires calls != []
    ensures var before, now := calls[..|calls| - 1], calls[|calls| - 1];
      && Kept(calls) == Switched(Kept(before), now)
      && Accepted(calls) == if |Recent(Kept(before), now - SwitchWindow)| < SwitchLimit then Accepted(before) + [now] else Accepted(before)
  {
    hide Recent;
  }

  /** From the latest call on, what the connection holds tells as much about the
      last minute as the whole history of accepted switches. */
  lemma {:induction false} KeptSuffices(calls: seq<int>, cutoff: int)
    requires Sorted(calls) && (calls != [] ==> calls[|calls| - 1] - SwitchWindow <= cutoff)
    ensures Recent(Kept(calls), cutoff) == Recent(Accepted(calls), cutoff) && |Kept(calls)| <= SwitchLimit
    decreases |calls|
  {
    if calls == [] { return; }
    var before, now := calls[..|calls| - 1], calls[|calls| - 1];
    SortedPrefix(calls);
    CallStep(calls);
    hide Sorted, Recent, Switched, Kept, Accepted;
    KeptSuffices(before, now - SwitchWindow);
    KeptSuffices(before, cutoff);
    SwitchTells(Kept(before), Accepted(before), now, cutoff);
  }

  lemma SortedPrefix(calls: seq<int>)
    requires Sorted(calls) && calls != []
    ensures var before := calls[..|calls| - 1];
      Sorted(before) && (before != [] ==> before[|before| - 1] <= calls[|calls| - 1])
  {
  }

  lemma SwitchTells(kept: seq<int>, accepted: seq<int>, now: int, cutoff: int)
    requires now - SwitchWindow <= cutoff && |kept| <= SwitchLimit
    requires Recent(kept, now - SwitchWindow) == Recent(accepted, now - SwitchWindow) && Recent(kept, cutoff) == Recent(accepted, cutoff)
    ensures |Switched(kept, now)| <= SwitchLimit
    ensures Recent(Switched(kept, now), cutoff) ==
            Recent(if |Recent(kept, now - SwitchWindow)| < SwitchLimit then accepted + [now] else accepted, cutoff)
  {
    RecentTwice(kept, now - SwitchWindow, cutoff);
    RecentAppend(Recent(kept, now - SwitchWindow), now, cutoff);
    RecentAppend(accepted, now, cutoff);
    RecentSize(kept, now - SwitchWindow);
    hide Recent;
  }

  lemma {:induction false} AcceptedNotLater(calls: seq<int>, t: int)
    requires forall i :: 0 <= i < |calls| ==> calls[i] <= t
    ensures InWindow(Accepted(calls), t) == |Recent(Accepted(calls), t - SwitchWindow)|
  {
    if calls != [] {
      var before := calls[..|calls| - 1];
      AcceptedNotLater(before, t);
      if LastAccepted(calls) {
        var now := calls[|calls| - 1];
        RecentAppend(Accepted(before), now, t - SwitchWindow);
        assert (Accepted(before) + [now])[..|Accepted(before)|] == Accepted(before);
      }
    }
  }

  lemma {:induction false} LaterCutoff(times: seq<int>, c: int, d: int)
    requires c <= d
    ensures |Recent(times, d)| <= |Recent(times, c)|
  {
    if times != [] { LaterCutoff(times[..|times| - 1], c, d); }
  }

  /** Over the whole life of a connection, no minute holds more than six
      accepted switches. */
  lemma {:induction false} SixPerMinute(calls: seq<int>, t: int)
    requires Sorted(calls)
    ensures InWindow(Accepted(calls), t) <= SwitchLimit
    decreases |calls|
  {
    if calls != [] {
      var n := |calls| - 1;
      var before, now := calls[..n], calls[n];
      if t < now {
        SixPerMinute(before, t);
        assert (Accepted(before) + [now])[..|Accepted(before)|] == Accepted(before);
      } else {
        KeptSuffices(calls, now - SwitchWindow);
        RecentSize(Kept(calls), now - SwitchWindow);
        AcceptedNotLater(calls, t);
        LaterCutoff(Accepted(calls), now - SwitchWindow, t - SwitchWindow);
      }
    }
  }

  /** And a switch is refused only when that minute is full: a call is accepted
      exactly when fewer than six were accepted in the minute up to it. */
  lemma AcceptedExactly(calls: seq<int>)
    requires Sorted(calls) && calls != []
    ensures LastAccepted(calls) <==> InWindow(Accepted(calls[..|calls| - 1]), calls[|calls| - 1]) < SwitchLimit
  {
    var n := |calls| - 1;
    var before, now := calls[..n], calls[n];
    AcceptedNotLater(before, now);
    SortedPrefix(calls);
    hide Sorted;
    KeptSuffices(before, now - SwitchWindow);
  }
}
