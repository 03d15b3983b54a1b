/** rateLimiter of relaycore/websocket.go: fixed windows per key in a table of
    bounded size. The order in which a map is walked is a choice that each call
    makes anew. */
module RateLimiter {
  import opened Durable

  datatype Entry = Entry(start: int, count: int)
  type Table = map<Text, Entry>
  datatype Config = Config(limit: int, window: int, maxKeys: nat)

  /** One call: its key and time, the keys that the expiry batch looked at, and
      the key that the scan for the oldest window settled on. */
  datatype Call = Call(key: Text, now: int, batch: set<Text>, oldest: Text)

  const BatchSize: nat := 64

  predicate Expired(c: Config, e: Entry, now: int) { now - e.start >= c.window }

  function Swept(c: Config, t: Table, now: int, batch: set<Text>): Table {
    map k | k in t && !(k in batch && Expired(c, t[k], now)) :: t[k]
  }

  predicate IsOldest(t: Table, k: Text) {
    k in t && forall j :: j in t ==> t[k].start <= t[j].start
  }

  /** The entry that a known key is judged by: a new window if its own is over. */
  function Current(c: Config, e: Entry, now: int): Entry {
    if Expired(c, e, now) then Entry(now, 0) else e
  }

  predicate Admits(c: Config, t: Table, k: Call) {
    k.key in t ==> Current(c, t[k.key], k.now).count < c.limit
  }

  function MadeRoom(c: Config, t: Table, k: Call): Table {
    if |t| < c.maxKeys then t
    else
      var swept := Swept(c, t, k.now, k.batch);
      if |swept| >= c.maxKeys && k.oldest != [] then swept - {k.oldest} else swept
  }

  function Next(c: Config, t: Table, k: Call): Table {
    if k.key in t then
      var e := Current(c, t[k.key], k.now);
      t[k.key := if e.count >= c.limit then e else e.(count := e.count + 1)]
    else MadeRoom(c, t, k)[k.key := Entry(k.now, 1)]
  }

  /** The choices a walk over the map can make. */
  ghost predicate Possible(c: Config, t: Table, k: Call) {
    k.key !in t && |t| >= c.maxKeys ==>
      && k.batch <= t.Keys && |k.batch| == (if |t| < BatchSize then |t| else BatchSize)
      && var swept := Swept(c, t, k.now, k.batch);
         |swept| >= c.maxKeys ==> if swept == map[] then k.oldest == [] else IsOldest(swept, k.oldest)
  }

  class Limiter {
    var requests: Table
    const config: Config

    constructor (limit: int, window: int)
      ensures requests == map[] && config == Config(limit, window, 4096)
    {
      requests := map[];
      config := Config(limit, window, 4096);
    }

    /** The decision, and the whole new table for the choices that were made. */
    method Allow(key: Text, now: int) returns (ok: bool, ghost call: Call)
      modifies this
      ensures call.key == key && call.now == now && Possible(config, old(requests), call)
      ensures ok <==> Admits(config, old(requests), call)
      ensures requests == Next(config, old(requests), call)
    {
      call := Call(key, now, {}, []);
      if key in requests {
        var entry := Current(config, requests[key], now);
        if entry.count >= config.limit {
          requests := requests[key := entry];
          return false, call;
        }
        requests := requests[key := entry.(count := entry.count + 1)];
        return true, call;
      }
      if |requests| >= config.maxKeys {
        ghost var batch := SweepBatch(now);
        call := call.(batch := batch);
        if |requests| >= config.maxKeys {
          var oldest := FindOldest();
          call := call.(oldest := oldest);
          if oldest != [] { requests := requests - {oldest}; }
        }
      }
      requests := requests[key := Entry(now, 1)];
      return true, call;
    }

    /** Looks at no more than 64 keys in any order and deletes the expired ones. */
    method SweepBatch(now: int) returns (ghost batch: set<Text>)
      modifies this
      ensures batch <= old(requests).Keys && requests == Swept(config, old(requests), now, batch)
      ensures |batch| == if |old(requests)| < BatchSize then |old(requests)| else BatchSize
    {
      var checked, pending := 0, requests.Keys;
      batch := {};
      ghost var before := requests;
      while pending != {} && checked < BatchSize
        invariant |batch| == checked <= BatchSize
        invariant pending == before.Keys - batch && batch <= before.Keys
        invariant requests == Swept(config, before, now, batch)
        decreases pending
      {
        var candidate :| candidate in pending;
        if Expired(config, requests[candidate], now) {
          requests := requests - {candidate};
        }
        pending, batch := pending - {candidate}, batch + {candidate};
        checked := checked + 1;
      }
      if pending == {} { assert batch == before.Keys; }
      BatchFits(before.Keys, batch);
    }

    method FindOldest() returns (oldest: Text)
      ensures if requests == map[] then oldest == [] else IsOldest(requests, oldest)
    {
      var pending, first, start := requests.Keys, true, 0;
      oldest := [];
      while pending != {}
        invariant pending <= requests.Keys
        invariant first <==> pending == requests.Keys
        invariant first ==> oldest == []
        invariant !first ==> oldest in requests && start == requests[oldest].start
        invariant forall j :: j in requests && j !in pending ==> start <= requests[j].start
        decreases pending
      {
        var candidate :| candidate in pending;
        if first || requests[candidate].start < start {
          oldest, start, first := candidate, requests[candidate].start, false;
        }
        pending := pending - {candidate};
      }
    }
  }

  lemma BatchFits(all: set<Text>, batch: set<Text>)
    requires batch <= all
    ensures |batch| <= |all|
  {
    assert all == batch + (all - batch);
  }
}
