/** replayPromptCommits of relaycore/websocket.go: after a reconnect the relay
    heals and announces every accepted row that is not yet marked committed. */
module CommitReplay {
  import opened Durable
  import opened CommitHandshake

  const BatchSize: nat := 100

  datatype Action = Save(key: Key) | Announce(key: Key) | Mark(key: Key)

  predicate Due(rows: map<Text, Row>, r: Text) {
    r in rows && rows[r].accepted && !rows[r].committed
  }

  function DueRows(rows: map<Text, Row>): set<Text> {
    set r | r in rows && Due(rows, r)
  }

  function NameOf(rows: map<Text, Row>, r: Text): Key
    requires r in rows
  {
    Key(rows[r].session, r)
  }

  /** Nothing is announced before it is in the history, and nothing is marked
      before it was announced. */
  ghost predicate InOrder(rows: map<Text, Row>, log: seq<Action>) {
    && (forall i :: 0 <= i < |log| && log[i].Announce? ==>
          (log[i].key.client in rows && (rows[log[i].key.client].sealed || Save(log[i].key) in log[..i])))
    && (forall i :: 0 <= i < |log| && log[i].Mark? ==> Announce(log[i].key) in log[..i])
  }

  lemma Extends(rows: map<Text, Row>, log: seq<Action>, a: Action)
    requires InOrder(rows, log)
    requires a.Announce? ==> a.key.client in rows && (rows[a.key.client].sealed || Save(a.key) in log)
    requires a.Mark? ==> Announce(a.key) in log
    ensures InOrder(rows, log + [a])
  {
    var more := log + [a];
    assert more[..|log|] == log;
    forall i | 0 <= i < |log| ensures more[i] == log[i] && more[..i] == log[..i] {}
  }

  /** Only the committed mark of rows may change. */
  predicate SameRows(before: map<Text, Row>, after: map<Text, Row>) {
    && before.Keys == after.Keys
    && (forall r :: r in before ==> after[r] == before[r].(committed := after[r].committed) && (before[r].committed ==> after[r].committed))
  }

  lemma SameOrder(before: map<Text, Row>, after: map<Text, Row>, log: seq<Action>)
    requires SameRows(before, after) && InOrder(before, log)
    ensures InOrder(after, log)
  {
  }

  lemma MarkedRows(rows: map<Text, Row>, r: Text)
    requires r in rows
    ensures SameRows(rows, rows[r := rows[r].(committed := true)])
  {
  }

  /** The calls from the given one up to, not including, the other succeed. */
  ghost predicate Fine(failing: set<nat>, from: nat, to: nat) {
    forall i :: from <= i < to ==> i !in failing
  }

  lemma FineNext(failing: set<nat>, from: nat, to: nat)
    requires from <= to
    ensures Fine(failing, from, to + 1) <==> Fine(failing, from, to) && to !in failing
    ensures Fine(failing, from, from)
  {
  }

  lemma FineFrom(failing: set<nat>, from: nat, to: nat)
    requires from < to
    ensures Fine(failing, from, to) <==> from !in failing && Fine(failing, from + 1, to)
  {
  }

  class Relay {
    var rows: map<Text, Row>
    var saved: set<Key>
    ghost var log: seq<Action>
    const failing: set<nat>   // which calls to store and connection fail
    var calls: nat

    constructor (rows: map<Text, Row>, saved: set<Key>, failing: set<nat>)
      ensures this.rows == rows && this.saved == saved && log == [] && this.failing == failing && calls == 0
    {
      this.rows, this.saved, log, this.failing, calls := rows, saved, [], failing, 0;
    }

    method Call() returns (ok: bool)
      modifies this`calls
      ensures calls == old(calls) + 1 && ok == (old(calls) !in failing)
    {
      ok := calls !in failing;
      calls := calls + 1;
    }

    /** ListUncommittedAcceptedPrompts: at most limit due rows, none only if none is due. */
    method ListDue(limit: nat) returns (ok: bool, due: seq<Text>)
      modifies this`calls
      ensures calls == old(calls) + 1 && ok == (old(calls) !in failing)
      ensures |due| <= limit && (limit > 0 && DueRows(rows) != {} ==> due != [])
      ensures forall i :: 0 <= i < |due| ==> due[i] in DueRows(rows)
      ensures forall i, j :: 0 <= i < j < |due| ==> due[i] != due[j]
    {
      ok := Call();
      due := [];
      var left := DueRows(rows);
      while left != {} && |due| < limit
        invariant left <= DueRows(rows) && |due| <= limit
        invariant forall i :: 0 <= i < |due| ==> Due(rows, due[i]) && due[i] !in left
        invariant forall i, j :: 0 <= i < j < |due| ==> due[i] != due[j]
        invariant due == [] ==> left == DueRows(rows)
        decreases left
      {
        var r :| r in left;
        left, due := left - {r}, due + [r];
      }
    }

    /** persistAcceptedPrompt: nothing to do for a sealed row. */
    method PersistAccepted(r: Text) returns (ok: bool)
      requires Due(rows, r) && InOrder(rows, log)
      modifies this`saved, this`log, this`calls
      ensures InOrder(rows, log) && old(log) <= log
      ensures if rows[r].sealed then ok && calls == old(calls) else calls == old(calls) + 1 && ok == (old(calls) !in failing)
      ensures saved == if ok && !rows[r].sealed then old(saved) + {NameOf(rows, r)} else old(saved)
      ensures ok && !rows[r].sealed ==> Save(NameOf(rows, r)) in log
    {
      if rows[r].sealed { return true; }
      ok := Call();
      if !ok { return; }
      var k := NameOf(rows, r);
      saved := saved + {k};
      Extends(rows, log, Save(k));
      log := log + [Save(k)];
    }

    method SendCommitted(r: Text) returns (ok: bool)
      requires Due(rows, r) && InOrder(rows, log) && (rows[r].sealed || Save(NameOf(rows, r)) in log)
      modifies this`log, this`calls
      ensures InOrder(rows, log) && calls == old(calls) + 1 && ok == (old(calls) !in failing)
      ensures log == if ok then old(log) + [Announce(NameOf(rows, r))] else old(log)
    {
      ok := Call();
      if !ok { return; }
      Extends(rows, log, Announce(NameOf(rows, r)));
      log := log + [Announce(NameOf(rows, r))];
    }

    method MarkPromptCommitted(r: Text) returns (ok: bool)
      requires Due(rows, r) && InOrder(rows, log) && Announce(NameOf(rows, r)) in log
      modifies this`rows, this`log, this`calls
      ensures SameRows(old(rows), rows) && InOrder(rows, log) && calls == old(calls) + 1 && ok == (old(calls) !in failing)
      ensures log == if ok then old(log) + [Mark(NameOf(old(rows), r))] else old(log)
      ensures rows == if ok then old(rows)[r := old(rows)[r].(committed := true)] else old(rows)
    {
      ok := Call();
      if !ok { return; }
      Extends(rows, log, Mark(NameOf(rows, r)));
      log := log + [Mark(NameOf(rows, r))];
      ghost var before := rows;
      rows := rows[r := rows[r].(committed := true)];
      MarkedRows(before, r);
      SameOrder(before, rows, log);
    }

    /** sendPromptCommitted: announce, and mark only what was announced. */
    method SendPromptCommitted(r: Text) returns (ok: bool)
      requires Due(rows, r) && InOrder(rows, log) && (rows[r].sealed || Save(NameOf(rows, r)) in log)
      modifies this`rows, this`log, this`calls
      ensures SameRows(old(rows), rows) && InOrder(rows, log) && old(log) <= log
      ensures rows == if ok then old(rows)[r := old(rows)[r].(committed := true)] else old(rows)
      ensures ok ==> Announce(NameOf(old(rows), r)) in log
      ensures calls > old(calls) && (ok <==> Fine(failing, old(calls), calls))
    {
      ghost var c := calls;
      FineNext(failing, c, c);
      FineNext(failing, c, c + 1);
      assert SameRows(rows, rows);
      hide InOrder, SameRows, Fine;
      ok := SendCommitted(r);
      if ok { ok := MarkPromptCommitted(r); }
    }

    /** One row: heal the history, announce, mark. It stops at the first call that
        fails and at nothing else. */
    method ReplayOne(r: Text) returns (ok: bool)
      requires Due(rows, r) && InOrder(rows, log)
      modifies this
      ensures SameRows(old(rows), rows) && InOrder(rows, log) && old(log) <= log
      ensures rows == if ok then old(rows)[r := old(rows)[r].(committed := true)] else old(rows)
      ensures saved == if !rows[r].sealed && old(calls) !in failing then old(saved) + {NameOf(rows, r)} else old(saved)
      ensures ok ==> (rows[r].sealed || old(calls) !in failing) && Announce(NameOf(old(rows), r)) in log
      ensures calls > old(calls) && (ok <==> Fine(failing, old(calls), calls))
    {
      ghost var c := calls;
      FineNext(failing, c, c);
      assert SameRows(rows, rows);
      hide InOrder, SameRows, Fine;
      ok := PersistAccepted(r);
      if ok {
        ok := SendPromptCommitted(r);
        FineFrom(failing, c, calls);
      }
    }

    /** What holds of the rows at any time, given what they were at the start. */
    ghost predicate Healing(start: map<Text, Row>)
      reads this
    {
      SameRows(start, rows) && InOrder(rows, log) && AllHealed(start, rows, saved, log)
    }

    method HealRow(ghost start: map<Text, Row>, r: Text) returns (ok: bool)
      requires Healing(start) && r in DueRows(rows)
      modifies this
      ensures Healing(start) && old(saved) <= saved
      ensures DueRows(rows) == if ok then DueRows(old(rows)) - {r} else DueRows(old(rows))
      ensures calls > old(calls) && (ok <==> Fine(failing, old(calls), calls))
    {
      ghost var was, kept, told := rows, saved, log;
      hide InOrder, SameRows, AllHealed;
      ok := ReplayOne(r);
      HealsOne(start, was, rows, kept, saved, told, log, r, ok);
      if ok { OneLess(was, rows, r); }
    }

    /** Batches of one hundred until none is due or a call fails, whichever comes
        first; it ends because each batch leaves fewer rows due. */
    method ReplayPromptCommits() returns (done: bool)
      requires InOrder(rows, log)
      modifies this
      ensures SameRows(old(rows), rows) && InOrder(rows, log) && old(saved) <= saved
      ensures done ==> DueRows(rows) == {}
      ensures done <==> Fine(failing, old(calls), calls)
      ensures forall r :: Due(old(rows), r) && !Due(rows, r) ==>
                (rows[r].sealed || NameOf(rows, r) in saved) && Announce(NameOf(rows, r)) in log
    {
      ghost var start := rows;
      while true
        invariant Healing(start) && old(saved) <= saved && old(calls) <= calls && Fine(failing, old(calls), calls)
        decreases DueRows(rows)
      {
        var ok, due := ListDue(BatchSize);
        if !ok { return false; }
        if due == [] { return true; }
        ok := ReplayBatch(start, due);
        if !ok { return false; }
      }
    }

    method ReplayBatch(ghost start: map<Text, Row>, due: seq<Text>) returns (ok: bool)
      requires Healing(start) && due != []
      requires forall i :: 0 <= i < |due| ==> due[i] in DueRows(rows)
      requires forall i, j :: 0 <= i < j < |due| ==> due[i] != due[j]
      modifies this
      ensures Healing(start) && old(saved) <= saved
      ensures ok ==> DueRows(rows) < DueRows(old(rows))
      ensures calls >= old(calls) && (ok <==> Fine(failing, old(calls), calls))
    {
      for i := 0 to |due|
        invariant Healing(start) && old(saved) <= saved && calls >= old(calls) && Fine(failing, old(calls), calls)
        invariant forall j :: i <= j < |due| ==> due[j] in DueRows(rows)
        invariant DueRows(rows) <= DueRows(old(rows)) && (i > 0 ==> DueRows(rows) < DueRows(old(rows)))
      {
        hide Healing, DueRows;
        ok := HealRow(start, due[i]);
        if !ok { return; }
      }
      ok := true;
    }
  }

  lemma OneLess(before: map<Text, Row>, after: map<Text, Row>, r: Text)
    requires Due(before, r) && after == before[r := before[r].(committed := true)]
    ensures DueRows(after) == DueRows(before) - {r}
  {
  }

  /** Every row that stopped being due since the start is saved and announced. */
  ghost predicate AllHealed(start: map<Text, Row>, rows: map<Text, Row>, saved: set<Key>, log: seq<Action>) {
    forall r :: Due(start, r) && r in rows && !Due(rows, r) ==>
      (rows[r].sealed || NameOf(rows, r) in saved) && Announce(NameOf(rows, r)) in log
  }

  lemma HealsOne(start: map<Text, Row>, was: map<Text, Row>, rows: map<Text, Row>,
                 kept: set<Key>, saved: set<Key>, told: seq<Action>, log: seq<Action>, r: Text, ok: bool)
    requires AllHealed(start, was, kept, told) && Due(was, r) && SameRows(start, was)
    requires rows == if ok then was[r := was[r].(committed := true)] else was
    requires kept <= saved && told <= log
    requires ok ==> (rows[r].sealed || NameOf(rows, r) in saved) && Announce(NameOf(was, r)) in log
    ensures AllHealed(start, rows, saved, log) && SameRows(start, rows)
  {
    forall a | a in told ensures a in log {
      var i :| 0 <= i < |told| && told[i] == a;
      assert log[i] == a;
    }
  }
}
