/** The mutable journal object. */
module PromptJournalClass {
  import opened Durable
  import opened QueueModel
  import opened JournalModel
  import opened JournalFile

  /** What a call of op at time now with write outcome p does to memory and file. */
  ghost predicate JournalEffect(rules: Rules, max: nat, r: Records, f: File, op: JournalOp, now: int, p: Persist, r': Records, f': File) {
    if CanWrite(rules, max, r, op) then
      && r' == Exposed(r, Written(rules, max, r, op, now), p)
      && if p.NotWritten? then f' == f else f'.version == VERSION && Lists(Written(rules, max, r, op, now), f'.entries)
    else r' == r && f' == f
  }

  class PromptJournal {
    const rules: Rules
    const device: Text
    const max: nat
    var records: Records
    var file: File

    ghost predicate Ok()
      reads this
    {
      max > 0 && |records| <= max && Storable(rules, records)
    }

    /** A new, empty journal; a non-positive limit means the default of 4096. */
    constructor (rules: Rules, device: Text, max: int)
      ensures Ok() && records == map[] && this.rules == rules && this.device == device
      ensures this.max == if max <= 0 then 4096 else max
    {
      this.rules, this.device := rules, device;
      this.max := if max <= 0 then 4096 else max;
      records := map[];
      file := File(VERSION, device, []);
    }

    method PersistRecords(next: Records, p: Persist) returns (ok: bool)
      modifies this`file
      ensures ok == p.Saved?
      ensures if p.NotWritten? then file == old(file) else file.version == VERSION && file.device == device && Lists(next, file.entries)
    {
      if !p.NotWritten? {
        var entries: seq<Entry> := [];
        var rest := next.Keys;
        while rest != {}
          invariant rest <= next.Keys
          invariant forall i :: 0 <= i < |entries| ==>
                      entries[i].name in next && entries[i].name !in rest && entries[i] == EntryOf(entries[i].name, next[entries[i].name])
          invariant forall k :: k in next && k !in rest ==> exists i :: 0 <= i < |entries| && entries[i].name == k
          invariant forall i, j :: 0 <= i < j < |entries| ==> entries[i].name != entries[j].name
          decreases |rest|
        {
          var k :| k in rest;
          ghost var before := entries;
          entries := entries + [EntryOf(k, next[k])];
          assert entries[|before|].name == k;
          assert forall i :: 0 <= i < |before| ==> entries[i] == before[i];
          rest := rest - {k};
        }
        file := File(VERSION, device, entries);
      }
      ok := p.Saved?;
    }

    method Commit(ghost op: JournalOp, next: Records, now: int, p: Persist) returns (ok: bool)
      requires Ok() && CanWrite(rules, max, records, op) && next == Written(rules, max, records, op, now)
      modifies this
      ensures Ok() && ok == p.Saved?
      ensures JournalEffect(rules, max, old(records), old(file), op, now, p, records, file)
    {
      WrittenSize(rules, max, records, op, now);
      WrittenStorable(rules, max, records, op, now);
      ok := PersistRecords(next, p);
      if ok { records := next; }
    }

    /** victim reports the record that made room, None when the journal was not full. */
    method MarkDispatching(k: Key, prompt: Text, now: int, p: Persist) returns (ok: bool, victim: Option<Key>)
      requires Ok()
      modifies this
      ensures Ok()
      ensures ok ==> p.Saved? && k !in old(records) && k in records && records[k].mark.Dispatching?
      ensures ok <==> p.Saved? && exists v :: CanWrite(rules, max, old(records), Dispatch(k, prompt, v))
      ensures victim.Some? ==> |old(records)| >= max && OldestCommitted(old(records), victim.value)
      ensures |old(records)| < max ==> JournalEffect(rules, max, old(records), old(file), Dispatch(k, prompt, k), now, p, records, file)
      ensures victim.Some? ==> JournalEffect(rules, max, old(records), old(file), Dispatch(k, prompt, victim.value), now, p, records, file)
      ensures victim.None? && |old(records)| >= max ==> records == old(records) && file == old(file)
    {
      victim := None;
      if !ValidIds(rules, k) || k in records { ok := false; return; }
      var record := Record(Dispatching, now, Bounded(rules, prompt), false);
      if |records| >= max {
        victim := FindVictim(records);
        if victim.None? { ok := false; return; }
        ok := Commit(Dispatch(k, prompt, victim.value), (records - {victim.value})[k := record], now, p);
      } else {
        assert CanWrite(rules, max, records, Dispatch(k, prompt, k));
        ok := Commit(Dispatch(k, prompt, k), records[k := record], now, p);
      }
    }

    method RollbackDispatching(k: Key, now: int, p: Persist) returns (ok: bool)
      requires Ok()
      modifies this
      ensures Ok() && JournalEffect(rules, max, old(records), old(file), Rollback(k), now, p, records, file)
      ensures ok <==> CanWrite(rules, max, old(records), Rollback(k)) && p.Saved?
    {
      if !ValidIds(rules, k) || k !in records || !records[k].mark.Dispatching? { return false; }
      ok := Commit(Rollback(k), records - {k}, now, p);
    }

    method Transition(k: Key, mark: Mark, now: int, p: Persist) returns (ok: bool)
      requires Ok()
      modifies this
      ensures Ok() && JournalEffect(rules, max, old(records), old(file), Advance(k, mark), now, p, records, file)
      ensures ok <==> ValidIds(rules, k) && k in old(records)
                      && (old(records)[k].mark == mark || (Legal(old(records)[k].mark, mark) && p.Saved?))
    {
      if !ValidIds(rules, k) || k !in records { return false; }
      if records[k].mark == mark { return true; }
      if !Legal(records[k].mark, mark) { return false; }
      ok := Commit(Advance(k, mark), records[k := records[k].(mark := mark, updatedAt := now, legacy := false)], now, p);
    }
  }
}
