/** The journal file: what loadPromptJournal accepts and restores. */
module JournalFile {
  import opened Durable
  import opened QueueModel
  import opened JournalModel

  const VERSION := 2
  const LEGACY_VERSION := 1

  /** One stored record. name stands for the hashed key; ids are the routing
      identifiers, absent in opaque records; mark is None for an unknown status. */
  datatype Entry = Entry(name: Key, ids: Option<Key>, legacy: bool, mark: Option<Mark>, echo: Text, updatedAt: int)

  datatype File = File(version: int, device: Text, entries: seq<Entry>)

  predicate ValidEntry(rules: Rules, version: int, e: Entry) {
    && e.mark.Some?
    && (version != LEGACY_VERSION ==>
          if e.legacy then e.ids.None? else e.ids == Some(e.name) && ValidIds(rules, e.name))
  }

  function Restored(rules: Rules, version: int, e: Entry): Record
    requires e.mark.Some?
  {
    Recovered(Record(e.mark.value, e.updatedAt, Bounded(rules, e.echo), e.legacy || version == LEGACY_VERSION))
  }

  function LoadEntries(rules: Rules, version: int, entries: seq<Entry>, sofar: Records): Option<Records>
    decreases |entries|
  {
    if entries == [] then Some(sofar)
    else if !ValidEntry(rules, version, entries[0]) || entries[0].name in sofar then None
    else LoadEntries(rules, version, entries[1..], sofar[entries[0].name := Restored(rules, version, entries[0])])
  }

  /** The records of a file, before trimming to the limit. */
  function Read(rules: Rules, device: Text, file: File): Option<Records> {
    if (file.version != LEGACY_VERSION && file.version != VERSION) || file.device != device then None
    else LoadEntries(rules, file.version, file.entries, map[])
  }

  /** What the daemon may hold: bounded echoes, and valid ids on identified records. */
  ghost predicate Storable(rules: Rules, records: Records) {
    forall k :: k in records ==> |records[k].echo| <= MAX_ECHO && (records[k].legacy || ValidIds(rules, k))
  }

  function EntryOf(k: Key, r: Record): Entry {
    Entry(k, if r.legacy then None else Some(k), r.legacy, Some(r.mark), r.echo, r.updatedAt)
  }

  /** entries holds every record once, in any order. */
  ghost predicate Lists(records: Records, entries: seq<Entry>) {
    && (forall i :: 0 <= i < |entries| ==>
          entries[i].name in records && entries[i] == EntryOf(entries[i].name, records[entries[i].name]))
    && (forall k :: k in records ==> exists i :: 0 <= i < |entries| && entries[i].name == k)
    && (forall i, j :: 0 <= i < j < |entries| ==> entries[i].name != entries[j].name)
  }

  ghost function Names(entries: seq<Entry>, n: nat): set<Key>
    requires n <= |entries|
  {
    set i | 0 <= i < n :: entries[i].name
  }

  ghost function Loaded(records: Records, entries: seq<Entry>, n: nat): Records
    requires n <= |entries|
  {
    map k | k in records && k in Names(entries, n) :: Recovered(records[k])
  }

  lemma LoadedStep(rules: Rules, records: Records, entries: seq<Entry>, n: nat)
    requires Storable(rules, records) && Lists(records, entries) && n < |entries|
    ensures ValidEntry(rules, VERSION, entries[n]) && entries[n].name !in Loaded(records, entries, n)
    ensures Loaded(records, entries, n)[entries[n].name := Restored(rules, VERSION, entries[n])] == Loaded(records, entries, n + 1)
  {
    var k := entries[n].name;
    assert Restored(rules, VERSION, entries[n]) == Recovered(records[k]);
    assert Names(entries, n + 1) == Names(entries, n) + {k};
    assert k !in Names(entries, n);
    hide Names;
    assert Loaded(records, entries, n + 1) == Loaded(records, entries, n)[k := Recovered(records[k])];
  }

  lemma {:induction false} LoadFrom(rules: Rules, records: Records, entries: seq<Entry>, n: nat)
    requires Storable(rules, records) && Lists(records, entries) && n <= |entries|
    ensures LoadEntries(rules, VERSION, entries[n..], Loaded(records, entries, n)) == Some(RecoveredAll(records))
    decreases |entries| - n
  {
    if n == |entries| {
      assert Loaded(records, entries, n) == RecoveredAll(records);
    } else {
      hide Loaded, Lists, Storable;
      LoadedStep(rules, records, entries, n);
      LoadFrom(rules, records, entries, n + 1);
      assert entries[n..][1..] == entries[n + 1..] && entries[n..][0] == entries[n];
    }
  }

  /** Every entry is valid and no name comes twice. */
  ghost predicate Readable(rules: Rules, version: int, entries: seq<Entry>) {
    && (forall i :: 0 <= i < |entries| ==> ValidEntry(rules, version, entries[i]))
    && (forall i, j :: 0 <= i < j < |entries| ==> entries[i].name != entries[j].name)
  }

  /** r holds exactly the restored entries besides those of sofar. */
  ghost predicate ReadFrom(rules: Rules, version: int, entries: seq<Entry>, sofar: Records, r: Records)
    requires forall i :: 0 <= i < |entries| ==> entries[i].mark.Some?
  {
    && r.Keys == sofar.Keys + Names(entries, |entries|)
    && (forall k :: k in sofar ==> r[k] == sofar[k])
    && (forall i :: 0 <= i < |entries| ==> r[entries[i].name] == Restored(rules, version, entries[i]))
  }

  lemma SplitNames(entries: seq<Entry>)
    requires entries != []
    ensures Names(entries, |entries|) == {entries[0].name} + Names(entries[1..], |entries| - 1)
  {
    forall k | k in Names(entries, |entries|) ensures k == entries[0].name || k in Names(entries[1..], |entries| - 1) {
      var i :| 0 <= i < |entries| && entries[i].name == k;
      if i > 0 { assert entries[1..][i - 1] == entries[i]; }
    }
    forall i | 0 <= i < |entries| - 1 ensures entries[1..][i].name in Names(entries, |entries|) {
      assert entries[1..][i] == entries[i + 1];
    }
  }

  lemma SplitReadable(rules: Rules, version: int, entries: seq<Entry>)
    requires entries != []
    ensures Readable(rules, version, entries) <==>
      ValidEntry(rules, version, entries[0]) && Readable(rules, version, entries[1..]) && entries[0].name !in Names(entries[1..], |entries| - 1)
  {
    hide ValidEntry;
    var rest := entries[1..];
    assert forall i :: 0 <= i < |rest| ==> rest[i] == entries[i + 1];
    if entries[0].name in Names(rest, |entries| - 1) {
      var i :| 0 <= i < |rest| && rest[i].name == entries[0].name;
      assert entries[i + 1].name == entries[0].name;
    } else {
      forall i | 0 < i < |entries| ensures entries[i].name != entries[0].name && entries[i] == rest[i - 1] {
        assert rest[i - 1].name in Names(rest, |entries| - 1);
      }
    }
  }

  lemma {:induction false} LoadEntriesExact(rules: Rules, version: int, entries: seq<Entry>, sofar: Records)
    ensures LoadEntries(rules, version, entries, sofar).Some? <==>
      Readable(rules, version, entries) && Names(entries, |entries|) !! sofar.Keys
    ensures LoadEntries(rules, version, entries, sofar).Some? ==>
      ReadFrom(rules, version, entries, sofar, LoadEntries(rules, version, entries, sofar).value)
    decreases |entries|
  {
    if entries == [] {
      assert Names(entries, 0) == {};
    } else {
      SplitNames(entries);
      SplitReadable(rules, version, entries);
      if ValidEntry(rules, version, entries[0]) {
        var next := sofar[entries[0].name := Restored(rules, version, entries[0])];
        LoadEntriesExact(rules, version, entries[1..], next);
        if LoadEntries(rules, version, entries, sofar).Some? {
          ReadMore(rules, version, entries, sofar, LoadEntries(rules, version, entries, sofar).value);
        }
      }
      hide Readable, ValidEntry, Restored, Names;
    }
  }

  lemma ReadMore(rules: Rules, version: int, entries: seq<Entry>, sofar: Records, r: Records)
    requires entries != [] && entries[0].name !in sofar && Readable(rules, version, entries)
    requires forall i :: 0 <= i < |entries| - 1 ==> entries[1..][i].mark.Some?
    requires entries[0].mark.Some? && Names(entries, |entries|) == {entries[0].name} + Names(entries[1..], |entries| - 1)
    requires ReadFrom(rules, version, entries[1..], sofar[entries[0].name := Restored(rules, version, entries[0])], r)
    ensures ReadFrom(rules, version, entries, sofar, r)
  {
    hide Restored;
    forall i | 0 <= i < |entries| ensures r[entries[i].name] == Restored(rules, version, entries[i]) {
      if i > 0 { assert entries[1..][i - 1] == entries[i]; }
    }
  }

  /** A file of this device is read exactly when its version is known, every
      entry is valid, and no name comes twice; just those records result. */
  lemma ReadExact(rules: Rules, device: Text, file: File)
    ensures Read(rules, device, file).Some? <==>
      (file.version == 1 || file.version == 2) && file.device == device && Readable(rules, file.version, file.entries)
    ensures Read(rules, device, file).Some? ==> ReadFrom(rules, file.version, file.entries, map[], Read(rules, device, file).value)
  {
    LoadEntriesExact(rules, file.version, file.entries, map[]);
    hide ReadFrom, LoadEntries;
  }

  /** The repairs: dispatching becomes indeterminate, version 1 records become
      opaque, an echo within its limit stays; nothing else changes. */
  lemma RestoredOutcome(rules: Rules, version: int, e: Entry)
    requires e.mark.Some?
    ensures var r := Restored(rules, version, e);
      && r.mark == (if e.mark == Some(Mark.Dispatching) then Mark.Indeterminate else e.mark.value)
      && r.updatedAt == e.updatedAt && r.legacy == (e.legacy || version == 1) && (|e.echo| <= 512 ==> r.echo == e.echo)
  {
  }

  /** Whatever the daemon persists is accepted by the next start and restored
      with nothing changed but dispatching downgraded to indeterminate. */
  lemma ReloadExact(rules: Rules, device: Text, records: Records, entries: seq<Entry>)
    requires Storable(rules, records) && Lists(records, entries)
    ensures Read(rules, device, File(VERSION, device, entries)) == Some(RecoveredAll(records))
  {
    LoadFrom(rules, records, entries, 0);
    assert entries[0..] == entries;
    assert Loaded(records, entries, 0) == map[];
  }

  lemma WrittenStorable(rules: Rules, max: nat, records: Records, op: JournalOp, now: int)
    requires Storable(rules, records) && CanWrite(rules, max, records, op)
    ensures Storable(rules, Written(rules, max, records, op, now))
  {
  }

  method ReadRecords(rules: Rules, device: Text, file: File) returns (r: Option<Records>)
    ensures r == Read(rules, device, file)
  {
    if (file.version != LEGACY_VERSION && file.version != VERSION) || file.device != device { return None; }
    var records: Records := map[];
    var n := 0;
    while n < |file.entries|
      invariant n <= |file.entries|
      invariant Read(rules, device, file) == LoadEntries(rules, file.version, file.entries[n..], records)
    {
      var e := file.entries[n];
      assert file.entries[n..][0] == e && file.entries[n..][1..] == file.entries[n + 1..];
      if !ValidEntry(rules, file.version, e) || e.name in records { return None; }
      records := records[e.name := Restored(rules, file.version, e)];
      n := n + 1;
    }
    r := Some(records);
  }

  // ---------------------------------------------------------------- trimming

  ghost function Uncommitted(records: Records): set<Key> {
    set k | k in records && !records[k].mark.Committed?
  }

  /** evictOldestCommitted: the committed record that was updated first, if any. */
  method FindVictim(records: Records) returns (v: Option<Key>)
    ensures v.Some? ==> OldestCommitted(records, v.value)
    ensures v.None? ==> forall k :: k in records ==> !records[k].mark.Committed?
  {
    v := None;
    var rest := records.Keys;
    while rest != {}
      invariant rest <= records.Keys
      invariant v.Some? ==> v.value in records && records[v.value].mark.Committed?
      invariant forall k :: k in records && k !in rest && records[k].mark.Committed? ==>
                              v.Some? && records[v.value].updatedAt <= records[k].updatedAt
      decreases |rest|
    {
      var k :| k in rest;
      if records[k].mark.Committed? && (v.None? || records[k].updatedAt < records[v.value].updatedAt) {
        v := Some(k);
      }
      rest := rest - {k};
    }
  }

  /** The oldest committed records go until max is met; that fails exactly when
      more than max records are not committed. */
  ghost predicate Trims(records: Records, max: nat, r: Option<Records>) {
    && (r.None? <==> |Uncommitted(records)| > max)
    && (r.Some? ==>
          && r.value.Keys <= records.Keys
          && (forall k :: k in r.value ==> r.value[k] == records[k])
          && |r.value| == (if |records| <= max then |records| else max)
          && Uncommitted(r.value) == Uncommitted(records)
          && (forall j, k :: j in records && j !in r.value && k in r.value && records[k].mark.Committed? ==>
                               records[j].updatedAt <= records[k].updatedAt))
  }

  /** Within the limit nothing is trimmed. */
  lemma TrimsNothing(records: Records, max: nat, r: Option<Records>)
    requires |records| <= max
    ensures Trims(records, max, r) <==> r == Some(records)
  {
    KeyCount(records, Uncommitted(records));
    if Trims(records, max, r) {
      assert r.value.Keys <= records.Keys && |r.value.Keys| == |r.value| && |records.Keys| == |records|;
      SameKeys(r.value.Keys, records.Keys);
      assert r.value == records;
    }
  }

  lemma SameKeys(a: set<Key>, b: set<Key>)
    requires a <= b && |a| == |b|
    ensures a == b
  {
    assert b == a + (b - a);
  }

  /** trimCommitted. */
  method TrimCommitted(records: Records, max: nat) returns (r: Option<Records>)
    ensures Trims(records, max, r)
  {
    var kept := records;
    KeyCount(records, Uncommitted(records));
    while |kept| > max
      invariant kept.Keys <= records.Keys && forall k :: k in kept ==> kept[k] == records[k]
      invariant Uncommitted(kept) == Uncommitted(records)
      invariant |kept| >= (if |records| <= max then |records| else max)
      invariant |kept| <= |records|
      invariant forall j, k :: j in records && j !in kept && k in kept && records[k].mark.Committed? ==>
                                 records[j].updatedAt <= records[k].updatedAt
      decreases |kept|
    {
      var v := FindVictim(kept);
      if v.None? {
        assert Uncommitted(kept) == kept.Keys;
        return None;
      }
      ghost var before := kept;
      kept := kept - {v.value};
      assert kept.Keys == before.Keys - {v.value};
      assert |kept| == |before| - 1;
    }
    KeyCount(kept, Uncommitted(kept));
    r := Some(kept);
  }

  /** The outcomes of a whole load: reading, then trimming. */
  ghost predicate Loads(rules: Rules, device: Text, max: nat, file: File, r: Option<Records>) {
    match Read(rules, device, file)
    case None => r.None?
    case Some(records) => Trims(records, max, r)
  }

  /** loadPromptJournal once the file is parsed. */
  method LoadPromptJournal(rules: Rules, device: Text, max: nat, file: File) returns (r: Option<Records>)
    ensures Loads(rules, device, max, file, r)
  {
    r := ReadRecords(rules, device, file);
    if r.Some? { r := TrimCommitted(r.value, max); }
  }

  lemma KeyCount(records: Records, ks: set<Key>)
    requires ks <= records.Keys
    ensures |ks| <= |records|
  {
    assert records.Keys == ks + (records.Keys - ks);
  }
}
