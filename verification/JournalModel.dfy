/** The command journal of daemon/cmd/daemon/prompt_journal.go, on values.
    Records are indexed by the pair of ids that the daemon hashes. */
module JournalModel {
  import opened Durable
  import opened QueueModel

  const MAX_ECHO := 512
  const DOTS: Text := [46, 46, 46]

  datatype Mark = Dispatching | Accepted | Committed | Indeterminate

  /** legacy marks a version 1 record, whose ids are not stored. */
  datatype Record = Record(mark: Mark, updatedAt: int, echo: Text, legacy: bool)

  type Records = map<Key, Record>

  datatype JournalOp =
    | Dispatch(key: Key, prompt: Text, victim: Key)   // victim matters only when the journal is full
    | Rollback(key: Key)
    | Advance(key: Key, mark: Mark)

  predicate ValidIds(rules: Rules, k: Key) {
    ValidText(rules, k.session, 512) && ValidText(rules, k.client, 256)
  }

  /** The longest cut of value, at most n bytes, that is valid UTF-8 or empty. */
  function Cut(rules: Rules, value: Text, n: nat): (c: nat)
    requires n <= |value|
    ensures c <= n && (c == 0 || rules.utf8(value[..c]))
    ensures forall m :: c < m <= n ==> !rules.utf8(value[..m])
  {
    if n == 0 || rules.utf8(value[..n]) then n else Cut(rules, value, n - 1)
  }

  /** boundedUTF8 for the journal's limit of 512 bytes. */
  function Bounded(rules: Rules, value: Text): (r: Text)
    ensures |r| <= MAX_ECHO
    ensures |value| <= MAX_ECHO ==> r == value
  {
    if |value| <= MAX_ECHO then value
    else value[..Cut(rules, value, MAX_ECHO - |DOTS|)] + DOTS
  }

  ghost predicate OldestCommitted(records: Records, v: Key) {
    && v in records && records[v].mark.Committed?
    && forall k :: k in records && records[k].mark.Committed? ==> records[v].updatedAt <= records[k].updatedAt
  }

  predicate Legal(from: Mark, to: Mark) {
    match to
    case Accepted => from.Dispatching?
    case Indeterminate => from.Dispatching?
    case Committed => from.Accepted?
    case Dispatching => false
  }

  /** Whether a journal call gets as far as writing. */
  ghost predicate CanWrite(rules: Rules, max: nat, records: Records, op: JournalOp) {
    && ValidIds(rules, op.key)
    && match op
       case Dispatch(k, _, victim) => k !in records && (|records| < max || OldestCommitted(records, victim))
       case Rollback(k) => k in records && records[k].mark.Dispatching?
       case Advance(k, mark) => k in records && Legal(records[k].mark, mark)
  }

  /** A new prompt with valid ids, and room for it or a committed record to evict. */
  ghost predicate Markable(rules: Rules, max: nat, records: Records, k: Key) {
    && ValidIds(rules, k) && k !in records
    && (|records| < max || exists v :: v in records && records[v].mark.Committed?)
  }

  function Room(max: nat, records: Records, victim: Key): Records {
    if |records| < max then records else records - {victim}
  }

  /** The records that a call tries to persist. */
  ghost function Written(rules: Rules, max: nat, records: Records, op: JournalOp, now: int): Records
    requires CanWrite(rules, max, records, op)
  {
    match op
    case Dispatch(k, prompt, victim) =>
      Room(max, records, victim)[k := Record(Dispatching, now, Bounded(rules, prompt), false)]
    case Rollback(k) => records - {k}
    case Advance(k, mark) => records[k := records[k].(mark := mark, updatedAt := now, legacy := false)]
  }

  /** A process that dies while dispatching may have reached the agent. */
  function Recovered(r: Record): Record {
    if r.mark.Dispatching? then r.(mark := Indeterminate) else r
  }

  function RecoveredAll(records: Records): Records {
    map k | k in records :: Recovered(records[k])
  }

  // ---------------------------------------------------------- what calls keep

  /** The journal never outgrows max. */
  lemma WrittenSize(rules: Rules, max: nat, records: Records, op: JournalOp, now: int)
    requires max > 0 && |records| <= max && CanWrite(rules, max, records, op)
    ensures |Written(rules, max, records, op, now)| <= max
  {
    hide ValidIds, Bounded;
    match op
    case Dispatch(k, prompt, victim) =>
      if |records| >= max { DropSize(records, victim); }
      PutSize(Room(max, records, victim), k, Record(Dispatching, now, Bounded(rules, prompt), false));
    case Rollback(k) => DropSize(records, k);
    case Advance(k, mark) => PutSize(records, k, records[k].(mark := mark, updatedAt := now, legacy := false));
  }

  lemma PutSize(records: Records, k: Key, r: Record)
    ensures |records[k := r]| == |records| + if k in records then 0 else 1
  {
    KeySize(records[k := r], records.Keys + {k});
    if k in records { assert records.Keys + {k} == records.Keys; }
  }

  lemma DropSize(records: Records, k: Key)
    requires k in records
    ensures |records - {k}| == |records| - 1
  {
    KeySize(records - {k}, records.Keys - {k});
  }

  lemma KeySize(records: Records, ks: set<Key>)
    requires records.Keys == ks
    ensures |records| == |ks|
  {
  }

  /** A record leaves only by rollback while dispatching, or by eviction once committed. */
  lemma RecordLeaves(rules: Rules, max: nat, records: Records, op: JournalOp, now: int, k: Key)
    requires CanWrite(rules, max, records, op) && k in records
    requires k !in Written(rules, max, records, op, now)
    ensures (op == Rollback(k) && records[k].mark.Dispatching?)
         || (op.Dispatch? && op.victim == k && |records| >= max && OldestCommitted(records, k))
  {
  }

  /** A mark only moves forward: dispatching, then accepted or indeterminate, then committed. */
  function Rank(m: Mark): nat {
    match m
    case Dispatching => 0
    case Indeterminate => 1
    case Accepted => 1
    case Committed => 2
  }

  lemma MarkMovesForward(rules: Rules, max: nat, records: Records, op: JournalOp, now: int, k: Key)
    requires CanWrite(rules, max, records, op) && k in records && k in Written(rules, max, records, op, now)
    ensures var after := Written(rules, max, records, op, now)[k].mark;
      after == records[k].mark || (Rank(records[k].mark) < Rank(after) && op == Advance(k, after))
  {
  }

  // ----------------------------------------------------- outcomes of a write

  /** All records but those of ks are as before. */
  ghost predicate SparesAll(before: Records, after: Records, ks: set<Key>) {
    forall j :: j !in ks ==> (j in after <==> j in before) && (j in after ==> after[j] == before[j])
  }

  /** What each write does: a mark made anew with its bounded echo, a record
      removed, or a mark moved with its echo kept; and nothing besides. */
  lemma WriteOutcome(rules: Rules, max: nat, records: Records, op: JournalOp, now: int)
    requires CanWrite(rules, max, records, op)
    ensures var after := Written(rules, max, records, op, now);
      match op
      case Dispatch(k, prompt, victim) =>
        && k in after && after[k].mark == Mark.Dispatching && after[k].updatedAt == now && !after[k].legacy
        && (|prompt| <= 512 ==> after[k].echo == prompt)
        && (|prompt| > 512 ==> |after[k].echo| >= 3 && after[k].echo[..|after[k].echo| - 3] <= prompt && |after[k].echo| <= 512)
        && SparesAll(records, after, if |records| < max then {k} else {k, victim}) && (|records| >= max && victim != k ==> victim !in after)
      case Rollback(k) => records[k].mark == Mark.Dispatching && k !in after && SparesAll(records, after, {k})
      case Advance(k, mark) =>
        && k in after && after[k].mark == mark && after[k].echo == records[k].echo && after[k].updatedAt == now
        && SparesAll(records, after, {k})
  {
    hide ValidIds, Cut;
  }

  /** Which transitions get as far as writing. */
  lemma AdvanceExact(rules: Rules, max: nat, records: Records, k: Key, mark: Mark)
    ensures CanWrite(rules, max, records, Advance(k, mark)) <==>
      && ValidIds(rules, k) && k in records
      && (Pair(records[k].mark, mark) in {Pair(Mark.Dispatching, Mark.Accepted), Pair(Mark.Dispatching, Mark.Indeterminate),
                                          Pair(Mark.Accepted, Mark.Committed)})
  {
  }

  datatype Change = Pair(from: Mark, to: Mark)

  /** A new prompt is written exactly when its ids are valid, it is unknown, and
      there is room or the victim is a committed record, updated no later than
      any other committed one. */
  lemma DispatchExact(rules: Rules, max: nat, records: Records, k: Key, prompt: Text, victim: Key)
    ensures CanWrite(rules, max, records, Dispatch(k, prompt, victim)) <==>
      && ValidIds(rules, k) && k !in records
      && (|records| < max
          || (victim in records && records[victim].mark == Mark.Committed
              && forall j :: j in records && records[j].mark == Mark.Committed ==> records[victim].updatedAt <= records[j].updatedAt))
  {
  }

  lemma SomeOldest(records: Records, ks: set<Key>) returns (v: Key)
    requires ks != {} && ks == set k | k in records && records[k].mark.Committed?
    ensures OldestCommitted(records, v)
  {
    v := Oldest(records, ks);
  }

  lemma Oldest(records: Records, ks: set<Key>) returns (v: Key)
    requires ks <= records.Keys && ks != {}
    ensures v in ks && forall k :: k in ks ==> records[v].updatedAt <= records[k].updatedAt
  {
    v :| v in ks;
    if ks != {v} {
      var w := Oldest(records, ks - {v});
      if records[w].updatedAt < records[v].updatedAt { v := w; }
    }
  }

  /** That is exactly when some choice of the victim lets the prompt be written. */
  lemma MarkExact(rules: Rules, max: nat, records: Records, k: Key, prompt: Text)
    ensures (exists v :: CanWrite(rules, max, records, Dispatch(k, prompt, v))) <==> Markable(rules, max, records, k)
  {
    if ValidIds(rules, k) && k !in records {
      if |records| < max {
        assert CanWrite(rules, max, records, Dispatch(k, prompt, k));
      } else if v :| v in records && records[v].mark.Committed? {
        var ks := set x | x in records && records[x].mark.Committed?;
        assert v in ks;
        var w := SomeOldest(records, ks);
        assert CanWrite(rules, max, records, Dispatch(k, prompt, w));
      }
    }
  }

  /** After a restart no record says dispatching; those that did are indeterminate. */
  lemma RecoveredOutcome(records: Records)
    ensures var after := RecoveredAll(records);
      && after.Keys == records.Keys
      && forall k :: k in records ==>
           if records[k].mark == Mark.Dispatching then after[k] == records[k].(mark := Mark.Indeterminate) else after[k] == records[k]
  {
  }
}
