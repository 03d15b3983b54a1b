/** dispatchQueuedPrompt of daemon/cmd/daemon/main.go as one uninterrupted call
    on the journal and registry objects. */
module Dispatcher {
  import opened Durable
  import opened JournalModel
  import F = JournalFile
  import opened PromptJournalClass
  import opened ActiveTurns
  import D = Dispatch

  datatype Result = Started | SessionBusy | PromptNotStarted | Doubtful

  ghost predicate OnFile(f: F.File, k: Key) {
    exists i :: 0 <= i < |f.entries| && f.entries[i].name == k
  }

  lemma ListedOnFile(records: Records, f: F.File, k: Key)
    requires F.Lists(records, f.entries)
    ensures OnFile(f, k) <==> k in records
  {
    if OnFile(f, k) {
      var i :| 0 <= i < |f.entries| && f.entries[i].name == k;
      assert f.entries[i].name in records;
    }
  }

  /** The journal, in memory and on file, says that k is being dispatched. */
  ghost predicate DispatchingNow(j: PromptJournal, k: Key)
    reads j
  {
    k in j.records && j.records[k].mark.Dispatching? && OnFile(j.file, k) && ValidIds(j.rules, k)
  }

  /** Trimming leaves the prompt's ids as they are, as it does with every id a client makes. */
  predicate Stable(trim: Text -> Text, k: Key) {
    trim(k.session) == k.session && trim(k.client) == k.client
  }

  /** What the caller is told. */
  function Told(marked: bool, bound: bool, answer: D.Outcome, settled: bool): Result {
    if !marked || !settled then Doubtful
    else if !bound || answer.Busy? then SessionBusy
    else if answer.NotStarted? then PromptNotStarted
    else if answer.Delivered? then Started
    else Doubtful
  }

  method Begin(j: PromptJournal, k: Key, prompt: Text, now: int, p: Persist) returns (ok: bool)
    requires j.Ok()
    modifies j
    ensures j.Ok() && (ok <==> p.Saved? && Markable(j.rules, j.max, old(j.records), k))
    ensures ok ==> k !in old(j.records) && DispatchingNow(j, k)
  {
    var victim;
    MarkExact(j.rules, j.max, j.records, k, prompt);
    ok, victim := j.MarkDispatching(k, prompt, now, p);
    if ok { ListedOnFile(j.records, j.file, k); }
  }

  method Undo(j: PromptJournal, k: Key, now: int, p: Persist) returns (ok: bool)
    requires j.Ok() && DispatchingNow(j, k)
    modifies j
    ensures j.Ok() && ok == p.Saved?
    ensures ok ==> k !in j.records && !OnFile(j.file, k)
    ensures !ok ==> k in j.records
  {
    ok := j.RollbackDispatching(k, now, p);
    if ok { ListedOnFile(j.records, j.file, k); }
  }

  method Conclude(j: PromptJournal, k: Key, mark: Mark, now: int, p: Persist) returns (ok: bool)
    requires j.Ok() && DispatchingNow(j, k) && (mark.Accepted? || mark.Indeterminate?)
    modifies j
    ensures j.Ok() && ok == p.Saved? && k in j.records && OnFile(j.file, k)
    ensures ok ==> j.records[k].mark == mark
  {
    ghost var next := Written(j.rules, j.max, j.records, Advance(k, mark), now);
    ok := j.Transition(k, mark, now, p);
    if !p.NotWritten? { ListedOnFile(next, j.file, k); }
  }

  /** called tells whether the adapter was invoked. A prompt that the journal
      knows is never sent; one that crosses is afterwards known to memory and
      file; one that is reported busy or not started has left no trace. The
      session's turn is accepted exactly when the acceptance is durable, in
      doubt when that write failed, and gone when the adapter refused. */
  method DispatchQueuedPrompt(j: PromptJournal, r: ActiveTurnRegistry, k: Key, prompt: Text, g: nat, answer: D.Outcome,
                              mark: Persist, settle: Persist, now: int)
    returns (called: bool, result: Result)
    requires j.Ok() && !answer.Conflict?
    modifies j, r
    ensures j.Ok()
    ensures var marked, bound := mark.Saved? && Markable(j.rules, j.max, old(j.records), k), CanBind(r.trim, old(r.bindings), k.session, g, k.client);
      called == (marked && bound) && result == Told(marked, bound, answer, settle.Saved?)
    ensures called && answer.Crosses() ==> k in j.records && OnFile(j.file, k)
    ensures result.Started? ==> j.records[k].mark.Accepted?
    ensures result.SessionBusy? || result.PromptNotStarted? ==> k !in j.records && !OnFile(j.file, k)
    ensures result.Doubtful? && called && answer.Failed? && settle.Saved? ==> k in j.records && j.records[k].mark.Indeterminate?
    ensures !called || (!answer.Delivered? && Stable(r.trim, k)) ==> r.bindings == old(r.bindings)
    ensures called && answer.Delivered? && Stable(r.trim, k) ==>
              r.bindings == old(r.bindings)[k.session :=
                Turn(Binding(g, k.client, []), result.Started?, !result.Started?, false, None)]
  {
    called := false;
    var ok := Begin(j, k, prompt, now, mark);
    if !ok { return false, Doubtful; }
    ok := r.Bind(k.session, g, k.client);
    if !ok {
      ok := Undo(j, k, now, settle);
      return false, if ok then SessionBusy else Doubtful;
    }
    called := true;
    if !answer.Delivered? {
      var cleared := r.ClearMatching(k.session, g, k.client, []);
      if answer.Busy? || answer.NotStarted? {
        ok := Undo(j, k, now, settle);
        return true, if !ok then Doubtful else if answer.Busy? then SessionBusy else PromptNotStarted;
      }
      ok := Conclude(j, k, Mark.Indeterminate, now, settle);
      return true, Doubtful;
    }
    ok := Conclude(j, k, Mark.Accepted, now, settle);
    if !ok {
      var cleared := r.AbandonAcceptance(k.session, g, k.client);
      return true, Doubtful;
    }
    var pending, completed := r.Accept(k.session, g, k.client);
    result := Started;
  }
}
