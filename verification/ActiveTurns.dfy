/** The registry of daemon/cmd/daemon/active_turn.go: which turn of a session
    is controllable, and when a terminal event may be released. */
module ActiveTurns {
  import opened Durable

  datatype Binding = Binding(generation: nat, client: Text, native: Text)

  datatype Lifecycle = Success | Failure | Interrupted | Indeterminate

  /** A terminal control event; 0 and the empty text mean "not stated". */
  datatype ControlEvent = ControlEvent(session: Text, generation: nat, client: Text, native: Text, lifecycle: Lifecycle)

  datatype Turn = Turn(binding: Binding, accepted: bool, indeterminate: bool, nativeComplete: bool, pending: Option<ControlEvent>)

  type Bindings = map<Text, Turn>

  // ------------------------------------------------------- calls, on values

  predicate Matches(b: Bindings, s: Text, g: nat, c: Text) {
    s in b && b[s].binding.generation == g && b[s].binding.client == c
  }

  /** trim is strings.TrimSpace; the stored names are the trimmed ones. */
  predicate CanBind(trim: Text -> Text, b: Bindings, s: Text, g: nat, c: Text) {
    trim(s) != [] && g != 0 && trim(c) != [] && trim(s) !in b
  }

  function Bound(trim: Text -> Text, b: Bindings, s: Text, g: nat, c: Text): Bindings {
    b[trim(s) := Turn(Binding(g, trim(c), []), false, false, false, None)]
  }

  function NativeSet(b: Bindings, s: Text, id: Text): Bindings
    requires s in b
  {
    b[s := b[s].(binding := b[s].binding.(native := id))]
  }

  predicate Clears(b: Bindings, s: Text, g: nat, c: Text, native: Text) {
    Matches(b, s, g, c) && (native == [] || b[s].binding.native == native)
  }

  /** accept deletes the binding when the native side is done and nothing waits. */
  predicate AcceptClears(b: Bindings, s: Text, g: nat, c: Text) {
    Matches(b, s, g, c) && b[s].nativeComplete && b[s].pending.None?
  }

  function Accepted(b: Bindings, s: Text, g: nat, c: Text): Bindings {
    if !Matches(b, s, g, c) then b
    else if AcceptClears(b, s, g, c) then b - {s}
    else b[s := b[s].(accepted := true, pending := None)]
  }

  function AcceptPending(b: Bindings, s: Text, g: nat, c: Text): Option<ControlEvent> {
    if Matches(b, s, g, c) then b[s].pending else None
  }

  predicate CompleteClears(b: Bindings, s: Text, g: nat, c: Text) {
    Matches(b, s, g, c) && (b[s].accepted || b[s].indeterminate)
  }

  function Completed(b: Bindings, s: Text, g: nat, c: Text): Bindings {
    if !Matches(b, s, g, c) then b
    else if CompleteClears(b, s, g, c) then b - {s}
    else b[s := b[s].(nativeComplete := true)]
  }

  predicate AbandonClears(b: Bindings, s: Text, g: nat, c: Text) {
    Matches(b, s, g, c) && b[s].nativeComplete
  }

  function Abandoned(b: Bindings, s: Text, g: nat, c: Text): Bindings {
    if !Matches(b, s, g, c) then b
    else if AbandonClears(b, s, g, c) then b - {s}
    else b[s := b[s].(indeterminate := true, pending := None)]
  }

  /** Whether a terminal event is attributable to the current turn of its session. */
  predicate Attributable(b: Bindings, e: ControlEvent) {
    && e.session in b
    && (e.generation == 0 || e.generation == b[e.session].binding.generation)
    && (e.client == [] || e.client == b[e.session].binding.client)
    && (e.native == [] || e.native == b[e.session].binding.native)
  }

  predicate Ready(b: Bindings, e: ControlEvent) {
    Attributable(b, e) && b[e.session].accepted
  }

  function AfterTerminal(b: Bindings, e: ControlEvent): Bindings {
    if Attributable(b, e) && !Ready(b, e) then b[e.session := b[e.session].(pending := Some(e))] else b
  }

  /** A call that names another turn than the current one changes nothing. */
  lemma StaleCallsChangeNothing(b: Bindings, s: Text, g: nat, c: Text, native: Text, e: ControlEvent)
    requires !Matches(b, s, g, c)
    requires e.session == s && e.generation == g && g != 0 && e.client == c && c != []
    ensures Accepted(b, s, g, c) == Completed(b, s, g, c) == Abandoned(b, s, g, c) == AfterTerminal(b, e) == b
    ensures !AcceptClears(b, s, g, c) && AcceptPending(b, s, g, c).None? && !CompleteClears(b, s, g, c)
    ensures !AbandonClears(b, s, g, c) && !Clears(b, s, g, c, native) && !Ready(b, e)
  {
  }

  /** bind trims the ids but the later calls compare the untrimmed ones, so a
      turn answers to its own ids exactly when trimming does not change them. */
  lemma BoundMatchesItself(trim: Text -> Text, b: Bindings, s: Text, g: nat, c: Text)
    requires CanBind(trim, b, s, g, c) && s !in b
    ensures Matches(Bound(trim, b, s, g, c), s, g, c) <==> (trim(s) == s && trim(c) == c)
  {
  }

  /** A turn whose ids trimming changes is out of its own caller's reach:
      accept, completion, abandonment and clear all leave it bound, so nothing
      else can be bound in its session. */
  lemma UntrimmedStaysBound(trim: Text -> Text, b: Bindings, s: Text, g: nat, c: Text, native: Text)
    requires CanBind(trim, b, s, g, c) && s !in b && (trim(s) != s || trim(c) != c)
    ensures var bound := Bound(trim, b, s, g, c);
      && Accepted(bound, s, g, c) == Completed(bound, s, g, c) == Abandoned(bound, s, g, c) == bound
      && !Clears(bound, s, g, c, native)
      && (forall h: nat, d: Text :: trim(trim(s)) == trim(s) ==> !CanBind(trim, bound, s, h, d))
  {
    BoundMatchesItself(trim, b, s, g, c);
  }

  predicate IsSpace(x: byte) { 9 <= x <= 13 || x == 32 }

  /** The ASCII part of strings.TrimSpace. */
  function TrimSpaces(t: Text): (r: Text)
    ensures |r| <= |t| && (t != [] && !IsSpace(t[0]) && !IsSpace(t[|t| - 1]) ==> r == t)
    decreases |t|
  {
    if t == [] then t
    else if IsSpace(t[0]) then TrimSpaces(t[1..])
    else if IsSpace(t[|t| - 1]) then TrimSpaces(t[..|t| - 1])
    else t
  }

  /** It does happen: session " s" is bound as "s", and its own calls do not find it. */
  lemma PaddedSessionStaysBound()
    ensures var s: Text, c: Text := [32, 115], [99];
      && CanBind(TrimSpaces, map[], s, 1, c)
      && var bound := Bound(TrimSpaces, map[], s, 1, c);
         && [115] in bound && !Matches(bound, s, 1, c)
         && Accepted(bound, s, 1, c) == Completed(bound, s, 1, c) == Abandoned(bound, s, 1, c) == bound
         && !Clears(bound, s, 1, c, [])
  {
    var s: Text, c: Text := [32, 115], [99];
    assert s[1..] == [115];
    assert TrimSpaces(s) == [115] != s && TrimSpaces(c) == c;
    UntrimmedStaysBound(TrimSpaces, map[], s, 1, c, []);
  }

  // ---------------------------------------------------------------- the object

  class ActiveTurnRegistry {
    const trim: Text -> Text
    var bindings: Bindings

    constructor (trim: Text -> Text)
      ensures bindings == map[] && this.trim == trim
    {
      this.trim := trim;
      bindings := map[];
    }

    method Bind(s: Text, g: nat, c: Text) returns (ok: bool)
      modifies this
      ensures ok == CanBind(trim, old(bindings), s, g, c)
      ensures bindings == if ok then Bound(trim, old(bindings), s, g, c) else old(bindings)
    {
      var session, client := trim(s), trim(c);
      if session == [] || g == 0 || client == [] { return false; }
      if session in bindings { return false; }
      bindings := bindings[session := Turn(Binding(g, client, []), false, false, false, None)];
      ok := true;
    }

    method SetNativeRequestID(s: Text, g: nat, c: Text, native: Text) returns (ok: bool)
      modifies this
      ensures ok == (trim(native) != [] && Matches(old(bindings), s, g, c))
      ensures bindings == if ok then NativeSet(old(bindings), s, trim(native)) else old(bindings)
    {
      var id := trim(native);
      if id == [] { return false; }
      if s !in bindings || bindings[s].binding.generation != g || bindings[s].binding.client != c { return false; }
      bindings := NativeSet(bindings, s, id);
      ok := true;
    }

    method ClearMatching(s: Text, g: nat, c: Text, native: Text) returns (ok: bool)
      modifies this
      ensures ok == Clears(old(bindings), s, g, c, native)
      ensures bindings == if ok then old(bindings) - {s} else old(bindings)
    {
      if s !in bindings || bindings[s].binding.generation != g || bindings[s].binding.client != c { return false; }
      if native != [] && bindings[s].binding.native != native { return false; }
      bindings := bindings - {s};
      ok := true;
    }

    method Accept(s: Text, g: nat, c: Text) returns (pending: Option<ControlEvent>, completed: bool)
      modifies this
      ensures bindings == Accepted(old(bindings), s, g, c)
      ensures completed == AcceptClears(old(bindings), s, g, c)
      ensures pending == AcceptPending(old(bindings), s, g, c)
    {
      if s !in bindings || bindings[s].binding.generation != g || bindings[s].binding.client != c { return None, false; }
      var state := bindings[s];
      pending := state.pending;
      if state.nativeComplete && pending.None? {
        bindings := bindings - {s};
        return None, true;
      }
      bindings := bindings[s := state.(accepted := true, pending := None)];
      completed := false;
    }

    method CompleteMatching(s: Text, g: nat, c: Text) returns (cleared: bool)
      modifies this
      ensures bindings == Completed(old(bindings), s, g, c)
      ensures cleared == CompleteClears(old(bindings), s, g, c)
    {
      if s !in bindings || bindings[s].binding.generation != g || bindings[s].binding.client != c { return false; }
      var state := bindings[s];
      if !state.accepted && !state.indeterminate {
        bindings := bindings[s := state.(nativeComplete := true)];
        return false;
      }
      bindings := bindings - {s};
      cleared := true;
    }

    method AbandonAcceptance(s: Text, g: nat, c: Text) returns (cleared: bool)
      modifies this
      ensures bindings == Abandoned(old(bindings), s, g, c)
      ensures cleared == AbandonClears(old(bindings), s, g, c)
    {
      if s !in bindings || bindings[s].binding.generation != g || bindings[s].binding.client != c { return false; }
      if bindings[s].nativeComplete {
        bindings := bindings - {s};
        return true;
      }
      bindings := bindings[s := bindings[s].(indeterminate := true, pending := None)];
      cleared := false;
    }

    method TerminalForEvent(e: ControlEvent) returns (binding: Option<Binding>, ready: bool, matched: bool)
      modifies this
      ensures matched == Attributable(old(bindings), e) && ready == Ready(old(bindings), e)
      ensures bindings == AfterTerminal(old(bindings), e)
      ensures binding == if matched then Some(old(bindings)[e.session].binding) else None
    {
      if e.session !in bindings { return None, false, false; }
      var state := bindings[e.session];
      if e.generation != 0 && e.generation != state.binding.generation { return None, false, false; }
      if e.client != [] && e.client != state.binding.client { return None, false, false; }
      if e.native != [] && e.native != state.binding.native { return None, false, false; }
      if !state.accepted {
        bindings := bindings[e.session := state.(pending := Some(e))];
        return Some(state.binding), false, true;
      }
      return Some(state.binding), true, true;
    }
  }
}
