/** The prompt commit handshake between relay (relaycore/websocket.go) and daemon
    (daemon/cmd/daemon/main.go). A channel is the set of messages ever sent on
    it: each may arrive never, late, or many times. Both sides may crash. */
module CommitHandshake {
  import opened Durable
  import opened JournalModel
  import opened JournalTruth
  import D = Dispatch

  /** A relay command row. named is the client id under which the daemon will
      file the prompt: the row's own for an open prompt, what the ciphertext says
      for a sealed one. The store keeps accepted rows accepted, and keeps the
      session, the sealed mark and the envelope of a row. */
  datatype Row = Row(session: Text, sealed: bool, named: Text, accepted: bool, committed: bool)

  /** A relay goroutine works on the row as it read it. */
  datatype Stage = Looked | Healed | Notified
  datatype Worker = Worker(client: Text, session: Text, sealed: bool, stage: Stage)

  /** saved holds the user messages of the history; acks the prompts that the
      phones were told are sent; known the prompts that the daemon has ever held
      as accepted in memory, its acknowledgement cache included; prompts are the
      forwarded ones. */
  datatype State = State(
    daemon: D.State, known: set<Key>,
    rows: map<Text, Row>, saved: set<Key>, workers: map<nat, Worker>, acks: set<Key>,
    toRelay: set<Key>, toDaemon: set<Key>, prompts: set<Key>)

  datatype Event =
    | Daemon(e: D.Event)
    | Acknowledge(key: Key)                                     // prompt_accepted leaves the daemon
    | Register(client: Text, session: Text, sealed: bool, named: Text)   // a phone prompt becomes a row
    | Forward(client: Text)                                     // the row's prompt leaves for the daemon
    | AcceptFrame(key: Key, takes: bool, worker: nat)           // prompt_accepted arrives
    | Duplicate(client: Text, sealed: bool, worker: nat)        // a phone repeats an accepted prompt
    | Replay(client: Text, worker: nat)                         // a daemon reconnects
    | Persist(worker: nat, ok: bool)
    | Send(worker: nat, leaves: bool, ok: bool)
    | MarkCommitted(worker: nat, ok: bool)
    | Tell(worker: nat)
    | RelayCrash

  function Name(w: Worker): Key { Key(w.session, w.client) }

  /** The key under which the daemon files the prompt of a row. */
  function Filed(r: Row): Key { Key(r.session, r.named) }

  function Initial(): State {
    State(D.Initial(), {}, map[], {}, map[], {}, {}, {}, {})
  }

  ghost function Learned(records: Records): set<Key> {
    set k | k in records && Settled(records[k])
  }

  /** A frame is handled only if it was sent. */
  predicate Sent(s: State, e: D.Event) {
    && (e.CommitFrame? ==> e.key in s.toDaemon)
    && (e.Arrive? ==> e.item.Name() in s.prompts) && (e.ArriveDirect? ==> e.key in s.prompts)
  }

  ghost function DaemonStep(c: D.Config, s: State, e: D.Event): State {
    if !Sent(s, e) then s
    else
      var d := D.Step(c, s.daemon, e);
      s.(daemon := d, known := s.known + Learned(d.jmem))
  }

  function Begin(s: State, client: Text, stage: Stage, w: nat): State
    requires client in s.rows
  {
    if w in s.workers then s
    else s.(workers := s.workers[w := Worker(client, s.rows[client].session, s.rows[client].sealed, stage)])
  }

  /** MarkPromptAccepted may find the row accepted, accept it, or decline; only
      an accepted row is followed up. */
  function Accepting(s: State, key: Key, takes: bool, w: nat): State {
    if key !in s.toRelay || key.client !in s.rows then s
    else
      var row := s.rows[key.client];
      if !row.accepted && !takes then s
      else Begin(s.(rows := s.rows[key.client := row.(accepted := true)]), key.client, Looked, w)
  }

  /** A repeated prompt must match its row, else it is a conflict; a repeated
      sealed prompt goes straight to the notification. */
  function Repeating(s: State, client: Text, sealed: bool, w: nat): State {
    if client !in s.rows || !s.rows[client].accepted || s.rows[client].sealed != sealed then s
    else Begin(s, client, if sealed then Healed else Looked, w)
  }

  function Replaying(s: State, client: Text, w: nat): State {
    if client !in s.rows || !s.rows[client].accepted || s.rows[client].committed then s
    else Begin(s, client, Looked, w)
  }

  predicate InStage(s: State, w: nat, stage: Stage) { w in s.workers && s.workers[w].stage == stage }

  /** persistAcceptedPrompt: nothing to save for a sealed prompt. */
  function Persisting(s: State, w: nat, ok: bool): State {
    if !InStage(s, w, Looked) then s
    else
      var x := s.workers[w];
      if x.sealed then s.(workers := s.workers[w := x.(stage := Healed)])
      else if ok then s.(saved := s.saved + {Name(x)}, workers := s.workers[w := x.(stage := Healed)])
      else s.(workers := s.workers - {w})
  }

  /** A write that reports an error may still have left. */
  function Sending(s: State, w: nat, leaves: bool, ok: bool): State {
    if !InStage(s, w, Healed) then s
    else
      var x := s.workers[w];
      var t := if leaves || ok then s.(toDaemon := s.toDaemon + {Name(x)}) else s;
      if ok then t.(workers := s.workers[w := x.(stage := Notified)]) else t
  }

  function Committing(s: State, w: nat, ok: bool): State {
    if !InStage(s, w, Notified) || !ok || s.workers[w].client !in s.rows then s
    else
      var client := s.workers[w].client;
      s.(rows := s.rows[client := s.rows[client].(committed := true)])
  }

  /** broadcastPromptSent, after the message is saved whatever became of the commit. */
  function Telling(s: State, w: nat): State {
    if w !in s.workers || s.workers[w].stage.Looked? then s
    else
      var t := s.(workers := s.workers - {w});
      if s.workers[w].sealed then t else t.(acks := s.acks + {Name(s.workers[w])})
  }

  ghost function Step(c: D.Config, s: State, e: Event): State {
    match e
    case Daemon(d) => DaemonStep(c, s, d)
    case Acknowledge(k) => if k in s.known then s.(toRelay := s.toRelay + {k}) else s
    case Register(client, session, sealed, named) =>
      if client in s.rows then s
      else s.(rows := s.rows[client := Row(session, sealed, if sealed then named else client, false, false)])
    case Forward(client) => if client in s.rows then s.(prompts := s.prompts + {Filed(s.rows[client])}) else s
    case AcceptFrame(k, takes, w) => Accepting(s, k, takes, w)
    case Duplicate(client, sealed, w) => Repeating(s, client, sealed, w)
    case Replay(client, w) => Replaying(s, client, w)
    case Persist(w, ok) => Persisting(s, w, ok)
    case Send(w, leaves, ok) => Sending(s, w, leaves, ok)
    case MarkCommitted(w, ok) => Committing(s, w, ok)
    case Tell(w) => Telling(s, w)
    case RelayCrash => s.(workers := map[])
  }

  ghost function Run(c: D.Config, s: State, es: seq<Event>): State
    decreases |es|
  {
    if es == [] then s else Run(c, Step(c, s, es[0]), es[1..])
  }

  // ------------------------------------------------------------- the relay side

  /** The relay has k as a durably accepted row. */
  predicate RowAccepted(s: State, k: Key) {
    k.client in s.rows && s.rows[k.client].session == k.session && s.rows[k.client].accepted
  }

  /** And, unless it is sealed, its user message is in the history. */
  predicate Safe(s: State, k: Key) {
    RowAccepted(s, k) && (s.rows[k.client].sealed || k in s.saved)
  }

  ghost predicate RelayInv(s: State) {
    && (forall w :: w in s.workers ==>
          (RowAccepted(s, Name(s.workers[w])) && s.workers[w].sealed == s.rows[s.workers[w].client].sealed))
    && (forall w :: w in s.workers && !s.workers[w].stage.Looked? ==> Safe(s, Name(s.workers[w])))
    && (forall k :: k in s.toDaemon || k in s.acks ==> Safe(s, k))
    && (forall r :: r in s.rows && s.rows[r].committed ==> Safe(s, Key(s.rows[r].session, r)))
  }

  /** Rows only gain, so what is safe stays safe. */
  predicate Grows(s: State, t: State) {
    && s.saved <= t.saved
    && (forall r :: r in s.rows ==>
          (r in t.rows && t.rows[r].session == s.rows[r].session && t.rows[r].sealed == s.rows[r].sealed && t.rows[r].named == s.rows[r].named && (s.rows[r].accepted ==> t.rows[r].accepted)))
  }

  lemma SafeStays(s: State, t: State, k: Key)
    requires Grows(s, t)
    ensures (Safe(s, k) ==> Safe(t, k)) && (RowAccepted(s, k) ==> RowAccepted(t, k))
  {
  }

  lemma StepGrows(c: D.Config, s: State, e: Event)
    ensures Grows(s, Step(c, s, e))
  {
    hide D.Step;
  }
}
