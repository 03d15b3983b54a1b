/** The byte-budgeted frame queue of one phone socket (relaycore/connections.go). */
module PhoneOutbound {
  import opened Durable

  const QUEUE_SIZE := 64
  const MAX_BYTES: int := 8388608

  type Frame = Text

  function Sum(q: seq<Frame>): nat {
    if q == [] then 0 else |q[0]| + Sum(q[1..])
  }

  lemma {:induction false} SumAppend(q: seq<Frame>, f: Frame)
    ensures Sum(q + [f]) == Sum(q) + |f|
    decreases |q|
  {
    if q == [] {
      assert q + [f] == [f] && [f][1..] == [];
    } else {
      assert (q + [f])[1..] == q[1..] + [f];
      SumAppend(q[1..], f);
    }
  }

  /** releaseBytesLocked saturates at zero. */
  function Released(reserved: int, bytes: int): int {
    if bytes <= 0 then reserved else if bytes >= reserved then 0 else reserved - bytes
  }

  predicate Admits(closed: bool, reserved: int, queued: nat, f: Frame) {
    |f| <= MAX_BYTES && !closed && |f| <= MAX_BYTES - reserved && queued < QUEUE_SIZE
  }

  // ---------------------------------------------------------------- the object

  class Outbound {
    var queue: seq<Frame>
    var reserved: int
    var closed: bool
    var inFlight: nat   // bytes of the frame that the writer took and has not released

    predicate Ok()
      reads this
    {
      reserved == Sum(queue) + inFlight && reserved <= MAX_BYTES && |queue| <= QUEUE_SIZE
    }

    constructor ()
      ensures Ok() && queue == [] && !closed && inFlight == 0
    {
      queue, reserved, closed, inFlight := [], 0, false, 0;
    }

    /** enqueuePhone: reserve, then try to send; a full channel gives the bytes back. */
    method Enqueue(f: Frame) returns (ok: bool)
      requires Ok()
      modifies this
      ensures Ok() && ok == (!old(closed) && old(reserved) + |f| <= 8388608 && |old(queue)| < 64)
      ensures queue == (if ok then old(queue) + [f] else old(queue)) && closed == old(closed) && inFlight == old(inFlight)
    {
      if |f| > MAX_BYTES { return false; }
      if closed { return false; }
      if |f| > MAX_BYTES - reserved { return false; }
      reserved := reserved + |f|;
      if |queue| < QUEUE_SIZE {
        SumAppend(queue, f);
        queue := queue + [f];
        return true;
      }
      reserved := Released(reserved, |f|);
      ok := false;
    }

    /** close: refuse further frames and give back every frame that will not be written. */
    method Close()
      requires Ok()
      modifies this
      ensures Ok() && closed && inFlight == old(inFlight)
      ensures !old(closed) ==> queue == [] && reserved == inFlight
      ensures old(closed) ==> queue == old(queue) && reserved == old(reserved)
    {
      if closed { return; }
      closed := true;
      while queue != []
        invariant Ok() && closed && inFlight == old(inFlight)
        decreases |queue|
      {
        reserved := Released(reserved, |queue[0]|);
        queue := queue[1..];
      }
    }

    /** The writer receives the oldest frame; its bytes stay reserved. */
    method Take() returns (f: Frame)
      requires Ok() && queue != [] && inFlight == 0
      modifies this`queue, this`inFlight
      ensures Ok() && f == old(queue)[0] && queue == old(queue)[1..] && inFlight == |f|
    {
      f := queue[0];
      queue := queue[1..];
      inFlight := |f|;
    }

    /** releaseBytes after the write returned. */
    method Release(f: Frame)
      requires Ok() && inFlight == |f|
      modifies this`reserved, this`inFlight
      ensures Ok() && inFlight == 0 && reserved == old(reserved) - |f|
    {
      reserved := Released(reserved, |f|);
      inFlight := 0;
    }
  }

  // ------------------------------------------------------- all interleavings

  datatype Writer =
    | Idle
    | Took(frame: Frame)                // received, before the closed check
    | Writing(frame: Frame)
    | Wrote(frame: Frame, ok: bool)     // WriteMessage returned
    | GivingUp(frame: Frame)            // saw closed, about to release
    | Exited

  /** draining holds from the moment close sets closed until its loop ends;
      close owns the state lock all that time. */
  datatype State = State(queue: seq<Frame>, reserved: int, closed: bool, draining: bool, writer: Writer,
                         accepted: seq<Frame>, written: seq<Frame>)

  datatype Event = Offer(frame: Frame) | Receive | SeeDone | Check | WriteReturns(ok: bool) | GiveBack | BeginClose | Drain

  function Initial(): State { State([], 0, false, false, Idle, [], []) }

  function Step(s: State, e: Event): State {
    match e
    case Offer(f) =>
      if s.draining || !Admits(s.closed, s.reserved, |s.queue|, f) then s
      else s.(queue := s.queue + [f], reserved := s.reserved + |f|, accepted := s.accepted + [f])
    case Receive => if s.writer.Idle? && s.queue != [] then s.(queue := s.queue[1..], writer := Took(s.queue[0])) else s
    case SeeDone => if s.writer.Idle? && s.closed then s.(writer := Exited) else s
    case Check =>
      if !s.writer.Took? || s.draining then s
      else s.(writer := if s.closed then GivingUp(s.writer.frame) else Writing(s.writer.frame))
    case WriteReturns(ok) =>
      if !s.writer.Writing? then s
      else s.(writer := Wrote(s.writer.frame, ok), written := if ok then s.written + [s.writer.frame] else s.written)
    case GiveBack =>
      if s.draining || !(s.writer.Wrote? || s.writer.GivingUp?) then s
      else s.(reserved := Released(s.reserved, |s.writer.frame|),
              writer := if s.writer.Wrote? && s.writer.ok then Idle else Exited)
    case BeginClose => if s.closed || s.draining then s else s.(closed := true, draining := true)
    case Drain =>
      if !s.draining then s
      else if s.queue == [] then s.(draining := false)
      else s.(reserved := Released(s.reserved, |s.queue[0]|), queue := s.queue[1..])
  }

  function Run(s: State, es: seq<Event>): State
    decreases |es|
  {
    if es == [] then s else Run(Step(s, es[0]), es[1..])
  }

  function InFlight(w: Writer): nat {
    if w.Idle? || w.Exited? then 0 else |w.frame|
  }

  /** Reserved bytes are exactly the queued ones plus the one in flight. */
  predicate Balanced(s: State) {
    && s.reserved == Sum(s.queue) + InFlight(s.writer) && s.reserved <= MAX_BYTES && |s.queue| <= QUEUE_SIZE
    && (s.draining ==> s.closed)
    && (s.closed && !s.draining ==> s.queue == [])
  }

  /** What was accepted is what was written, then what is in flight, then the queue. */
  predicate InOrder(s: State) {
    && s.written <= s.accepted
    && (s.writer.Writing? ==> s.written + [s.writer.frame] <= s.accepted)
    && (!s.closed && s.writer.Idle? ==> s.accepted == s.written + s.queue)
    && (!s.closed && (s.writer.Took? || s.writer.Writing?) ==> s.accepted == s.written + [s.writer.frame] + s.queue)
    && (!s.closed && s.writer.Wrote? && s.writer.ok ==> s.accepted == s.written + s.queue)
  }

  lemma StepBalanced(s: State, e: Event)
    requires Balanced(s)
    ensures Balanced(Step(s, e))
  {
    if e.Offer? { SumAppend(s.queue, e.frame); }
  }

  lemma StepInOrder(s: State, e: Event)
    requires Balanced(s) && InOrder(s)
    ensures InOrder(Step(s, e))
  {
    match e {
      case Offer(f) =>
        assert s.written + (s.queue + [f]) == s.written + s.queue + [f];
        assert s.writer.Took? || s.writer.Writing? ==>
          s.written + [s.writer.frame] + (s.queue + [f]) == s.written + [s.writer.frame] + s.queue + [f];
      case Receive =>
        if s.queue != [] { assert s.written + s.queue == s.written + [s.queue[0]] + s.queue[1..]; }
      case _ =>
    }
  }

  lemma {:induction false} RunOk(s: State, es: seq<Event>)
    requires Balanced(s) && InOrder(s)
    ensures Balanced(Run(s, es)) && InOrder(Run(s, es))
    decreases |es|
  {
    hide Balanced, InOrder, Step;
    if es != [] {
      StepBalanced(s, es[0]);
      StepInOrder(s, es[0]);
      RunOk(Step(s, es[0]), es[1..]);
    }
  }

  /** In every interleaving of producers, the writer and close: the reservation
      equals queued plus in-flight bytes and stays within 8 MiB; no release is
      cut short by the saturation; and written frames are a prefix of accepted ones. */
  lemma Conservation(es: seq<Event>)
    ensures var s := Run(Initial(), es);
      && s.reserved == Sum(s.queue) + InFlight(s.writer) && 0 <= s.reserved <= MAX_BYTES
      && (s.queue != [] ==> Released(s.reserved, |s.queue[0]|) == s.reserved - |s.queue[0]|)
      && Released(s.reserved, InFlight(s.writer)) == s.reserved - InFlight(s.writer)
      && s.written <= s.accepted
      && (s.closed && !s.draining && InFlight(s.writer) == 0 ==> s.reserved == 0)
  {
    RunOk(Initial(), es);
  }

  /** After close nothing is accepted any more. */
  lemma {:induction false} NothingAfterClose(s: State, es: seq<Event>)
    requires s.closed
    ensures Run(s, es).closed && Run(s, es).accepted == s.accepted
    decreases |es|
  {
    if es != [] { NothingAfterClose(Step(s, es[0]), es[1..]); }
  }

  /** Which frames are admitted: while open, up to 8 MiB reserved and 64 queued. */
  lemma OfferExact(es: seq<Event>, f: Frame)
    ensures var s := Run(Initial(), es);
      Step(s, Offer(f)) == if !s.closed && s.reserved + |f| <= 8388608 && |s.queue| < 64
                           then s.(queue := s.queue + [f], reserved := s.reserved + |f|, accepted := s.accepted + [f]) else s
  {
    RunOk(Initial(), es);
  }

  /** The oldest frame of an open queue can always be written, which frees its bytes. */
  lemma OldestIsWritten(es: seq<Event>)
    requires var s := Run(Initial(), es); !s.closed && s.writer.Idle? && s.queue != []
    ensures var s := Run(Initial(), es);
      var t := Step(Step(Step(Step(s, Receive), Check), WriteReturns(true)), GiveBack);
      && t.written == s.written + [s.queue[0]] && t.queue == s.queue[1..] && t.writer.Idle?
      && t.reserved == s.reserved - |s.queue[0]| && t.accepted == s.accepted && !t.closed
  {
    RunOk(Initial(), es);
  }

  /** Close gives back everything that is queued and lets nothing more be written. */
  lemma {:induction false} CloseDrains(s: State)
    requires s.draining && Balanced(s)
    ensures var t := Drained(s, |s.queue|); t == s.(queue := [], draining := false, reserved := InFlight(s.writer))
    decreases |s.queue|
  {
    if s.queue != [] { CloseDrains(Step(s, Drain)); }
  }

  function Drained(s: State, n: nat): State
    decreases n
  {
    if n == 0 then Step(s, Drain) else Drained(Step(s, Drain), n - 1)
  }
}
