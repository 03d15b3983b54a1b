/** Vocabulary shared by every durable structure of the daemon. */
module Durable {

  datatype Option<+T> = None | Some(value: T)

  newtype byte = b: int | 0 <= b < 256

  /** A Go string: a sequence of bytes, so |t| is what len(t) returns. */
  type Text = seq<byte>

  /** A prompt is named by its session and by the client message id. */
  datatype Key = Key(session: Text, client: Text)

  /** How one call of writeFileAtomic ends. The rename precedes the final chmod,
      so a call that reports an error may still have replaced the file. */
  datatype Persist = Saved | NotWritten | WrittenButFailed

  /** The value that memory exposes after trying to persist next. */
  function Exposed<T>(before: T, next: T, p: Persist): T {
    if p.Saved? then next else before
  }

  /** The value that the file holds after trying to persist next. */
  function OnDisk<T>(before: T, next: T, p: Persist): T {
    if p.NotWritten? then before else next
  }

  /** The string that the daemon uses as a map key. */
  function Joined(k: Key): Text {
    k.session + [0 as byte] + k.client
  }

  lemma NulMarksSession(j: Key, k: Key)
    requires Joined(j) == Joined(k) && |j.session| == |k.session|
    ensures j == k
  {
    var a, b := Joined(j), Joined(k);
    assert j.session == a[..|j.session|] == b[..|k.session|] == k.session;
    assert j.client == a[|j.session| + 1..] == b[|k.session| + 1..] == k.client;
  }

  /** Joining with NUL names a prompt uniquely as long as session ids hold no NUL. */
  lemma JoinedInjective(j: Key, k: Key)
    requires 0 !in j.session && 0 !in k.session
    requires Joined(j) == Joined(k)
    ensures j == k
  {
    var a, b := Joined(j), Joined(k);
    assert a[|j.session|] == 0 && b[|k.session|] == 0;
    assert forall i :: 0 <= i < |j.session| ==> a[i] in j.session;
    assert forall i :: 0 <= i < |k.session| ==> b[i] in k.session;
    NulMarksSession(j, k);
  }

  /** A prompt shares its joined string with no other prompt if and only if
      neither of its own ids holds a NUL. */
  lemma JoinedExact(k: Key)
    ensures (forall j: Key :: Joined(j) == Joined(k) ==> j == k) <==> (0 !in k.session && 0 !in k.client)
  {
    if 0 in k.session {
      var i :| 0 <= i < |k.session| && k.session[i] == 0;
      var j := Key(k.session[..i], k.session[i + 1..] + [0 as byte] + k.client);
      assert Joined(j) == Joined(k) && |j.session| != |k.session|;
    } else if 0 in k.client {
      var i :| 0 <= i < |k.client| && k.client[i] == 0;
      var j := Key(k.session + [0 as byte] + k.client[..i], k.client[i + 1..]);
      assert Joined(j) == Joined(k) && |j.session| != |k.session|;
    } else {
      forall j: Key | Joined(j) == Joined(k) ensures j == k {
        OnlyNul(j, k);
        NulMarksSession(j, k);
      }
    }
  }

  /** Where the joined string holds one NUL, both readings split at it. */
  lemma OnlyNul(j: Key, k: Key)
    requires Joined(j) == Joined(k) && 0 !in k.session && 0 !in k.client
    ensures |j.session| == |k.session|
  {
    var a, b := Joined(j), Joined(k);
    assert a[|j.session|] == 0;
    assert forall i :: 0 <= i < |k.session| ==> b[i] in k.session;
    assert forall i :: |k.session| < i < |b| ==> b[i] in k.client;
  }

  /** Without that restriction two different prompts share a key. */
  lemma JoinedCollides()
    ensures exists j: Key, k: Key :: j != k && Joined(j) == Joined(k)
  {
    var j, k := Key([97], [98, 0, 99]), Key([97, 0, 98], [99]);
    assert Joined(j) == [97, 0, 98, 0, 99] == Joined(k);
    assert j.session != k.session;
  }
}
