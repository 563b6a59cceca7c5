/** The messages of the kernel model over the byte ring: performing the transfers of a run on a ring of bytes, in
    their order, leaves in it what the model's object holds, and gives out what the model's receives returned. */
module KernelBytes {
  import opened Common
  import opened KernelSpec
  import opened KernelFifo
  import opened KernelRuns
  import R = Ring

  /** Messages are strings of bytes. */
  ghost predicate OfBytes(log: seq<Entry>) {
    forall i :: 0 <= i < |log| && log[i].Sent? ==> IsBytes(log[i].msg)
  }

  predicate IsBytes(m: Msg) {
    forall j :: 0 <= j < |m| ==> m[j] < 256
  }

  /** One transfer of the history, performed on the ring of object o. */
  method Perform(ghost log: seq<Entry>, e: Entry, o: ObjId, ghost b: Obj, ring: R.CircBuf) returns (got: seq<seq<R.Byte>>)
    requires ring.Valid() && b.Ring? && ring.cap == b.cap && ring.eleSize == b.maxSize + R.HEADER
    requires Allowed(log, e, b, o) && (e.Sent? ==> IsBytes(e.msg)) && ring.Contents() == Queued(log, o)
    modifies ring, ring.buf
    ensures ring.Valid() && ring.Contents() == Queued(log + [e], o)
    ensures Receives(log + [e], o) == Receives(log, o) + got
  {
    got := [];
    assert (log + [e])[..|log|] == log;
    match e
    case Sent(a, m) =>
      if a == o { ring.Send(m); }
    case Received(a, _) =>
      if a == o {
        var msg := ring.Receive();
        got := [msg];
      }
    case Cleared(a) =>
      if a == o { ring.Reset(); }
    case _ =>
  }

  /** A whole history that a bounded queue allows. */
  method Replay(log: seq<Entry>, o: ObjId, ghost b: Obj, ring: R.CircBuf) returns (got: seq<seq<R.Byte>>)
    requires ring.Valid() && ring.Contents() == [] && b.Ring? && ring.cap == b.cap && ring.eleSize == b.maxSize + R.HEADER
    requires Legal(log, b, o) && OfBytes(log)
    modifies ring, ring.buf
    ensures ring.Valid() && ring.Contents() == Queued(log, o) && got == Receives(log, o)
  {
    got := [];
    for i := 0 to |log|
      invariant ring.Valid() && ring.Contents() == Queued(log[..i], o) && got == Receives(log[..i], o)
    {
      assert Allowed(log[..i], log[i], b, o);
      var more := Perform(log[..i], log[i], o, b, ring);
      got := got + more;
      assert log[..i + 1] == log[..i] + [log[i]];
    }
    assert log[..|log|] == log;
  }

  /** Over every run, a new ring on which the transfers logged are performed ends with the messages of the object, and
      has given out the messages received from it. */
  method ReplayRun(ghost k: Kernel, ghost steps: seq<Step>, log: seq<Entry>, o: ObjId, ring: R.CircBuf) returns (got: seq<seq<R.Byte>>)
    requires Boot(k) && Runs(k, steps) && log == Final(k, steps).log && OfBytes(log)
    requires o in Final(k, steps).objs && Final(k, steps).objs[o].Ring?
    requires var b := Final(k, steps).objs[o];
             ring.Valid() && ring.Contents() == [] && ring.cap == b.cap && ring.eleSize == b.maxSize + R.HEADER
    modifies ring, ring.buf
    ensures ring.Valid() && ring.Contents() == Final(k, steps).objs[o].msgs && got == Receives(log, o)
  {
    RunFaithful(k, steps);
    got := Replay(log, o, Final(k, steps).objs[o], ring);
  }
}
