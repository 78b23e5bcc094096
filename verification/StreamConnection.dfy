/**
  The two ends of a connection. Writes may be taken in part, reads return pieces of any
  size, and either side may fail at any point.
 */
module StreamConnection {
  import opened Wrappers
  import opened StreamFrames

  // ----- Writing

  /** A writer that takes a part of each write of its choice; without `reliable` it may fail having taken it. */
  class Outgoing {
    const reliable: bool
    var sent: Bytes

    constructor (reliable: bool)
      ensures sent == [] && this.reliable == reliable
    {
      this.reliable, sent := reliable, [];
    }

    method Write(part: Bytes) returns (n: nat, failed: bool)
      modifies this
      ensures n <= |part| && sent == old(sent) + part[..n]
      ensures reliable && part != [] ==> n > 0 && !failed
    {
      n, failed := |part|, false;
      if reliable && part != [] {
        n :| 0 < n <= |part|;
      } else {
        n :| 0 <= n <= |part|;
        failed := *;
      }
      sent := sent + part[..n];
    }
  }

  /** `sendall`, and the inner loop of `writeSocketData` and `writeSocketFrame`. */
  method WritePart(connection: Outgoing, part: Bytes) returns (ok: bool)
    modifies connection
    ensures old(connection.sent) <= connection.sent <= old(connection.sent) + part
    ensures ok ==> connection.sent == old(connection.sent) + part
    ensures connection.reliable ==> ok
  {
    var i := 0;
    while i < |part|
      invariant 0 <= i <= |part|
      invariant connection.sent == old(connection.sent) + part[..i]
    {
      var n, failed := connection.Write(part[i..]);
      assert part[..i] + part[i..][..n] == part[..i + n];
      if failed || n == 0 {
        return false;
      }
      i := i + n;
    }
    assert part[..i] == part;
    return true;
  }

  // ----- Reading

  datatype Received = Got(chunk: Bytes) | Fault

  /** A reading end: pieces of any size arrive; without `reliable`, deadlines and resets too. */
  class Incoming {
    const reliable: bool
    var wire: Bytes

    constructor (wire: Bytes, reliable: bool)
      ensures this.wire == wire && this.reliable == reliable
    {
      this.wire, this.reliable := wire, reliable;
    }

    method Recv(max: nat) returns (r: Received)
      requires max > 0
      modifies this
      ensures r.Fault? ==> !reliable
      ensures r.Got? ==>
                && |r.chunk| <= max && old(wire) == r.chunk + wire
                && (r.chunk == [] ==> old(wire) == [])
    {
      if !reliable {
        if * {
          return Fault;
        }
      }
      if wire == [] {
        return Got([]);
      }
      var n :| 1 <= n <= max && n <= |wire|;
      r := Got(wire[..n]);
      wire := wire[n..];
    }

    /** A local step that may hit the deadline or fail. */
    method Proceed() returns (ok: bool)
      ensures !ok ==> !reliable
    {
      ok := true;
      if !reliable {
        ok := *;
      }
    }
  }

  /** `_receive`: exactly `size` bytes, or an error. */
  method Receive(connection: Incoming, size: nat) returns (r: Option<Bytes>)
    modifies connection
    ensures r.Some? ==> |r.value| == size && old(connection.wire) == r.value + connection.wire
    ensures connection.reliable ==> (r.Some? <==> size <= |old(connection.wire)|)
  {
    var result: Bytes := [];
    while |result| < size
      invariant |result| <= size && old(connection.wire) == result + connection.wire
      decreases size - |result|
    {
      var got := connection.Recv(size - |result|);
      if got.Fault? || got.chunk == [] {
        return None;
      }
      result := result + got.chunk;
    }
    return Some(result);
  }

  datatype FrameRead = Arrived(frame: Frame) | Failed

  /** `read_stream_frame` and `readSocketPacket`, up to the decoding of a control payload. */
  method ReadFrame(connection: Incoming, controlMax: nat) returns (r: FrameRead)
    modifies connection
    ensures r.Arrived? ==> Parse(old(connection.wire), controlMax) == Complete(r.frame, connection.wire)
    ensures connection.reliable ==> (r.Arrived? <==> Parse(old(connection.wire), controlMax).Complete?)
  {
    ghost var wire := connection.wire;
    var header := Receive(connection, 4);
    if header.None? {
      return Failed;
    }
    assert wire[..4] == header.value && wire[4..] == connection.wire;
    var encoded := Number(header.value);
    var data := encoded >= DataTag;
    var size := encoded % DataTag;
    if !(0 < size <= if data then MaxData else controlMax) {
      return Failed;
    }
    var payload := Receive(connection, size);
    if payload.None? {
      return Failed;
    }
    assert wire[4..4 + size] == payload.value && wire[4 + size..] == connection.wire;
    return Arrived(if data then Data(payload.value) else Control(payload.value));
  }
}
