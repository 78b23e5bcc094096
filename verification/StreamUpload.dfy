/**
  Upload: the Go client sends a source it can only read in pieces, over a writer that may
  take only part of each write; the Python server receives it in whatever pieces arrive.
 */
module StreamUpload {
  import opened Wrappers
  import opened StreamFrames
  import opened StreamConnection

  // ----- What the receiver accepts

  datatype Verdict = Accepted(content: Bytes) | Rejected

  /** `receive_package` on everything the peer sends before it closes its half. */
  function Accept(codec: Codec, wire: Bytes, limit: nat): Verdict {
    match ReadData(wire, MaxControl, MaxData, limit, [])
    case Reached(file, control, rest) =>
      if codec.decode(control) == Some(SummaryOf(codec, file)) && file != [] && rest == [] then Accepted(file)
      else Rejected
    case Stopped => Rejected
  }

  function Transcript(codec: Codec, chunks: seq<Bytes>): Bytes
    requires Chunked(chunks) && |EndByGo(SummaryOf(codec, Flatten(chunks)))| < DataTag
  {
    DataFrames(chunks) + Encode(Control(EndByGo(SummaryOf(codec, Flatten(chunks)))))
  }

  /** A complete transcript is accepted with exactly the streamed content if nothing follows it. */
  lemma TranscriptThen(codec: Codec, chunks: seq<Bytes>, limit: nat, extra: Bytes)
    requires ReadsBack(codec) && Chunked(chunks) && 0 < |Flatten(chunks)| <= limit <= MaxStream
    requires |EndByGo(SummaryOf(codec, Flatten(chunks)))| < DataTag
    ensures Accept(codec, Transcript(codec, chunks) + extra, limit) == if extra == [] then Accepted(Flatten(chunks)) else Rejected
  {
    var content := Flatten(chunks);
    var end := EndByGo(SummaryOf(codec, content));
    EndFits(SummaryOf(codec, content));
    assert [] + content == content;
    DataThenControl(chunks, end, extra, MaxControl, MaxData, limit, []);
    assert Transcript(codec, chunks) + extra == DataFrames(chunks) + (Encode(Control(end)) + extra);
  }

  /**
    A complete transcript is accepted with exactly the streamed content; every proper
    prefix of it, and every extension by at least one byte, is rejected.
   */
  lemma TranscriptExact(codec: Codec, chunks: seq<Bytes>, limit: nat, other: Bytes)
    requires ReadsBack(codec) && Chunked(chunks) && 0 < |Flatten(chunks)| <= limit <= MaxStream
    ensures |EndByGo(SummaryOf(codec, Flatten(chunks)))| < DataTag
    ensures Accept(codec, Transcript(codec, chunks), limit) == Accepted(Flatten(chunks))
    ensures other < Transcript(codec, chunks) ==> Accept(codec, other, limit) == Rejected
    ensures other != [] ==> Accept(codec, Transcript(codec, chunks) + other, limit) == Rejected
  {
    EndFits(SummaryOf(codec, Flatten(chunks)));
    assert Transcript(codec, chunks) + [] == Transcript(codec, chunks);
    TranscriptThen(codec, chunks, limit, []);
    TranscriptThen(codec, chunks, limit, other);
    if other < Transcript(codec, chunks) {
      CutBeforeControl(chunks, EndByGo(SummaryOf(codec, Flatten(chunks))), other, MaxControl, MaxData, limit, []);
    }
  }

  // ----- The client

  datatype ReadStatus = More | Eof | Broke

  /**
    A reader that returns what it has in pieces of its choice; `good` if it ever reaches its end,
    `steady` if it never breaks. At most `lulls` reads in a row return nothing without reporting the end;
    `lull` counts those just before, `longest` is the longest row so far. `ended` says whether the
    last read reported the end.
   */
  class Source {
    const good: bool
    const steady: bool
    const lulls: nat
    var left: Bytes
    var lull: nat
    ghost var longest: nat
    ghost var ended: bool

    constructor (content: Bytes, good: bool, steady: bool, lulls: nat)
      ensures left == content && this.good == good && this.steady == steady && this.lulls == lulls
      ensures lull == longest == 0 && !ended
    {
      this.left, this.good, this.steady, this.lulls := content, good, steady, lulls;
      lull, longest, ended := 0, 0, false;
    }

    method Read(max: nat) returns (chunk: Bytes, status: ReadStatus)
      requires max > 0 && lull <= lulls
      modifies this
      ensures |chunk| <= max && old(left) == chunk + left
      ensures ended == (status == Eof) && (ended ==> good && left == [])
      ensures steady && good ==> status != Broke
      ensures lull == (if chunk == [] && status == More then old(lull) + 1 else 0) && lull <= lulls
      ensures longest == if lull > old(longest) then lull else old(longest)
    {
      var n: nat := if lull == lulls && left != [] then 1 else 0;
      var m: nat :| n <= m <= max && m <= |left|;
      chunk, left := left[..m], left[m..];
      status := More;
      if good && left == [] {
        var last: bool := *;
        if last || (chunk == [] && lull == lulls) {
          status := Eof;
        }
      }
      if !steady || !good {
        var breaks: bool := *;
        if breaks || (chunk == [] && status == More && lull == lulls) {
          status := Broke;
        }
      }
      lull := if chunk == [] && status == More then lull + 1 else 0;
      longest := if lull > longest then lull else longest;
      ended := status == Eof;
    }
  }

  method WriteData(connection: Outgoing, payload: Bytes) returns (ok: bool)
    modifies connection
    ensures !(0 < |payload| <= MaxData) ==> !ok && connection.sent == old(connection.sent)
    ensures 0 < |payload| <= MaxData ==>
              && old(connection.sent) <= connection.sent <= old(connection.sent) + Encode(Data(payload))
              && (ok ==> connection.sent == old(connection.sent) + Encode(Data(payload)))
              && (connection.reliable ==> ok)
  {
    if |payload| == 0 || |payload| > MaxData {
      return false;
    }
    var header := Header(DataTag + |payload|);
    assert Encode(Data(payload)) == header + payload;
    ok := WritePart(connection, header);
    if ok {
      assert connection.sent + payload == old(connection.sent) + (header + payload);
      ok := WritePart(connection, payload);
    }
  }

  method WriteControl(connection: Outgoing, payload: Bytes) returns (ok: bool)
    modifies connection
    ensures !(0 < |payload| <= MaxFrame) ==> !ok && connection.sent == old(connection.sent)
    ensures 0 < |payload| <= MaxFrame ==>
              && old(connection.sent) <= connection.sent <= old(connection.sent) + Encode(Control(payload))
              && (ok ==> connection.sent == old(connection.sent) + Encode(Control(payload)))
              && (connection.reliable ==> ok)
  {
    if |payload| == 0 || |payload| > MaxFrame {
      return false;
    }
    ok := WritePart(connection, Header(|payload|) + payload);
  }

  /** What may be on the wire once the client has read `chunks` of `content`, and its end if `ended`. */
  ghost predicate Sent(codec: Codec, wire: Bytes, chunks: seq<Bytes>, content: Bytes, ended: bool) {
    && Chunked(chunks) && Flatten(chunks) <= content
    && (wire <= DataFrames(chunks) || (ended && Terminated(codec, wire, chunks, content)))
  }

  /** Part of the transcript of the whole content. */
  ghost predicate Terminated(codec: Codec, wire: Bytes, chunks: seq<Bytes>, content: Bytes)
    requires Chunked(chunks)
  {
    && 0 < |content| <= MaxStream && Flatten(chunks) == content
    && |EndByGo(SummaryOf(codec, content))| < DataTag && wire <= Transcript(codec, chunks)
  }

  /** The client's terminator, for everything it has sent. */
  method SendEnd(codec: Codec, connection: Outgoing, file: Bytes, ghost chunks: seq<Bytes>) returns (ok: bool)
    requires Chunked(chunks) && Flatten(chunks) == file && 0 < |file| <= MaxStream && connection.sent == DataFrames(chunks)
    modifies connection
    ensures Terminated(codec, connection.sent, chunks, file)
    ensures ok ==> connection.sent == Transcript(codec, chunks)
    ensures connection.reliable ==> ok
  {
    EndFits(SummaryOf(codec, file));
    ok := WriteControl(connection, EndByGo(SummaryOf(codec, file)));
  }

  /** One data frame more. */
  method SendChunk(connection: Outgoing, file: Bytes, buffer: Bytes, ghost chunks: seq<Bytes>)
    returns (ok: bool, ghost longer: seq<Bytes>)
    requires Chunked(chunks) && Flatten(chunks) == file && connection.sent == DataFrames(chunks) && 0 < |buffer| <= MaxData
    modifies connection
    ensures Chunked(longer) && Flatten(longer) == file + buffer && connection.sent <= DataFrames(longer)
    ensures ok ==> connection.sent == DataFrames(longer)
    ensures connection.reliable ==> ok
  {
    DataFramesAppend(chunks, buffer);
    FlattenAppend(chunks, buffer);
    longer := chunks + [buffer];
    ok := WriteData(connection, buffer);
  }

  /** The next piece of the source, after `file`. */
  method ReadPiece(source: Source, maxData: nat, ghost file: Bytes, ghost content: Bytes) returns (buffer: Bytes, status: ReadStatus)
    requires maxData > 0 && file + source.left == content && source.lull <= source.lulls
    modifies source
    ensures |buffer| <= maxData && |source.left| + |buffer| == |old(source.left)|
    ensures (file + buffer) + source.left == content && (buffer == [] ==> file + source.left == content)
    ensures source.ended == (status == Eof) && (source.ended ==> file + buffer == content && (buffer == [] ==> file == content))
    ensures source.steady && source.good ==> status != Broke
    ensures source.lull == (if buffer == [] && status == More then old(source.lull) + 1 else 0) && source.lull <= source.lulls
    ensures source.longest == if source.lull > old(source.longest) then source.lull else old(source.longest)
  {
    ghost var before := source.left;
    buffer, status := source.Read(maxData);
    assert file + before == (file + buffer) + source.left;
    assert buffer == [] ==> file + buffer == file;
  }

  /**
    `sendSocketArtifact`: `maxData` and `maxStream` come from the server's announcement, which
    the client has checked. However the call ends, the wire holds a prefix of the data frames,
    followed by (part of) the terminator only when it read the source to its end. It bears with
    99 reads in a row that return nothing, and not with a hundred.
   */
  method SendArtifact(codec: Codec, source: Source, connection: Outgoing, maxData: nat, maxStream: nat)
    returns (ok: bool, ghost chunks: seq<Bytes>)
    requires 0 < maxData <= MaxData && 0 < maxStream <= MaxStream && connection.sent == []
    requires source.lull == source.longest == 0
    modifies source, connection
    ensures Sent(codec, connection.sent, chunks, old(source.left), source.ended)
    ensures |Flatten(chunks)| <= maxStream
    ensures ok ==>
              && source.ended && Flatten(chunks) == old(source.left)
              && |EndByGo(SummaryOf(codec, Flatten(chunks)))| < DataTag && connection.sent == Transcript(codec, chunks)
    ensures ok ==> source.longest < 100
    ensures connection.reliable && source.steady && source.good && source.lulls < 100 && 0 < |old(source.left)| <= maxStream ==> ok
  {
    ghost var content := source.left;
    chunks := [];
    var file: Bytes := [];
    var empty := 0;
    while true
      invariant Chunked(chunks) && Flatten(chunks) == file && file + source.left == content
      invariant connection.sent == DataFrames(chunks)
      invariant |file| <= maxStream && 0 <= empty < 100
      invariant empty == source.lull <= source.lulls && source.longest < 100
      decreases |source.left|, 100 - empty
    {
      if !connection.reliable {
        if * {
          return false, chunks;  // the context was cancelled
        }
      }
      var buffer, status := ReadPiece(source, maxData, file, content);
      if |buffer| > 0 {
        empty := 0;
        if |buffer| > maxStream - |file| {
          return false, chunks;
        }
        ok, chunks := SendChunk(connection, file, buffer, chunks);
        file := file + buffer;
        if !ok {
          return false, chunks;
        }
      } else {
        empty := empty + 1;
      }
      if status == Eof {
        if |file| == 0 {
          return false, chunks;
        }
        ok := SendEnd(codec, connection, file, chunks);
        return ok, chunks;
      }
      if status == Broke || empty >= 100 {
        return false, chunks;
      }
    }
  }

  // ----- The server

  /** `receive_package`: whatever the pieces, it returns only with what `Accept` accepts. */
  method ReceivePackage(codec: Codec, connection: Incoming, limit: nat) returns (r: Verdict)
    modifies connection
    ensures r.Accepted? ==> Accept(codec, old(connection.wire), limit) == r
    ensures connection.reliable ==> r == Accept(codec, old(connection.wire), limit)
  {
    var file: Bytes := [];
    while true
      invariant |file| <= limit
      invariant ReadData(connection.wire, MaxControl, MaxData, limit, file)
             == ReadData(old(connection.wire), MaxControl, MaxData, limit, [])
      decreases |connection.wire|
    {
      ghost var before := connection.wire;
      var next := ReadFrame(connection, MaxControl);
      if next.Failed? {
        return Rejected;
      }
      ParseProgress(before, MaxControl);
      match next.frame
      case Data(payload) =>
        if |payload| > limit - |file| {
          return Rejected;
        }
        file := file + payload;
      case Control(payload) =>
        if codec.decode(payload) != Some(SummaryOf(codec, file)) || |file| == 0 {
          return Rejected;
        }
        ghost var rest := connection.wire;
        var extra := connection.Recv(1);
        if extra.Fault? || extra.chunk != [] {
          return Rejected;
        }
        var stored := connection.Proceed();
        if !stored {
          return Rejected;
        }
        return Accepted(file);
    }
  }

  // ----- End to end

  /**
    Whatever the client managed to put on the wire and however much of it arrived: if the
    server takes the package, the source reached its end and the file is exactly its content.
   */
  lemma UploadAllOrNothing(codec: Codec, wire: Bytes, arrived: Bytes, chunks: seq<Bytes>, content: Bytes, ended: bool, limit: nat)
    requires Sent(codec, wire, chunks, content, ended) && arrived <= wire
    ensures Accept(codec, arrived, limit).Accepted? ==> ended && Accept(codec, arrived, limit) == Accepted(content)
  {
    if arrived <= DataFrames(chunks) {
      DataAlone(chunks, arrived, MaxControl, MaxData, limit, []);
    } else {
      assert !(wire <= DataFrames(chunks));
      EndFits(SummaryOf(codec, content));
      var end := EndByGo(SummaryOf(codec, content));
      if arrived < Transcript(codec, chunks) {
        CutBeforeControl(chunks, end, arrived, MaxControl, MaxData, limit, []);
      } else {
        assert arrived == DataFrames(chunks) + (Encode(Control(end)) + []);
        assert [] + content == content;
        DataThenControl(chunks, end, [], MaxControl, MaxData, limit, []);
      }
    }
  }

  /**
    One upload from end to end: the client sends, an arbitrary part of what it sent arrives,
    the server receives. A returned package is the whole source; a client that reported success
    over an unbroken connection has delivered it.
   */
  method Upload(codec: Codec, source: Source, maxData: nat, limit: nat, reliable: bool)
    returns (clientOk: bool, r: Verdict, complete: bool)
    requires ReadsBack(codec) && 0 < maxData <= MaxData && 0 < limit <= MaxStream
    requires source.lull == source.longest == 0
    modifies source
    ensures r.Accepted? ==> source.ended && r == Accepted(old(source.left))
    ensures clientOk && complete && reliable ==> r == Accepted(old(source.left))
    ensures reliable && source.steady && source.good && source.lulls < 100 && 0 < |old(source.left)| <= limit ==> clientOk
  {
    var connection := new Outgoing(reliable);
    ghost var content := source.left;
    ghost var chunks;
    clientOk, chunks := SendArtifact(codec, source, connection, maxData, limit);
    var arrived: nat :| arrived <= |connection.sent|;
    complete := arrived == |connection.sent|;
    var part := connection.sent[..arrived];
    var peer := new Incoming(part, reliable);
    r := ReceivePackage(codec, peer, limit);
    UploadAllOrNothing(codec, connection.sent, part, chunks, content, source.ended, limit);
    if clientOk && complete && reliable {
      assert part == connection.sent;
      CompleteUploadAccepted(codec, chunks, content, source.ended, limit);
    }
  }

  lemma CompleteUploadAccepted(codec: Codec, chunks: seq<Bytes>, content: Bytes, ended: bool, limit: nat)
    requires ReadsBack(codec) && Chunked(chunks) && |Flatten(chunks)| <= limit <= MaxStream
    requires |EndByGo(SummaryOf(codec, Flatten(chunks)))| < DataTag
    requires Sent(codec, Transcript(codec, chunks), chunks, content, ended)
    ensures Accept(codec, Transcript(codec, chunks), limit) == Accepted(content)
  {
    assert |Transcript(codec, chunks)| > |DataFrames(chunks)|;
    TranscriptExact(codec, chunks, limit, []);
  }
}
