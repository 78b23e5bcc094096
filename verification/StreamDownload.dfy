/**
  Download: the Python server streams what the package service writes; the Go client
  receives it, checks the terminator and the final result, and only then publishes a file.
 */
module StreamDownload {
  import opened StreamFrames
  import opened StreamConnection

  // ----- The server

  /** How a `write` ends: sent, refused because of the limit, or broken off with the connection. */
  datatype Writing = Taken | Exceeded | Lost

  /** `StreamWriter`: `hashed` is what the running digest has been fed. */
  class StreamWriter {
    const connection: Outgoing
    const limit: nat
    var count: nat
    var hashed: Bytes
    ghost var chunks: seq<Bytes>

    /** Everything written so far is on the wire, framed, and accounted for. */
    ghost predicate Valid()
      reads this, connection
    {
      && Chunked(chunks) && connection.sent == DataFrames(chunks)
      && Flatten(chunks) == hashed && count == |hashed| <= limit
    }

    constructor (connection: Outgoing, limit: nat)
      requires connection.sent == []
      ensures Valid() && hashed == [] && this.connection == connection && this.limit == limit
    {
      this.connection, this.limit := connection, limit;
      count, hashed, chunks := 0, [], [];
    }

    /** One `write`; it raises without sending anything when the payload exceeds the limit. */
    method Write(payload: Bytes) returns (end: Writing)
      requires Valid()
      modifies this, connection
      ensures end == Taken ==> Valid() && hashed == old(hashed) + payload
      ensures end == Exceeded <==> |payload| > limit - old(count)
      ensures end == Exceeded ==> Valid() && hashed == old(hashed)
      ensures end == Lost ==> Chunked(chunks) && |Flatten(chunks)| <= limit && connection.sent <= DataFrames(chunks)
      ensures connection.reliable ==> end != Lost
    {
      if |payload| > limit - count {
        return Exceeded;
      }
      var offset := 0;
      while offset < |payload|
        invariant 0 <= offset <= |payload|
        invariant Valid() && hashed == old(hashed) + payload[..offset]
        invariant count == old(count) + offset
      {
        var next := if offset + MaxData <= |payload| then offset + MaxData else |payload|;
        var ok := WriteChunk(payload[offset..next]);
        if !ok {
          return Lost;
        }
        assert payload[..offset] + payload[offset..next] == payload[..next];
        offset := next;
      }
      assert payload[..offset] == payload;
      return Taken;
    }

    /** One frame; the digest and the count follow only once it is sent. */
    method WriteChunk(chunk: Bytes) returns (ok: bool)
      requires Valid() && 0 < |chunk| <= MaxData && |chunk| <= limit - count
      modifies this, connection
      ensures ok ==> Valid() && hashed == old(hashed) + chunk
      ensures !ok ==> Chunked(chunks) && |Flatten(chunks)| <= limit && connection.sent <= DataFrames(chunks)
      ensures connection.reliable ==> ok
    {
      DataFramesAppend(chunks, chunk);
      FlattenAppend(chunks, chunk);
      chunks := chunks + [chunk];
      ok := WritePart(connection, Encode(Data(chunk)));
      if ok {
        hashed := hashed + chunk;
        count := count + |chunk|;
      }
    }

    /** `end`: the terminator for what has been written. */
    method End(codec: Codec) returns (ok: bool)
      requires Valid() && count <= MaxStream
      modifies connection
      ensures |EndByPython(SummaryOf(codec, hashed))| <= MaxControl
      ensures connection.sent <= DataFrames(chunks) + Encode(Control(EndByPython(SummaryOf(codec, hashed))))
      ensures ok ==> connection.sent == DataFrames(chunks) + Encode(Control(EndByPython(SummaryOf(codec, hashed))))
      ensures connection.reliable ==> ok
    {
      EndFits(SummaryOf(codec, hashed));
      ok := WritePart(connection, Encode(Control(EndByPython(SummaryOf(codec, hashed)))));
    }
  }

  // ----- The client

  /**
    A control frame as the Go client sees it: a terminator, a valid result of this session, or
    anything else (error frames included), which fails the session.
   */
  datatype Envelope = End(summary: Summary) | Reply(ok: bool) | Unusable

  datatype Client = Client(codec: Codec, envelope: Bytes -> Envelope)

  /** The client's decoder reads back the terminator the server writes. */
  ghost predicate ClientReads(client: Client) {
    forall s: Summary :: s.bytes <= MaxStream ==> client.envelope(EndByPython(s)) == End(s)
  }

  /** A client decoder with that property exists: it is any codec's decoder with the results beside it. */
  lemma ClientExists(codec: Codec, reply: Bytes -> Envelope) returns (client: Client)
    requires ReadsBack(codec)
    ensures client.codec == codec && ClientReads(client)
    ensures forall b :: codec.decode(b).None? ==> client.envelope(b) == reply(b)
  {
    client := Client(codec, (b: Bytes) => if codec.decode(b).Some? then End(codec.decode(b).value) else reply(b));
  }

  datatype Transfer = Verified(content: Bytes, rest: Bytes) | Interrupted(ok: bool) | Incomplete

  /** `receiveSocketArtifact` on the bytes of a whole connection. */
  function Transferred(client: Client, wire: Bytes, maxData: nat, maxStream: nat): Transfer {
    match ReadData(wire, MaxFrame, maxData, maxStream, [])
    case Stopped => Incomplete
    case Reached(file, control, rest) =>
      match client.envelope(control)
      case Reply(ok) => Interrupted(ok)
      case Unusable => Incomplete
      case End(s) => if s == SummaryOf(client.codec, file) && file != [] then Verified(file, rest) else Incomplete
  }

  datatype Outcome = Delivered(content: Bytes) | Refused | Unknown

  /** The rest of `artifact`: a result frame must follow the stream, and then the end of input. */
  function Concluded(client: Client, transfer: Transfer): Outcome {
    match transfer
    case Incomplete => Unknown
    case Interrupted(ok) => if ok then Unknown else Refused
    case Verified(content, rest) =>
      match Parse(rest, MaxFrame)
      case Complete(Control(payload), after) =>
        (match client.envelope(payload)
         case Reply(ok) => if after != [] then Unknown else if ok then Delivered(content) else Refused
         case _ => Unknown)
      case _ => Unknown
  }

  /** Where the client writes what it receives. */
  class Target {
    const reliable: bool
    var written: Bytes

    constructor (reliable: bool)
      ensures written == [] && this.reliable == reliable
    {
      this.reliable, written := reliable, [];
    }

    method Write(data: Bytes) returns (n: nat, failed: bool)
      modifies this
      ensures n <= |data| && written == old(written) + data[..n]
      ensures reliable ==> n == |data| && !failed
    {
      n, failed := |data|, false;
      if !reliable {
        n :| 0 <= n <= |data|;
        failed := *;
      }
      written := written + data[..n];
    }
  }

  method ReceiveArtifact(client: Client, connection: Incoming, target: Target, maxData: nat, maxStream: nat)
    returns (r: Transfer)
    requires target.written == []
    modifies connection, target
    ensures r.Verified? ==>
              && r == Transferred(client, old(connection.wire), maxData, maxStream)
              && target.written == r.content && connection.wire == r.rest
    ensures r.Interrupted? ==> r == Transferred(client, old(connection.wire), maxData, maxStream)
    ensures connection.reliable && target.reliable ==> r == Transferred(client, old(connection.wire), maxData, maxStream)
  {
    var count := 0;
    while true
      invariant count == |target.written| <= maxStream
      invariant ReadData(connection.wire, MaxFrame, maxData, maxStream, target.written)
             == ReadData(old(connection.wire), MaxFrame, maxData, maxStream, [])
      decreases |connection.wire|
    {
      if !connection.reliable {
        if * {
          return Incomplete;  // the context was cancelled
        }
      }
      ghost var before := connection.wire;
      var packet := ReadFrame(connection, MaxFrame);
      if packet.Failed? {
        return Incomplete;
      }
      ParseProgress(before, MaxFrame);
      match packet.frame
      case Data(data) =>
        if |data| > maxData || |data| > maxStream - count {
          return Incomplete;
        }
        var n, failed := target.Write(data);
        if failed || n != |data| {
          return Incomplete;
        }
        assert data[..n] == data;
        count := count + n;
      case Control(control) =>
        match client.envelope(control)
        case Reply(ok) => return Interrupted(ok);
        case Unusable => return Incomplete;
        case End(s) =>
          if s.bytes != count || count == 0 || s.sha256 != client.codec.digest(target.written) {
            return Incomplete;
          }
          return Verified(target.written, connection.wire);
    }
  }

  /** `Produce`: the whole exchange after the server announced the stream. */
  method Produce(client: Client, connection: Incoming, target: Target, maxData: nat, maxStream: nat) returns (r: Outcome)
    requires target.written == []
    modifies connection, target
    ensures r.Delivered? ==>
              && r == Concluded(client, Transferred(client, old(connection.wire), maxData, maxStream))
              && target.written == r.content
    ensures connection.reliable && target.reliable ==>
              r == Concluded(client, Transferred(client, old(connection.wire), maxData, maxStream))
  {
    var transfer := ReceiveArtifact(client, connection, target, maxData, maxStream);
    match transfer
    case Incomplete => return Unknown;
    case Interrupted(ok) => return if ok then Unknown else Refused;
    case Verified(content, _) =>
      var result := ReadFrame(connection, MaxFrame);
      if result.Failed? || result.frame.Data? {
        return Unknown;
      }
      var envelope := client.envelope(result.frame.payload);
      if !envelope.Reply? {
        return Unknown;
      }
      var extra := connection.Recv(1);
      if extra.Fault? || extra.chunk != [] {
        return Unknown;
      }
      return if envelope.ok then Delivered(content) else Refused;
  }

  // ----- Agreement

  /**
    However the service cut its output into writes: the client accepts every frame and the
    terminator, has exactly that output, and is left with what the server sends next.
   */
  lemma DownloadAgreement(client: Client, chunks: seq<Bytes>, next: Bytes, maxStream: nat)
    requires ClientReads(client) && Chunked(chunks) && 0 < |Flatten(chunks)| <= maxStream <= MaxStream
    ensures
      var end := EndByPython(SummaryOf(client.codec, Flatten(chunks)));
      && |end| < DataTag
      && Transferred(client, DataFrames(chunks) + (Encode(Control(end)) + next), MaxData, maxStream) == Verified(Flatten(chunks), next)
  {
    var content := Flatten(chunks);
    EndFits(SummaryOf(client.codec, content));
    assert [] + content == content;
    DataThenControl(chunks, EndByPython(SummaryOf(client.codec, content)), next, MaxFrame, MaxData, maxStream, []);
  }

  /** A download that stops before the last byte of the terminator is never taken as complete. */
  lemma CutDownloadIncomplete(client: Client, chunks: seq<Bytes>, arrived: Bytes, maxData: nat, maxStream: nat)
    requires Chunked(chunks) && |Flatten(chunks)| <= MaxStream
    requires |EndByPython(SummaryOf(client.codec, Flatten(chunks)))| < DataTag
    requires arrived < DataFrames(chunks) + Encode(Control(EndByPython(SummaryOf(client.codec, Flatten(chunks)))))
    ensures Transferred(client, arrived, maxData, maxStream) == Incomplete
  {
    EndFits(SummaryOf(client.codec, Flatten(chunks)));
    CutBeforeControl(chunks, EndByPython(SummaryOf(client.codec, Flatten(chunks))), arrived, MaxFrame, maxData, maxStream, []);
  }

  /**
    What the server sends after its announcement: the data, the terminator if the package service
    returned, and one last frame. That is the result, or an error when a write was refused.
   */
  function Exchange(client: Client, chunks: seq<Bytes>, finished: bool, last: Bytes): Bytes
    requires Chunked(chunks) && |Flatten(chunks)| <= MaxStream && |last| < DataTag
  {
    var end := EndByPython(SummaryOf(client.codec, Flatten(chunks)));
    EndFits(SummaryOf(client.codec, Flatten(chunks)));
    DataFrames(chunks) + if finished then Encode(Control(end)) + Encode(Control(last)) else Encode(Control(last))
  }

  /** What the client makes of it: no result turns an unfinished stream into a delivery. */
  function Ending(client: Client, content: Bytes, finished: bool, last: Bytes): Outcome {
    match client.envelope(last)
    case Reply(ok) =>
      if finished && content == [] then Unknown
      else if !ok then Refused
      else if finished then Delivered(content) else Unknown
    case _ => Unknown
  }

  predicate LastFrame(client: Client, last: Bytes) { 0 < |last| <= MaxFrame && !client.envelope(last).End? }

  /** The same bytes around the first control frame. */
  lemma ExchangeSplits(client: Client, chunks: seq<Bytes>, finished: bool, last: Bytes) returns (end: Bytes, rest: Bytes)
    requires Chunked(chunks) && |Flatten(chunks)| <= MaxStream && LastFrame(client, last)
    ensures 0 < |end| <= MaxFrame
    ensures finished ==> end == EndByPython(SummaryOf(client.codec, Flatten(chunks))) && rest == Encode(Control(last))
    ensures !finished ==> end == last && rest == []
    ensures Exchange(client, chunks, finished, last) == DataFrames(chunks) + (Encode(Control(end)) + rest)
  {
    EndFits(SummaryOf(client.codec, Flatten(chunks)));
    end, rest := last, [];
    if finished {
      end, rest := EndByPython(SummaryOf(client.codec, Flatten(chunks))), Encode(Control(last));
    } else {
      assert Encode(Control(end)) + rest == Encode(Control(end));
    }
  }

  lemma DownloadOutcome(client: Client, chunks: seq<Bytes>, finished: bool, last: Bytes, maxStream: nat)
    requires ClientReads(client) && Chunked(chunks) && |Flatten(chunks)| <= maxStream <= MaxStream && LastFrame(client, last)
    ensures Concluded(client, Transferred(client, Exchange(client, chunks, finished, last), MaxData, maxStream))
         == Ending(client, Flatten(chunks), finished, last)
  {
    var end, rest := ExchangeSplits(client, chunks, finished, last);
    DataThenControl(chunks, end, rest, MaxFrame, MaxData, maxStream, []);
    assert [] + Flatten(chunks) == Flatten(chunks);
    if finished {
      ParseEncode(Control(last), [], MaxFrame);
      assert rest + [] == rest;
    }
  }

  /** Short of all of it, the client knows nothing, whatever part arrives. */
  lemma OnlyWholeDownloads(client: Client, part: Bytes, chunks: seq<Bytes>, finished: bool, last: Bytes, maxStream: nat)
    requires ClientReads(client) && Chunked(chunks) && |Flatten(chunks)| <= maxStream <= MaxStream && LastFrame(client, last)
    requires part < Exchange(client, chunks, finished, last)
    ensures Concluded(client, Transferred(client, part, MaxData, maxStream)) == Unknown
  {
    var end, rest := ExchangeSplits(client, chunks, finished, last);
    var stream := DataFrames(chunks) + Encode(Control(end));
    assert Exchange(client, chunks, finished, last) == stream + rest;
    if |part| < |stream| {
      PrefixOfFront(part, stream, rest);
      CutBeforeControl(chunks, end, part, MaxFrame, MaxData, maxStream, []);
    } else {
      var next := PrefixOfBack(part, stream, rest);
      assert stream + next == DataFrames(chunks) + (Encode(Control(end)) + next);
      DataThenControl(chunks, end, next, MaxFrame, MaxData, maxStream, []);
      ParsePartial(Control(last), next, MaxFrame);
    }
  }

  lemma PrefixOfFront(part: Bytes, front: Bytes, back: Bytes)
    requires part <= front + back && |part| < |front|
    ensures part < front
  {
    assert part == (front + back)[..|part|] == front[..|part|];
  }

  lemma PrefixOfBack(part: Bytes, front: Bytes, back: Bytes) returns (next: Bytes)
    requires part < front + back && |front| <= |part|
    ensures part == front + next && next < back
  {
    next := part[|front|..];
    assert part[..|front|] == (front + back)[..|front|] == front;
    assert next == (front + back)[|front|..|part|] == back[..|part| - |front|];
  }

  /**
    One download from end to end: the service writes `payloads` and returns or raises, the server
    ends the stream if it returned and sends its result, or an error if a write was refused; an
    arbitrary part of that arrives. A delivered artifact is exactly what a service that returned has
    written. Undisturbed, an artifact within the limit is delivered or refused as the result says,
    a service that raises is refused, and nothing is known of one that exceeds the limit.
   */
  method Download(client: Client, payloads: seq<Bytes>, finishes: bool, result: Bytes, error: Bytes, limit: nat, reliable: bool)
    returns (r: Outcome, ended: bool, complete: bool)
    requires ClientReads(client) && 0 < limit <= MaxStream
    requires LastFrame(client, result) && client.envelope(result).Reply? && (client.envelope(result).ok ==> finishes)
    requires LastFrame(client, error) && client.envelope(error).Unusable?
    ensures r.Delivered? ==> finishes && r == Delivered(Flatten(payloads)) && client.envelope(result).ok
    ensures ended && complete && reliable ==> r == Ending(client, Flatten(payloads), finishes, result)
    ensures !ended && reliable ==> r == Unknown
    ensures reliable ==> (ended <==> |Flatten(payloads)| <= limit)
  {
    var connection := new Outgoing(reliable);
    var writer := new StreamWriter(connection, limit);
    var end := WriteAll(writer, payloads);
    if end != Taken {
      ended := false;
      if end == Exceeded {
        var told := WritePart(connection, Encode(Control(error)));
      }
      r, complete := Arrive(client, connection.sent, limit, reliable, writer.chunks, false, error);
    } else {
      ended := Conclude(client, writer, finishes, result);
      r, complete := Arrive(client, connection.sent, limit, reliable, writer.chunks, finishes, result);
    }
  }

  /** The terminator, if the service returned, and the result. */
  method Conclude(client: Client, writer: StreamWriter, finished: bool, result: Bytes) returns (ok: bool)
    requires writer.Valid() && writer.limit <= MaxStream && LastFrame(client, result)
    modifies writer.connection
    ensures writer.connection.sent <= Exchange(client, writer.chunks, finished, result)
    ensures ok ==> writer.connection.sent == Exchange(client, writer.chunks, finished, result)
    ensures writer.connection.reliable ==> ok
  {
    ghost var end, rest := ExchangeSplits(client, writer.chunks, finished, result);
    ok := true;
    if finished {
      Associative(DataFrames(writer.chunks), Encode(Control(end)), rest);
      ok := writer.End(client.codec);
    }
    if ok {
      ok := WritePart(writer.connection, Encode(Control(result)));
    }
  }

  /** The package service's writes, in order; the first that raises ends them. */
  method WriteAll(writer: StreamWriter, payloads: seq<Bytes>) returns (end: Writing)
    requires writer.Valid() && writer.hashed == []
    modifies writer, writer.connection
    ensures end == Taken ==> writer.Valid() && writer.hashed == Flatten(payloads)
    ensures end == Exceeded ==> writer.Valid() && |Flatten(payloads)| > writer.limit
    ensures end == Lost ==>
              Chunked(writer.chunks) && |Flatten(writer.chunks)| <= writer.limit && writer.connection.sent <= DataFrames(writer.chunks)
    ensures writer.connection.reliable ==> end != Lost
  {
    for i := 0 to |payloads|
      invariant writer.Valid() && writer.hashed == Flatten(payloads[..i])
    {
      FlattenPrefix(payloads, i);
      end := writer.Write(payloads[i]);
      if end != Taken {
        return;
      }
      FlattenAppend(payloads[..i], payloads[i]);
      assert payloads[..i] + [payloads[i]] == payloads[..i + 1];
    }
    assert payloads[..|payloads|] == payloads;
    return Taken;
  }

  /** No beginning of a stream is longer than the stream. */
  lemma {:induction false} FlattenPrefix(chunks: seq<Bytes>, i: nat)
    requires i < |chunks|
    ensures |Flatten(chunks[..i])| + |chunks[i]| <= |Flatten(chunks)|
  {
    var n := |chunks| - 1;
    if i < n {
      FlattenPrefix(chunks[..n], i);
      assert chunks[..n][..i] == chunks[..i];
    }
  }

  /** Part of what was sent arrives and is received. */
  method Arrive(client: Client, sent: Bytes, limit: nat, reliable: bool, ghost chunks: seq<Bytes>, ghost finished: bool, ghost last: Bytes)
    returns (r: Outcome, complete: bool)
    requires ClientReads(client) && 0 < limit <= MaxStream && Chunked(chunks) && |Flatten(chunks)| <= limit && LastFrame(client, last)
    requires sent <= Exchange(client, chunks, finished, last)
    ensures r.Delivered? ==> sent == Exchange(client, chunks, finished, last) && r == Ending(client, Flatten(chunks), finished, last)
    ensures reliable ==>
              r == if complete && sent == Exchange(client, chunks, finished, last)
                   then Ending(client, Flatten(chunks), finished, last) else Unknown
  {
    var arrived: nat :| arrived <= |sent|;
    complete := arrived == |sent|;
    var part := sent[..arrived];
    var peer := new Incoming(part, reliable);
    var target := new Target(reliable);
    r := Produce(client, peer, target, MaxData, limit);
    if part == Exchange(client, chunks, finished, last) {
      DownloadOutcome(client, chunks, finished, last, limit);
    } else {
      OnlyWholeDownloads(client, part, chunks, finished, last, limit);
    }
  }

  // ----- Publication

  /** The directory the protected artifact is written to; without `reliable` any step in it may fail. */
  class Directory {
    const reliable: bool
    var files: map<string, Bytes>

    constructor (reliable: bool)
      ensures files == map[] && this.reliable == reliable
    {
      this.reliable, files := reliable, map[];
    }

    method Proceed() returns (ok: bool)
      ensures reliable ==> ok
    {
      ok := true;
      if !reliable {
        ok := *;
      }
    }

    /** Hard link without overwrite. */
    method Link(source: string, target: string) returns (ok: bool)
      requires source in files
      modifies this
      ensures ok ==> target !in old(files) && files == old(files)[target := old(files)[source]]
      ensures !ok ==> files == old(files)
      ensures reliable && target !in old(files) ==> ok
    {
      ok := false;
      if target !in files {
        ok := Proceed();
        if ok {
          files := files[target := files[source]];
        }
      }
    }
  }

  /** What a published artifact consists of: the preamble and the age stream around the content. */
  datatype Protection = Protection(preamble: Bytes, seal: Bytes -> Bytes)

  /**
    `writeProtectedArtifact` around `Produce`: the target appears only with the verified
    content of a successful exchange, and in every other case the directory is as before.
   */
  method WriteProtected(client: Client, connection: Incoming, target: Target, directory: Directory, path: string,
                        temporary: string, protection: Protection, maxData: nat, maxStream: nat) returns (published: bool)
    requires target.written == [] && temporary !in directory.files && temporary != path
    modifies connection, target, directory
    ensures published ==>
              && path !in old(directory.files)
              && Concluded(client, Transferred(client, old(connection.wire), maxData, maxStream)).Delivered?
              && directory.files == old(directory.files)[
                   path := protection.preamble + protection.seal(
                       Concluded(client, Transferred(client, old(connection.wire), maxData, maxStream)).content)]
    ensures !published ==> directory.files == old(directory.files)
    ensures (directory.reliable && connection.reliable && target.reliable && path !in old(directory.files)) ==>
              Concluded(client, Transferred(client, old(connection.wire), maxData, maxStream)).Delivered? ==> published
  {
    if path in directory.files {
      return false;
    }
    var healthy := directory.Proceed();
    if !healthy {
      return false;  // the temporary file could not be created
    }
    ghost var before := directory.files;
    directory.files := directory.files[temporary := []];
    published := false;
    healthy := directory.Proceed();
    if healthy {
      directory.files := directory.files[temporary := protection.preamble];
      var outcome := Produce(client, connection, target, maxData, maxStream);
      var closed := directory.Proceed();
      if closed && outcome.Delivered? {
        var artifact := protection.preamble + protection.seal(target.written);
        directory.files := directory.files[temporary := artifact];
        assert directory.files == before[temporary := artifact];
        var synced := directory.Proceed();
        if synced {
          published := directory.Link(temporary, path);
        }
      }
    }
    RemoveTemporary(before, temporary, directory.files[temporary], path);
    directory.files := directory.files - {temporary};
  }

  lemma RemoveTemporary(files: map<string, Bytes>, temporary: string, content: Bytes, path: string)
    requires temporary !in files && temporary != path
    ensures files[temporary := content] - {temporary} == files
    ensures files[temporary := content][path := content] - {temporary} == files[path := content]
  {
  }
}
