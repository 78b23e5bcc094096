/**
  Exactly which bytes the two receivers take, whoever sent them: an upload accepted by the server,
  a download delivered to or refused by the client, and the layout of a frame.
 */
module StreamReceiving {
  import opened Wrappers
  import opened StreamFrames
  import opened StreamUpload
  import opened StreamDownload

  // ----- Frames, byte by byte

  /** Four bytes of length, most significant first, whose top bit marks data; then the payload. */
  lemma FrameLayout(f: Frame)
    requires |f.payload| < 0x8000_0000
    ensures |Encode(f)| == 4 + |f.payload| && Encode(f)[4..] == f.payload
    ensures
      var a: int, b: int, c: int, d: int := Encode(f)[0], Encode(f)[1], Encode(f)[2], Encode(f)[3];
      a * 16777216 + b * 65536 + c * 256 + d == (if f.Data? then 2147483648 else 0) + |f.payload|
  {
    NumberOfHeader(if f.Data? then DataTag + |f.payload| else |f.payload|);
  }

  lemma LowByte(q: nat, r: nat)
    requires r < 0x100
    ensures (q * 0x100 + r) / 0x100 == q && (q * 0x100 + r) % 0x100 == r
  {
  }

  lemma LowBytes(q: nat, c: nat, d: nat)
    requires c < 0x100 && d < 0x100
    ensures (q * 0x1_0000 + (c * 0x100 + d)) / 0x1_0000 == q
  {
  }

  lemma LowThree(q: nat, b: nat, c: nat, d: nat)
    requires b < 0x100 && c < 0x100 && d < 0x100
    ensures (q * 0x100_0000 + (b * 0x1_0000 + c * 0x100 + d)) / 0x100_0000 == q
  {
  }

  lemma HeaderOfNumber(h: Bytes)
    requires |h| == 4
    ensures Header(Number(h)) == h
  {
    var a: int, b: int, c: int, d: int := h[0], h[1], h[2], h[3];
    LowByte((a * 0x100 + b) * 0x100 + c, d);
    LowByte(a * 0x100 + b, c);
    LowByte(a, b);
    LowBytes(a * 0x100 + b, c, d);
    LowThree(a, b, c, d);
    assert Header(Number(h)) == [a, b, c, d];
  }

  /** The tag and the length make up the number. */
  lemma TaggedNumber(n: nat)
    requires n < 0x1_0000_0000
    ensures n == if n >= DataTag then DataTag + n % DataTag else n % DataTag
  {
  }

  /** What is read as a frame is the bytes of that frame, and nothing else is. */
  lemma ParseIsEncode(wire: Bytes, controlMax: nat)
    requires Parse(wire, controlMax).Complete? && controlMax < DataTag
    ensures
      var parsed := Parse(wire, controlMax);
      Sized(parsed.frame, controlMax) && wire == Encode(parsed.frame) + parsed.rest
  {
    HeaderOfNumber(wire[..4]);
    TaggedNumber(Number(wire[..4]));
    var parsed := Parse(wire, controlMax);
    var size := |parsed.frame.payload|;
    assert Encode(parsed.frame) == wire[..4] + wire[4..4 + size];
    assert wire == (wire[..4] + wire[4..4 + size]) + wire[4 + size..];
  }

  // ----- Streams

  /** Data within the bounds, then a control frame, then the rest. */
  predicate Carries(wire: Bytes, chunks: seq<Bytes>, control: Bytes, rest: Bytes, controlMax: nat, maxData: nat, limit: nat)
    requires controlMax < DataTag
  {
    && Chunked(chunks) && (forall i :: 0 <= i < |chunks| ==> |chunks[i]| <= maxData) && |Flatten(chunks)| <= limit
    && 0 < |control| <= controlMax && wire == DataFrames(chunks) + (Encode(Control(control)) + rest)
  }

  lemma FlattenCons(c: Bytes, chunks: seq<Bytes>)
    ensures Flatten([c] + chunks) == c + Flatten(chunks)
  {
    FlattenFront([c] + chunks);
    assert ([c] + chunks)[1..] == chunks;
  }

  lemma DataFramesCons(c: Bytes, chunks: seq<Bytes>)
    requires Chunked(chunks) && 0 < |c| <= MaxData
    ensures Chunked([c] + chunks) && DataFrames([c] + chunks) == Encode(Data(c)) + DataFrames(chunks)
  {
    DataFramesFront([c] + chunks);
    assert ([c] + chunks)[1..] == chunks;
  }

  /** One more data frame in front. */
  lemma CarriesMore(payload: Bytes, wire: Bytes, chunks: seq<Bytes>, control: Bytes, rest: Bytes, controlMax: nat, maxData: nat, limit: nat)
    requires controlMax < DataTag && Carries(wire, chunks, control, rest, controlMax, maxData, limit)
    requires 0 < |payload| <= maxData && |payload| <= MaxData
    ensures Flatten([payload] + chunks) == payload + Flatten(chunks)
    ensures Carries(Encode(Data(payload)) + wire, [payload] + chunks, control, rest, controlMax, maxData, limit + |payload|)
  {
    FlattenCons(payload, chunks);
    DataFramesCons(payload, chunks);
    Associative(Encode(Data(payload)), DataFrames(chunks), Encode(Control(control)) + rest);
  }

  /** A reader that reaches a control frame has read such a stream. */
  lemma {:induction false} ReachedCarries(wire: Bytes, controlMax: nat, maxData: nat, limit: nat, file: Bytes) returns (chunks: seq<Bytes>)
    requires controlMax < DataTag && |file| <= limit && ReadData(wire, controlMax, maxData, limit, file).Reached?
    ensures
      var r := ReadData(wire, controlMax, maxData, limit, file);
      r.content == file + Flatten(chunks) && Carries(wire, chunks, r.control, r.rest, controlMax, maxData, limit - |file|)
    decreases |wire|
  {
    ParseIsEncode(wire, controlMax);
    var parsed := Parse(wire, controlMax);
    match parsed.frame
    case Control(payload) =>
      chunks := [];
      assert file + Flatten([]) == file && DataFrames([]) + wire == wire;
    case Data(payload) =>
      var later := ReachedCarries(parsed.rest, controlMax, maxData, limit, file + payload);
      var r := ReadData(wire, controlMax, maxData, limit, file);
      chunks := [payload] + later;
      CarriesMore(payload, parsed.rest, later, r.control, r.rest, controlMax, maxData, limit - |file + payload|);
      Associative(file, payload, Flatten(later));
  }

  /** And it reaches exactly that. */
  lemma CarriesReached(wire: Bytes, chunks: seq<Bytes>, control: Bytes, rest: Bytes, controlMax: nat, maxData: nat, limit: nat)
    requires controlMax < DataTag && Carries(wire, chunks, control, rest, controlMax, maxData, limit)
    ensures ReadData(wire, controlMax, maxData, limit, []) == Reached(Flatten(chunks), control, rest)
  {
    DataThenControl(chunks, control, rest, controlMax, maxData, limit, []);
    assert [] + Flatten(chunks) == Flatten(chunks);
  }

  // ----- Upload

  /** Data, and one control frame that names its length and its digest. */
  predicate Attests(codec: Codec, wire: Bytes, limit: nat, chunks: seq<Bytes>, control: Bytes) {
    && Carries(wire, chunks, control, [], 1024, 65536, limit) && Flatten(chunks) != []
    && codec.decode(control) == Some(Summary(|Flatten(chunks)|, codec.digest(Flatten(chunks))))
  }

  /**
    Whatever anybody sends: the server takes it as a package if and only if it is some data, not
    empty and within the limit, followed by one control frame that decodes to its length and its
    digest, and by nothing; and the package is that data.
   */
  lemma AcceptExactly(codec: Codec, wire: Bytes, limit: nat, file: Bytes)
    ensures Accept(codec, wire, limit) == Accepted(file) <==>
            exists chunks, control :: Attests(codec, wire, limit, chunks, control) && Flatten(chunks) == file
  {
    if Accept(codec, wire, limit) == Accepted(file) {
      var chunks := ReachedCarries(wire, MaxControl, MaxData, limit, []);
      assert [] + Flatten(chunks) == Flatten(chunks);
      assert Attests(codec, wire, limit, chunks, ReadData(wire, MaxControl, MaxData, limit, []).control);
    }
    forall chunks, control | Attests(codec, wire, limit, chunks, control) && Flatten(chunks) == file
      ensures Accept(codec, wire, limit) == Accepted(file)
    {
      CarriesReached(wire, chunks, control, [], MaxControl, MaxData, limit);
    }
  }

  /** Data, any control frame and anything after it: taken exactly if the frame tells the truth and nothing follows. */
  lemma AcceptedIfTrue(codec: Codec, chunks: seq<Bytes>, control: Bytes, extra: Bytes, limit: nat)
    requires Chunked(chunks) && 0 < |control| <= 1024
    ensures Accept(codec, DataFrames(chunks) + (Encode(Control(control)) + extra), limit).Accepted? <==>
            && codec.decode(control) == Some(Summary(|Flatten(chunks)|, codec.digest(Flatten(chunks))))
            && 0 < |Flatten(chunks)| <= limit && extra == []
  {
    DataThenControl(chunks, control, extra, MaxControl, MaxData, limit, []);
    assert [] + Flatten(chunks) == Flatten(chunks);
  }

  // ----- Download

  /** Data, a terminator that names its length and its digest, and after it the rest. */
  predicate Ends(client: Client, wire: Bytes, maxData: nat, maxStream: nat, chunks: seq<Bytes>, control: Bytes, rest: Bytes) {
    && Carries(wire, chunks, control, rest, 1048576, maxData, maxStream) && Flatten(chunks) != []
    && client.envelope(control) == End(Summary(|Flatten(chunks)|, client.codec.digest(Flatten(chunks))))
  }

  /** Exactly one result frame. */
  predicate Results(client: Client, rest: Bytes, result: Bytes, ok: bool) {
    0 < |result| <= 1048576 && rest == Encode(Control(result)) && client.envelope(result) == Reply(ok)
  }

  ghost predicate Produced(client: Client, wire: Bytes, maxData: nat, maxStream: nat, ok: bool, content: Bytes) {
    exists chunks, control, rest, result ::
      Ends(client, wire, maxData, maxStream, chunks, control, rest) && Results(client, rest, result, ok) && Flatten(chunks) == content
  }

  /** A failure instead of the terminator. */
  ghost predicate BrokenOff(client: Client, wire: Bytes, maxData: nat, maxStream: nat) {
    exists chunks, control, rest ::
      Carries(wire, chunks, control, rest, 1048576, maxData, maxStream) && client.envelope(control) == Reply(false)
  }

  lemma ResultParses(client: Client, rest: Bytes, result: Bytes, ok: bool)
    requires Results(client, rest, result, ok)
    ensures Parse(rest, MaxFrame) == Complete(Control(result), [])
  {
    ParseEncode(Control(result), [], MaxFrame);
    assert rest + [] == rest;
  }

  lemma ConcludedProduced(client: Client, wire: Bytes, maxData: nat, maxStream: nat)
    requires Transferred(client, wire, maxData, maxStream).Verified?
    ensures
      var transfer := Transferred(client, wire, maxData, maxStream);
      && (Concluded(client, transfer).Delivered? ==>
            Concluded(client, transfer) == Delivered(transfer.content) && Produced(client, wire, maxData, maxStream, true, transfer.content))
      && (Concluded(client, transfer) == Refused ==> Produced(client, wire, maxData, maxStream, false, transfer.content))
  {
    var chunks := ReachedCarries(wire, MaxFrame, maxData, maxStream, []);
    var reached := ReadData(wire, MaxFrame, maxData, maxStream, []);
    assert [] + Flatten(chunks) == Flatten(chunks);
    assert Ends(client, wire, maxData, maxStream, chunks, reached.control, reached.rest);
    if !Concluded(client, Transferred(client, wire, maxData, maxStream)).Unknown? {
      ParseIsEncode(reached.rest, MaxFrame);
      var result := Parse(reached.rest, MaxFrame).frame.payload;
      assert Encode(Control(result)) + [] == Encode(Control(result));
      assert Results(client, reached.rest, result, client.envelope(result).ok);
    }
  }

  lemma ProducedConcluded(client: Client, wire: Bytes, maxData: nat, maxStream: nat, ok: bool, content: Bytes)
    requires Produced(client, wire, maxData, maxStream, ok, content)
    ensures Concluded(client, Transferred(client, wire, maxData, maxStream)) == if ok then Delivered(content) else Refused
  {
    var chunks, control, rest, result :|
      Ends(client, wire, maxData, maxStream, chunks, control, rest) && Results(client, rest, result, ok) && Flatten(chunks) == content;
    CarriesReached(wire, chunks, control, rest, MaxFrame, maxData, maxStream);
    ResultParses(client, rest, result, ok);
  }

  lemma BrokenOffConcluded(client: Client, wire: Bytes, maxData: nat, maxStream: nat)
    ensures Transferred(client, wire, maxData, maxStream) == Interrupted(false) <==> BrokenOff(client, wire, maxData, maxStream)
  {
    if Transferred(client, wire, maxData, maxStream) == Interrupted(false) {
      var chunks := ReachedCarries(wire, MaxFrame, maxData, maxStream, []);
      var reached := ReadData(wire, MaxFrame, maxData, maxStream, []);
      assert Carries(wire, chunks, reached.control, reached.rest, 1048576, maxData, maxStream);
    }
    forall chunks, control, rest |
      Carries(wire, chunks, control, rest, 1048576, maxData, maxStream) && client.envelope(control) == Reply(false)
      ensures Transferred(client, wire, maxData, maxStream) == Interrupted(false)
    {
      CarriesReached(wire, chunks, control, rest, MaxFrame, maxData, maxStream);
    }
  }

  /**
    Whatever anybody sends: the client delivers an artifact if and only if the bytes are some data,
    not empty and within the announced bounds, a terminator that names its length and its digest,
    one OK result, and nothing more; and the artifact is that data.
   */
  lemma DeliveredExactly(client: Client, wire: Bytes, maxData: nat, maxStream: nat, content: Bytes)
    ensures Concluded(client, Transferred(client, wire, maxData, maxStream)) == Delivered(content) <==>
            Produced(client, wire, maxData, maxStream, true, content)
  {
    if Concluded(client, Transferred(client, wire, maxData, maxStream)) == Delivered(content) {
      ConcludedProduced(client, wire, maxData, maxStream);
    }
    if Produced(client, wire, maxData, maxStream, true, content) {
      ProducedConcluded(client, wire, maxData, maxStream, true, content);
    }
  }

  /** It knows of a failure if and only if a failure result comes in the terminator's place, or alone behind it. */
  lemma RefusedExactly(client: Client, wire: Bytes, maxData: nat, maxStream: nat)
    ensures Concluded(client, Transferred(client, wire, maxData, maxStream)) == Refused <==>
            BrokenOff(client, wire, maxData, maxStream) || exists content :: Produced(client, wire, maxData, maxStream, false, content)
  {
    BrokenOffConcluded(client, wire, maxData, maxStream);
    var transfer := Transferred(client, wire, maxData, maxStream);
    if Concluded(client, transfer) == Refused && transfer.Verified? {
      ConcludedProduced(client, wire, maxData, maxStream);
    }
    forall content | Produced(client, wire, maxData, maxStream, false, content)
      ensures Concluded(client, transfer) == Refused
    {
      ProducedConcluded(client, wire, maxData, maxStream, false, content);
    }
  }
}
