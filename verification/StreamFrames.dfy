/**
  Bytes on the admin connection: length-prefixed frames whose top header bit marks
  artifact data, and the terminator that closes a stream with its length and digest.
 */
module StreamFrames {
  import opened Wrappers

  type Byte = b: int | 0 <= b < 256
  type Bytes = seq<Byte>

  const DataTag: nat := 0x8000_0000
  const MaxData: nat := 65536
  const MaxControl: nat := 1024
  const MaxFrame: nat := 1048576
  const MaxStream: nat := 1073741824

  // ----- Headers

  function Header(n: nat): Bytes
    requires n < 0x1_0000_0000
  {
    [n / 0x100_0000, n / 0x1_0000 % 0x100, n / 0x100 % 0x100, n % 0x100]
  }

  function Number(h: Bytes): nat
    requires |h| == 4
  {
    var a: int, b: int, c: int, d: int := h[0], h[1], h[2], h[3];
    ((a * 0x100 + b) * 0x100 + c) * 0x100 + d
  }

  lemma NumberOfHeader(n: nat)
    requires n < 0x1_0000_0000
    ensures Number(Header(n)) == n
  {
    assert n / 0x100 == n / 0x1_0000 * 0x100 + n / 0x100 % 0x100;
    assert n / 0x1_0000 == n / 0x100_0000 * 0x100 + n / 0x1_0000 % 0x100;
  }

  // ----- Frames

  datatype Frame = Data(payload: Bytes) | Control(payload: Bytes)

  /** What both writers put on the wire. */
  function Encode(f: Frame): Bytes
    requires |f.payload| < DataTag
  {
    Header(if f.Data? then DataTag + |f.payload| else |f.payload|) + f.payload
  }

  /** A frame both readers take: not empty and within the bound of its kind. */
  predicate Sized(f: Frame, controlMax: nat) {
    0 < |f.payload| <= if f.Data? then MaxData else controlMax
  }

  datatype Parsed = Complete(frame: Frame, rest: Bytes) | Cut | Oversized

  /** One frame off the front of the wire; `Cut` if the peer closed before it was complete. */
  function Parse(wire: Bytes, controlMax: nat): Parsed {
    if |wire| < 4 then Cut
    else
      var header := Number(wire[..4]);
      var size := header % DataTag;
      var data := header >= DataTag;
      if !(0 < size <= if data then MaxData else controlMax) then Oversized
      else if |wire| < 4 + size then Cut
      else
        var payload := wire[4..4 + size];
        Complete(if data then Data(payload) else Control(payload), wire[4 + size..])
  }

  /** Reading back a frame consumes exactly its bytes, whatever follows. */
  lemma ParseEncode(f: Frame, rest: Bytes, controlMax: nat)
    requires Sized(f, controlMax) && controlMax < DataTag
    ensures Parse(Encode(f) + rest, controlMax) == Complete(f, rest)
  {
    var n := if f.Data? then DataTag + |f.payload| else |f.payload|;
    NumberOfHeader(n);
    var wire := Encode(f) + rest;
    assert wire[..4] == Header(n);
    assert wire[4..4 + |f.payload|] == f.payload;
    assert wire[4 + |f.payload|..] == rest;
  }

  /** A frame cut short anywhere does not parse. */
  lemma ParsePartial(f: Frame, part: Bytes, controlMax: nat)
    requires Sized(f, controlMax) && controlMax < DataTag
    requires part <= Encode(f) && part != Encode(f)
    ensures Parse(part, controlMax) == Cut
  {
    var n := if f.Data? then DataTag + |f.payload| else |f.payload|;
    NumberOfHeader(n);
    if |part| >= 4 {
      assert part[..4] == Encode(f)[..4] == Header(n);
    }
  }

  lemma ParseProgress(wire: Bytes, controlMax: nat)
    ensures Parse(wire, controlMax).Complete? ==> |Parse(wire, controlMax).rest| < |wire|
  {
  }

  // ----- Streams of data

  function Flatten(chunks: seq<Bytes>): Bytes {
    if chunks == [] then [] else Flatten(chunks[..|chunks| - 1]) + chunks[|chunks| - 1]
  }

  predicate Chunked(chunks: seq<Bytes>) {
    forall i :: 0 <= i < |chunks| ==> 0 < |chunks[i]| <= MaxData
  }

  /** The data frames of a stream, in order. */
  function DataFrames(chunks: seq<Bytes>): Bytes
    requires Chunked(chunks)
  {
    if chunks == [] then []
    else DataFrames(chunks[..|chunks| - 1]) + Encode(Data(chunks[|chunks| - 1]))
  }

  lemma FlattenAppend(chunks: seq<Bytes>, c: Bytes)
    ensures Flatten(chunks + [c]) == Flatten(chunks) + c
  {
    assert (chunks + [c])[..|chunks|] == chunks;
  }

  lemma DataFramesAppend(chunks: seq<Bytes>, c: Bytes)
    requires Chunked(chunks) && 0 < |c| <= MaxData
    ensures Chunked(chunks + [c]) && DataFrames(chunks + [c]) == DataFrames(chunks) + Encode(Data(c))
  {
    assert (chunks + [c])[..|chunks|] == chunks;
  }

  /** The same streams, taken apart from the front. */
  lemma {:induction false} FlattenFront(chunks: seq<Bytes>)
    requires chunks != []
    ensures Flatten(chunks) == chunks[0] + Flatten(chunks[1..])
  {
    var n := |chunks| - 1;
    if n == 0 {
      assert chunks[..0] == [] && chunks[1..] == [];
    } else {
      var init, tail := chunks[..n], chunks[1..];
      FlattenFront(init);
      assert init[1..] == tail[..n - 1] && tail[n - 1] == chunks[n];
      Associative(chunks[0], Flatten(tail[..n - 1]), chunks[n]);
    }
  }

  lemma {:induction false} DataFramesFront(chunks: seq<Bytes>)
    requires Chunked(chunks) && chunks != []
    ensures DataFrames(chunks) == Encode(Data(chunks[0])) + DataFrames(chunks[1..])
  {
    var n := |chunks| - 1;
    if n == 0 {
      assert chunks[..0] == [] && chunks[1..] == [];
    } else {
      var init, tail := chunks[..n], chunks[1..];
      DataFramesFront(init);
      assert init[1..] == tail[..n - 1] && tail[n - 1] == chunks[n];
      Associative(Encode(Data(chunks[0])), DataFrames(tail[..n - 1]), Encode(Data(chunks[n])));
    }
  }

  lemma Associative(a: Bytes, b: Bytes, c: Bytes)
    ensures (a + b) + c == a + (b + c)
  {
  }

  // ----- Reading data up to the first control frame

  datatype Stream = Reached(content: Bytes, control: Bytes, rest: Bytes) | Stopped

  /** Both receivers' loop: collect data within the bounds until a control frame comes. */
  function ReadData(wire: Bytes, controlMax: nat, maxData: nat, limit: nat, file: Bytes): Stream
    decreases |wire|
  {
    match Parse(wire, controlMax)
    case Complete(Data(payload), rest) =>
      if |payload| > maxData || |file| + |payload| > limit then Stopped
      else ReadData(rest, controlMax, maxData, limit, file + payload)
    case Complete(Control(payload), rest) => Reached(file, payload, rest)
    case _ => Stopped
  }

  /** Data alone, cut anywhere, leads to no control frame. */
  lemma {:induction false} DataAlone(chunks: seq<Bytes>, wire: Bytes, controlMax: nat, maxData: nat, limit: nat, file: Bytes)
    requires Chunked(chunks) && wire <= DataFrames(chunks) && controlMax < DataTag
    ensures ReadData(wire, controlMax, maxData, limit, file) == Stopped
    decreases |chunks|
  {
    if chunks != [] {
      DataFramesFront(chunks);
      var first := Data(chunks[0]);
      if |wire| < |Encode(first)| {
        assert wire <= Encode(first);
        ParsePartial(first, wire, controlMax);
      } else {
        var rest := wire[|Encode(first)|..];
        assert wire == Encode(first) + rest;
        ParseEncode(first, rest, controlMax);
        assert rest <= DataFrames(chunks[1..]);
        DataAlone(chunks[1..], rest, controlMax, maxData, limit, file + chunks[0]);
      }
    }
  }

  predicate Within(chunks: seq<Bytes>, maxData: nat) {
    forall i :: 0 <= i < |chunks| ==> |chunks[i]| <= maxData
  }

  lemma FirstFrame(chunks: seq<Bytes>, after: Bytes, controlMax: nat)
    requires Chunked(chunks) && chunks != [] && controlMax < DataTag
    ensures Parse(DataFrames(chunks) + after, controlMax) == Complete(Data(chunks[0]), DataFrames(chunks[1..]) + after)
  {
    DataFramesFront(chunks);
    var first := Encode(Data(chunks[0]));
    assert DataFrames(chunks) + after == first + (DataFrames(chunks[1..]) + after);
    ParseEncode(Data(chunks[0]), DataFrames(chunks[1..]) + after, controlMax);
  }

  /** The reader's step over the first of several data frames. */
  lemma FirstData(chunks: seq<Bytes>, after: Bytes, controlMax: nat, maxData: nat, limit: nat, file: Bytes)
    requires Chunked(chunks) && chunks != [] && controlMax < DataTag
    ensures ReadData(DataFrames(chunks) + after, controlMax, maxData, limit, file)
         == if |chunks[0]| > maxData || |file| + |chunks[0]| > limit then Stopped
            else ReadData(DataFrames(chunks[1..]) + after, controlMax, maxData, limit, file + chunks[0])
  {
    FirstFrame(chunks, after, controlMax);
  }

  /** Data followed by a control frame: all of the data is collected, or a bound stops the reader. */
  lemma {:induction false} DataThenControl(chunks: seq<Bytes>, end: Bytes, rest: Bytes, controlMax: nat, maxData: nat, limit: nat, file: Bytes)
    requires Chunked(chunks) && 0 < |end| <= controlMax < DataTag && |file| <= limit
    ensures
      ReadData(DataFrames(chunks) + (Encode(Control(end)) + rest), controlMax, maxData, limit, file) ==
      if Within(chunks, maxData) && |file| + |Flatten(chunks)| <= limit
      then Reached(file + Flatten(chunks), end, rest) else Stopped
    decreases |chunks|
  {
    var after := Encode(Control(end)) + rest;
    if chunks == [] {
      assert DataFrames(chunks) + after == after && file + Flatten(chunks) == file;
      ParseEncode(Control(end), rest, controlMax);
    } else {
      var tail := chunks[1..];
      FirstData(chunks, after, controlMax, maxData, limit, file);
      FlattenFront(chunks);
      assert Within(chunks, maxData) <==> |chunks[0]| <= maxData && Within(tail, maxData) by {
        assert chunks == [chunks[0]] + tail;
      }
      if |chunks[0]| <= maxData && |file| + |chunks[0]| <= limit {
        DataThenControl(tail, end, rest, controlMax, maxData, limit, file + chunks[0]);
        assert file + chunks[0] + Flatten(tail) == file + Flatten(chunks);
      }
    }
  }

  /** Cutting data and control frame anywhere before the last byte hides the control frame. */
  lemma {:induction false} CutBeforeControl(chunks: seq<Bytes>, end: Bytes, wire: Bytes, controlMax: nat, maxData: nat, limit: nat, file: Bytes)
    requires Chunked(chunks) && 0 < |end| <= controlMax < DataTag
    requires wire < DataFrames(chunks) + Encode(Control(end))
    ensures ReadData(wire, controlMax, maxData, limit, file) == Stopped
    decreases |chunks|
  {
    if chunks == [] {
      assert wire <= Encode(Control(end));
      ParsePartial(Control(end), wire, controlMax);
    } else {
      DataFramesFront(chunks);
      var first := Data(chunks[0]);
      if |wire| < |Encode(first)| {
        assert wire <= Encode(first);
        ParsePartial(first, wire, controlMax);
      } else {
        var rest := wire[|Encode(first)|..];
        var tail := DataFrames(chunks[1..]) + Encode(Control(end));
        assert DataFrames(chunks) + Encode(Control(end)) == Encode(first) + tail;
        assert wire == Encode(first) + rest && rest < tail;
        ParseEncode(first, rest, controlMax);
        CutBeforeControl(chunks[1..], end, rest, controlMax, maxData, limit, file + chunks[0]);
      }
    }
  }

  // ----- The terminator

  /** A SHA-256 digest as both sides write it: 64 lower-case hexadecimal digits. */
  type Hex = s: string | |s| == 64 && HexDigits(s) witness seq(64, _ => '0')

  predicate HexDigits(s: string) {
    forall i :: 0 <= i < |s| ==> '0' <= s[i] <= '9' || 'a' <= s[i] <= 'f'
  }

  predicate Plain(s: string) {
    forall i :: 0 <= i < |s| ==> s[i] < 128 as char
  }

  function Ascii(s: string): (r: Bytes)
    requires Plain(s)
    ensures |r| == |s|
  {
    seq(|s|, i requires 0 <= i < |s| => s[i] as int)
  }

  datatype Summary = Summary(bytes: nat, sha256: Hex)

  function Digit(n: nat): char
    requires n < 10
  {
    '0' + n as char
  }

  function Decimal(n: nat): (s: string)
    ensures Plain(s)
  {
    if n < 10 then [Digit(n)] else Decimal(n / 10) + [Digit(n % 10)]
  }

  function Pow10(k: nat): nat {
    if k == 0 then 1 else 10 * Pow10(k - 1)
  }

  lemma {:induction false} DecimalLength(n: nat, k: nat)
    requires 0 < k && n < Pow10(k)
    ensures |Decimal(n)| <= k
    decreases k
  {
    if n >= 10 {
      DecimalLength(n / 10, k - 1);
    }
  }

  /** Go marshals the terminator with its keys sorted. */
  function EndByGo(s: Summary): Bytes {
    Ascii("{\"bytes\":") + Ascii(Decimal(s.bytes)) + Ascii(",\"sha256\":\"") + Ascii(s.sha256)
    + Ascii("\",\"type\":\"stream-end\"}")
  }

  /** Python keeps the order in which the keys were written. */
  function EndByPython(s: Summary): Bytes {
    Ascii("{\"type\":\"stream-end\",\"bytes\":") + Ascii(Decimal(s.bytes)) + Ascii(",\"sha256\":\"")
    + Ascii(s.sha256) + Ascii("\"}")
  }

  /** Either terminator fits into the bound for control frames inside a stream. */
  lemma EndFits(s: Summary)
    requires s.bytes <= MaxStream
    ensures 0 < |EndByGo(s)| <= MaxControl && 0 < |EndByPython(s)| <= MaxControl
  {
    assert Pow10(10) == 10000000000 by {
      assert Pow10(2) == 100;
      assert Pow10(4) == 10000;
      assert Pow10(6) == 1000000;
      assert Pow10(8) == 100000000;
    }
    DecimalLength(s.bytes, 10);
  }

  /**
    The parts that are not modelled further: SHA-256, and the JSON decoder's reading of a
    payload as a terminator (no answer for anything else).
   */
  datatype Codec = Codec(digest: Bytes -> Hex, decode: Bytes -> Option<Summary>)

  /** All that is asked of the decoder: it reads back what the two encoders write. */
  ghost predicate ReadsBack(codec: Codec) {
    forall s: Summary :: s.bytes <= MaxStream ==>
                           codec.decode(EndByGo(s)) == Some(s) && codec.decode(EndByPython(s)) == Some(s)
  }

  // ----- There is such a decoder

  lemma AsciiInjective(s: string, t: string)
    requires Plain(s) && Plain(t) && Ascii(s) == Ascii(t)
    ensures s == t
  {
    forall i | 0 <= i < |s|
      ensures s[i] == t[i]
    {
      assert Ascii(s)[i] == Ascii(t)[i];
    }
  }

  lemma {:induction false} DecimalInjective(m: nat, n: nat)
    requires Decimal(m) == Decimal(n)
    ensures m == n
    decreases m
  {
    var s := Decimal(m);
    assert s[|s| - 1] == Digit(m % 10) == Digit(n % 10);
    DecimalNotEmpty(m / 10);
    DecimalNotEmpty(n / 10);
    if m >= 10 && n >= 10 {
      assert s[..|s| - 1] == Decimal(m / 10) == Decimal(n / 10);
      DecimalInjective(m / 10, n / 10);
    }
  }

  lemma {:induction false} DecimalNotEmpty(n: nat)
    ensures |Decimal(n)| >= 1 && (n >= 10 ==> |Decimal(n)| >= 2)
  {
    if n >= 10 {
      DecimalNotEmpty(n / 10);
    }
  }

  /** Two fields of which the second has a fixed width can be told apart between the same texts. */
  lemma FieldsInjective(prefix: Bytes, a: Bytes, b: Bytes, middle: Bytes, x: Bytes, y: Bytes, suffix: Bytes)
    requires |x| == |y| && prefix + a + middle + x + suffix == prefix + b + middle + y + suffix
    ensures a == b && x == y
  {
    var u, v := prefix + a + middle + x + suffix, prefix + b + middle + y + suffix;
    assert |u| == |prefix| + |a| + |middle| + |x| + |suffix| && |v| == |prefix| + |b| + |middle| + |y| + |suffix|;
    assert u[|prefix|..|prefix| + |a|] == a && v[|prefix|..|prefix| + |b|] == b;
    var p := |prefix| + |a| + |middle|;
    assert u[p..p + |x|] == x && v[p..p + |y|] == y;
  }

  lemma SameSummary(s: Summary, t: Summary)
    requires Ascii(Decimal(s.bytes)) == Ascii(Decimal(t.bytes)) && Ascii(s.sha256) == Ascii(t.sha256)
    ensures s == t
  {
    AsciiInjective(Decimal(s.bytes), Decimal(t.bytes));
    AsciiInjective(s.sha256, t.sha256);
    DecimalInjective(s.bytes, t.bytes);
  }

  lemma GoEndsInjective(s: Summary, t: Summary)
    requires EndByGo(s) == EndByGo(t)
    ensures s == t
  {
    FieldsInjective(Ascii("{\"bytes\":"), Ascii(Decimal(s.bytes)), Ascii(Decimal(t.bytes)), Ascii(",\"sha256\":\""),
                    Ascii(s.sha256), Ascii(t.sha256), Ascii("\",\"type\":\"stream-end\"}"));
    SameSummary(s, t);
  }

  lemma PythonEndsInjective(s: Summary, t: Summary)
    requires EndByPython(s) == EndByPython(t)
    ensures s == t
  {
    FieldsInjective(Ascii("{\"type\":\"stream-end\",\"bytes\":"), Ascii(Decimal(s.bytes)), Ascii(Decimal(t.bytes)),
                    Ascii(",\"sha256\":\""), Ascii(s.sha256), Ascii(t.sha256), Ascii("\"}"));
    SameSummary(s, t);
  }

  /** No two streams have the same terminator, on either side. */
  lemma EndsInjective(s: Summary, t: Summary)
    ensures EndByGo(s) == EndByGo(t) ==> s == t
    ensures EndByPython(s) == EndByPython(t) ==> s == t
  {
    if EndByGo(s) == EndByGo(t) {
      GoEndsInjective(s, t);
    }
    if EndByPython(s) == EndByPython(t) {
      PythonEndsInjective(s, t);
    }
  }

  /** The first key's first letter. */
  lemma GoStarts(s: Summary)
    ensures |EndByGo(s)| > 2 && EndByGo(s)[2] == 'b' as int
  {
    assert EndByGo(s)[2] == Ascii("{\"bytes\":")[2];
  }

  lemma PythonStarts(s: Summary)
    ensures |EndByPython(s)| > 2 && EndByPython(s)[2] == 't' as int
  {
    assert EndByPython(s)[2] == Ascii("{\"type\":\"stream-end\",\"bytes\":")[2];
  }

  /** Nor does a terminator of one side look like one of the other. */
  lemma EndsDisjoint(s: Summary, t: Summary)
    ensures EndByGo(s) != EndByPython(t)
  {
    GoStarts(s);
    PythonStarts(t);
  }

  predicate EndsWith(b: Bytes, s: Summary) { b == EndByGo(s) || b == EndByPython(s) }

  lemma EndIsUnique(b: Bytes, s: Summary, t: Summary)
    requires EndsWith(b, s) && EndsWith(b, t)
    ensures s == t
  {
    EndsInjective(s, t);
    EndsDisjoint(s, t);
    EndsDisjoint(t, s);
  }

  /** A decoder that reads back both terminators exists, whatever the digest function. */
  lemma DecoderExists(digest: Bytes -> Hex) returns (codec: Codec)
    ensures codec.digest == digest && ReadsBack(codec)
  {
    ghost var decode := (b: Bytes) => if exists s: Summary :: EndsWith(b, s) then Some(var s: Summary :| EndsWith(b, s); s) else None;
    codec := Codec(digest, decode);
    forall s: Summary | s.bytes <= MaxStream
      ensures codec.decode(EndByGo(s)) == Some(s) && codec.decode(EndByPython(s)) == Some(s)
    {
      assert EndsWith(EndByGo(s), s) && EndsWith(EndByPython(s), s);
      EndIsUnique(EndByGo(s), s, codec.decode(EndByGo(s)).value);
      EndIsUnique(EndByPython(s), s, codec.decode(EndByPython(s)).value);
    }
  }

  function SummaryOf(codec: Codec, content: Bytes): Summary {
    Summary(|content|, codec.digest(content))
  }
}
