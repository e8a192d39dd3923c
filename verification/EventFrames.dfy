/**
 * Binary framing of application/vnd.amazon.eventstream: encoder as reference, decoder as the program
 * (proxy/eventstream.go).
 */
module EventFrames {
  import opened Common

  type byte = x: int | 0 <= x < 0x100
  type u32 = x: int | 0 <= x < 0x1_0000_0000

  /** A checksum; nothing below depends on which one it is. */
  type Checksum = seq<byte> -> u32

  const PRELUDE_SIZE := 12
  const MIN_FRAME := 16
  const MAX_FRAME := 16 * 1024 * 1024

  // --------------------------------------------------------------------- integers

  function Encode16(n: int): (r: seq<byte>)
    requires 0 <= n < 0x1_0000
    ensures |r| == 2
  {
    [n / 0x100, n % 0x100]
  }

  function Decode16(b: seq<byte>): (r: int)
    requires |b| == 2
    ensures 0 <= r < 0x1_0000
  {
    var high: int := b[0];
    high * 0x100 + b[1]
  }

  function Encode32(n: u32): (r: seq<byte>)
    ensures |r| == 4
  {
    Encode16(n / 0x1_0000) + Encode16(n % 0x1_0000)
  }

  function Decode32(b: seq<byte>): (r: u32)
    requires |b| == 4
  {
    Decode16(b[..2]) * 0x1_0000 + Decode16(b[2..])
  }

  lemma {:induction false} Inverse32(n: u32)
    ensures Decode32(Encode32(n)) == n
  {
    Inverse16(n / 0x1_0000, []);
    Inverse16(n % 0x1_0000, []);
    assert Encode32(n)[..2] == Encode16(n / 0x1_0000) && Encode32(n)[2..] == Encode16(n % 0x1_0000);
  }

  lemma {:induction false} Inverse16(n: int, b: seq<byte>)
    ensures 0 <= n < 0x1_0000 ==> Decode16(Encode16(n)) == n
    ensures |b| == 2 ==> Encode16(Decode16(b)) == b
  {
    if |b| == 2 {
      assert Encode16(Decode16(b))[0] == b[0] && Encode16(Decode16(b))[1] == b[1];
    }
  }

  /** Lengths and checksums are big-endian. */
  lemma {:induction false} BigEndian(b: seq<byte>)
    requires |b| == 4
    ensures var x: int, y: int, z: int := b[0], b[1], b[2];
      Decode32(b) == 0x100_0000 * x + 0x1_0000 * y + 0x100 * z + b[3]
  {
    assert b[..2][0] == b[0] && b[..2][1] == b[1] && b[2..][0] == b[2] && b[2..][1] == b[3];
  }

  // ---------------------------------------------------------------------- headers

  /** A header with one of the ten value types; raw is the value without its length prefix. */
  datatype Header = Header(name: seq<byte>, kind: byte, raw: seq<byte>)

  const BYTE_ARRAY: byte := 6
  const STRING: byte := 7

  predicate Variable(kind: byte) {
    kind == BYTE_ARRAY || kind == STRING
  }

  function Width(kind: byte): nat {
    match kind
    case 2 => 1
    case 3 => 2
    case 4 => 4
    case 5 => 8
    case 8 => 8
    case 9 => 16
    case _ => 0
  }

  predicate WellFormedHeader(h: Header) {
    && 1 <= |h.name| <= 255
    && h.kind <= 9
    && if Variable(h.kind) then |h.raw| < 0x1_0000 else |h.raw| == Width(h.kind)
  }

  predicate WellFormedHeaders(hs: seq<Header>) {
    forall i :: 0 <= i < |hs| ==> WellFormedHeader(hs[i])
  }

  function EncodeHeader(h: Header): seq<byte>
    requires WellFormedHeader(h)
  {
    [|h.name|] + h.name + [h.kind] + (if Variable(h.kind) then Encode16(|h.raw|) else []) + h.raw
  }

  function EncodeHeaders(hs: seq<Header>): seq<byte>
    requires WellFormedHeaders(hs)
  {
    if hs == [] then [] else EncodeHeader(hs[0]) + EncodeHeaders(hs[1..])
  }

  /** The header map the decoder keeps: string values only, a later one replacing an earlier one. */
  function StringHeaders(hs: seq<Header>): map<seq<byte>, seq<byte>> {
    if hs == [] then map[] else
      var m := StringHeaders(hs[..|hs| - 1]);
      var h := hs[|hs| - 1];
      if h.kind == STRING then m[h.name := h.raw] else m
  }

  /** The header with this name that counts is the last string one. */
  predicate LastString(hs: seq<Header>, name: seq<byte>, i: nat) {
    && i < |hs| && hs[i].kind == 7 && hs[i].name == name
    && forall j :: i < j < |hs| && hs[j].kind == 7 ==> hs[j].name != name
  }

  /** A name maps to the value of its last string header; headers of other types are read over. */
  lemma {:induction false} LastStringCounts(hs: seq<Header>, name: seq<byte>)
    ensures name in StringHeaders(hs) <==> exists i: nat :: LastString(hs, name, i)
    ensures forall i: nat :: LastString(hs, name, i) ==> StringHeaders(hs)[name] == hs[i].raw
  {
    if hs != [] {
      var init, last := hs[..|hs| - 1], hs[|hs| - 1];
      LastStringCounts(init, name);
      assert forall i: nat :: i < |init| ==> init[i] == hs[i];
      if last.kind == 7 && last.name == name {
        assert LastString(hs, name, |init|);
      } else {
        assert forall i: nat :: LastString(hs, name, i) <==> LastString(init, name, i);
      }
    }
  }

  /** How many bytes a value of each type takes, a length prefix included. */
  lemma {:induction false} HeaderSizes(h: Header)
    requires WellFormedHeader(h)
    ensures |EncodeHeader(h)| == 2 + |h.name|
      + if h.kind == 6 || h.kind == 7 then 2 + |h.raw|
        else if h.kind == 9 then 16
        else if h.kind == 5 || h.kind == 8 then 8
        else if h.kind == 4 then 4
        else if h.kind == 3 then 2
        else if h.kind == 2 then 1 else 0
  {
  }

  /** The first header of a block and its length, if the block starts with one. */
  function ParseHeader(d: seq<byte>): (r: Option<(Header, nat)>)
    requires d != []
    ensures r.Some? ==> 0 < r.value.1 <= |d|
  {
    var n := d[0];
    if n == 0 || 1 + n + 1 > |d| then None else
      var name := d[1..1 + n];
      var kind := d[1 + n];
      var at := n + 2;
      if kind > 9 then None
      else if Variable(kind) then
        if at + 2 > |d| then None else
          var size := Decode16(d[at..at + 2]);
          if at + 2 + size > |d| then None else Some((Header(name, kind, d[at + 2..at + 2 + size]), at + 2 + size))
      else if at + Width(kind) > |d| then None
      else Some((Header(name, kind, d[at..at + Width(kind)]), at + Width(kind)))
  }

  function ParseHeaders(d: seq<byte>): Option<seq<Header>>
    decreases |d|
  {
    if d == [] then Some([]) else
      match ParseHeader(d)
      case None => None
      case Some((h, n)) =>
        match ParseHeaders(d[n..])
        case None => None
        case Some(hs) => Some([h] + hs)
  }

  lemma {:induction false} ParseEncodedHeader(h: Header, rest: seq<byte>)
    requires WellFormedHeader(h)
    ensures ParseHeader(EncodeHeader(h) + rest) == Some((h, |EncodeHeader(h)|))
  {
    var d := EncodeHeader(h) + rest;
    var n := |h.name|;
    assert d[0] == n;
    assert d[1..1 + n] == h.name;
    assert d[1 + n] == h.kind;
    var at := n + 2;
    if Variable(h.kind) {
      assert d[at..at + 2] == Encode16(|h.raw|);
      Inverse16(|h.raw|, []);
      assert d[at + 2..at + 2 + |h.raw|] == h.raw;
    } else {
      assert d[at..at + |h.raw|] == h.raw;
    }
  }

  lemma {:induction false} ParseInvertsEncode(hs: seq<Header>)
    requires WellFormedHeaders(hs)
    ensures ParseHeaders(EncodeHeaders(hs)) == Some(hs)
  {
    if hs != [] {
      ParseEncodedHeader(hs[0], EncodeHeaders(hs[1..]));
      ParseInvertsEncode(hs[1..]);
      ParseStep(EncodeHeader(hs[0]), EncodeHeaders(hs[1..]), hs[0], hs[1..]);
      assert hs == [hs[0]] + hs[1..];
    }
  }

  lemma {:induction false} ParseStep(first: seq<byte>, rest: seq<byte>, h: Header, hs: seq<Header>)
    requires first != [] && ParseHeader(first + rest) == Some((h, |first|)) && ParseHeaders(rest) == Some(hs)
    ensures ParseHeaders(first + rest) == Some([h] + hs)
  {
    assert (first + rest)[|first|..] == rest;
  }

  lemma {:induction false} EncodeParsedHeader(d: seq<byte>)
    requires d != [] && ParseHeader(d).Some?
    ensures var (h, n) := ParseHeader(d).value; WellFormedHeader(h) && EncodeHeader(h) == d[..n]
  {
    var (h, n) := ParseHeader(d).value;
    var at := |h.name| + 2;
    if Variable(h.kind) {
      Inverse16(0, d[at..at + 2]);
      assert d[..n] == [d[0]] + d[1..1 + d[0]] + [d[1 + d[0]]] + d[at..at + 2] + d[at + 2..n];
    } else {
      assert d[..n] == [d[0]] + d[1..1 + d[0]] + [d[1 + d[0]]] + d[at..n];
    }
  }

  /** Whatever header block is accepted is the encoding of the headers it yields. */
  lemma {:induction false} EncodeInvertsParse(d: seq<byte>)
    requires ParseHeaders(d).Some?
    ensures WellFormedHeaders(ParseHeaders(d).value) && EncodeHeaders(ParseHeaders(d).value) == d
    decreases |d|
  {
    if d != [] {
      var (h, n) := ParseHeader(d).value;
      EncodeParsedHeader(d);
      EncodeInvertsParse(d[n..]);
      var hs := ParseHeaders(d[n..]).value;
      assert ([h] + hs)[1..] == hs;
      assert d == d[..n] + d[n..];
    }
  }

  // ----------------------------------------------------------------------- frames

  datatype Frame = Frame(headers: seq<Header>, payload: seq<byte>)

  predicate WellFormed(f: Frame) {
    WellFormedHeaders(f.headers) && MIN_FRAME + |EncodeHeaders(f.headers)| + |f.payload| <= MAX_FRAME
  }

  function EncodePrelude(crc: Checksum, total: u32, headersLength: u32): (r: seq<byte>)
    ensures |r| == PRELUDE_SIZE
  {
    var lengths := Encode32(total) + Encode32(headersLength);
    lengths + Encode32(crc(lengths))
  }

  function EncodeFrame(crc: Checksum, f: Frame): (r: seq<byte>)
    requires WellFormed(f)
    ensures |r| == MIN_FRAME + |EncodeHeaders(f.headers)| + |f.payload|
  {
    var hs := EncodeHeaders(f.headers);
    var body := EncodePrelude(crc, MIN_FRAME + |hs| + |f.payload|, |hs|) + hs + f.payload;
    body + Encode32(crc(body))
  }

  /** What the decoder hands on. */
  datatype Decoded = Decoded(headers: map<seq<byte>, seq<byte>>, payload: seq<byte>)

  function Content(f: Frame): Decoded {
    Decoded(StringHeaders(f.headers), f.payload)
  }

  datatype Fault = Truncated | InvalidLength | FrameTooLarge | PreludeMismatch | MessageMismatch | InvalidHeaders

  datatype ReadResult = Ok(frame: Decoded) | Eof | Failed(fault: Fault)

  /** Reading one frame from the remaining bytes: the result and how many bytes were taken. */
  function ReadFrame(crc: Checksum, d: seq<byte>): (r: (ReadResult, nat))
    ensures r.1 <= |d|
    ensures r.0.Ok? ==> r.1 >= MIN_FRAME
  {
    if d == [] then (Eof, 0)
    else if |d| < PRELUDE_SIZE then (Failed(Truncated), |d|)
    else
      var total := Decode32(d[0..4]);
      var headersLength := Decode32(d[4..8]);
      if total < MIN_FRAME then (Failed(InvalidLength), PRELUDE_SIZE)
      else if total > MAX_FRAME then (Failed(FrameTooLarge), PRELUDE_SIZE)
      else if headersLength > total - MIN_FRAME then (Failed(InvalidLength), PRELUDE_SIZE)
      else if crc(d[0..8]) != Decode32(d[8..12]) then (Failed(PreludeMismatch), PRELUDE_SIZE)
      else if |d| < total then (Failed(Truncated), |d|)
      else if crc(d[..total - 4]) != Decode32(d[total - 4..total]) then (Failed(MessageMismatch), total)
      else
        match ParseHeaders(d[PRELUDE_SIZE..PRELUDE_SIZE + headersLength])
        case None => (Failed(InvalidHeaders), total)
        case Some(hs) => (Ok(Decoded(StringHeaders(hs), d[PRELUDE_SIZE + headersLength..total - 4])), total)
  }

  /** The parts of an encoded frame, as the decoder slices them out of a longer stream. */
  predicate LaidOut(crc: Checksum, d: seq<byte>, hs: seq<byte>, payload: seq<byte>, total: u32) {
    && MIN_FRAME + |hs| + |payload| == total <= MAX_FRAME && total <= |d|
    && d[0..4] == Encode32(total) && d[4..8] == Encode32(|hs|)
    && d[8..12] == Encode32(crc(d[0..8]))
    && d[PRELUDE_SIZE..PRELUDE_SIZE + |hs|] == hs
    && d[PRELUDE_SIZE + |hs|..total - 4] == payload
    && d[total - 4..total] == Encode32(crc(d[..total - 4]))
  }

  lemma {:induction false} FrameLayout(crc: Checksum, f: Frame, rest: seq<byte>)
    requires WellFormed(f)
    ensures LaidOut(crc, EncodeFrame(crc, f) + rest, EncodeHeaders(f.headers), f.payload, |EncodeFrame(crc, f)|)
  {
    var hs := EncodeHeaders(f.headers);
    var total := |EncodeFrame(crc, f)|;
    var lengths := Encode32(total) + Encode32(|hs|);
    var prelude := EncodePrelude(crc, total, |hs|);
    var body := prelude + hs + f.payload;
    var d := EncodeFrame(crc, f) + rest;
    assert prelude == lengths + Encode32(crc(lengths));
    assert d == body + Encode32(crc(body)) + rest;
    assert d[0..8] == lengths;
    assert d[..total - 4] == body;
  }

  lemma {:induction false} ReadLaidOut(crc: Checksum, d: seq<byte>, hs: seq<byte>, headers: seq<Header>,
      payload: seq<byte>, total: u32)
    requires LaidOut(crc, d, hs, payload, total) && ParseHeaders(hs) == Some(headers)
    ensures ReadFrame(crc, d) == (Ok(Decoded(StringHeaders(headers), payload)), total)
  {
    Inverse32(total);
    Inverse32(|hs|);
    Inverse32(crc(d[0..8]));
    Inverse32(crc(d[..total - 4]));
  }

  /** Decoding inverts framing for one frame, and takes exactly its declared length. */
  lemma {:induction false} ReadInvertsEncode(crc: Checksum, f: Frame, rest: seq<byte>)
    requires WellFormed(f)
    ensures ReadFrame(crc, EncodeFrame(crc, f) + rest) == (Ok(Content(f)), |EncodeFrame(crc, f)|)
  {
    FrameLayout(crc, f, rest);
    ParseInvertsEncode(f.headers);
    ReadLaidOut(crc, EncodeFrame(crc, f) + rest, EncodeHeaders(f.headers), f.headers, f.payload, |EncodeFrame(crc, f)|);
  }

  lemma {:induction false} EncodeLaidOut(crc: Checksum, d: seq<byte>, f: Frame, total: u32)
    requires WellFormed(f) && LaidOut(crc, d, EncodeHeaders(f.headers), f.payload, total)
    ensures EncodeFrame(crc, f) == d[..total]
  {
    var hs := EncodeHeaders(f.headers);
    assert d[0..8] == d[0..4] + d[4..8];
    assert d[..PRELUDE_SIZE] == d[0..8] + d[8..12];
    assert d[..PRELUDE_SIZE] == EncodePrelude(crc, total, |hs|);
    assert d[..total - 4] == d[..PRELUDE_SIZE] + hs + f.payload;
    assert d[..total] == d[..total - 4] + d[total - 4..total];
  }

  /** What is accepted is laid out like an encoded frame. */
  lemma {:induction false} AcceptedIsLaidOut(crc: Checksum, d: seq<byte>)
    requires ReadFrame(crc, d).0.Ok?
    ensures var total := Decode32(d[0..4]);
      var n := Decode32(d[4..8]);
      && MIN_FRAME <= total <= |d| && n <= total - MIN_FRAME && ReadFrame(crc, d).1 == total
      && ParseHeaders(d[PRELUDE_SIZE..PRELUDE_SIZE + n]).Some?
      && ReadFrame(crc, d).0.frame
         == Decoded(StringHeaders(ParseHeaders(d[PRELUDE_SIZE..PRELUDE_SIZE + n]).value),
             d[PRELUDE_SIZE + n..total - 4])
      && LaidOut(crc, d, d[PRELUDE_SIZE..PRELUDE_SIZE + n], d[PRELUDE_SIZE + n..total - 4], total)
  {
    var total := Decode32(d[0..4]);
    Outverse32(d[0..4]);
    Outverse32(d[4..8]);
    Outverse32(d[8..12]);
    Outverse32(d[total - 4..total]);
  }

  /** Every accepted frame is the encoding of a well-formed frame with that content. */
  lemma {:induction false} AcceptedIsEncoded(crc: Checksum, d: seq<byte>) returns (f: Frame)
    requires ReadFrame(crc, d).0.Ok?
    ensures WellFormed(f) && Content(f) == ReadFrame(crc, d).0.frame
    ensures EncodeFrame(crc, f) == d[..ReadFrame(crc, d).1]
    ensures ReadFrame(crc, d).1 == Decode32(d[0..4])
  {
    AcceptedIsLaidOut(crc, d);
    var total := Decode32(d[0..4]);
    var n := Decode32(d[4..8]);
    var block := d[PRELUDE_SIZE..PRELUDE_SIZE + n];
    EncodeInvertsParse(block);
    f := Frame(ParseHeaders(block).value, d[PRELUDE_SIZE + n..total - 4]);
    EncodeLaidOut(crc, d, f, total);
  }

  lemma {:induction false} Outverse32(b: seq<byte>)
    requires |b| == 4
    ensures Encode32(Decode32(b)) == b
  {
    var high, low := Decode16(b[..2]), Decode16(b[2..]);
    Inverse16(0, b[..2]);
    Inverse16(0, b[2..]);
    assert (high * 0x1_0000 + low) / 0x1_0000 == high && (high * 0x1_0000 + low) % 0x1_0000 == low;
    assert b == b[..2] + b[2..];
  }

  /** What is wrong with a prelude, in the order in which it is checked, or with too few bytes behind it. */
  lemma {:induction false} PreludeFaults(crc: Checksum, total: u32, headersLength: u32, check: u32, rest: seq<byte>)
    ensures var lengths := Encode32(total) + Encode32(headersLength);
      var r := ReadFrame(crc, lengths + Encode32(check) + rest);
      && (total < 16 ==> r == (Failed(InvalidLength), 12))
      && (total > 16_777_216 ==> r == (Failed(FrameTooLarge), 12))
      && (16 <= total <= 16_777_216 && headersLength > total - 16 ==> r == (Failed(InvalidLength), 12))
      && (16 <= total <= 16_777_216 && headersLength <= total - 16 && check != crc(lengths) ==>
            r == (Failed(PreludeMismatch), 12))
      && (16 <= total <= 16_777_216 && headersLength <= total - 16 && check == crc(lengths) && 12 + |rest| < total ==>
            r == (Failed(Truncated), 12 + |rest|))
  {
    var lengths := Encode32(total) + Encode32(headersLength);
    var d := lengths + Encode32(check) + rest;
    assert d[0..4] == Encode32(total) && d[4..8] == Encode32(headersLength) && d[8..12] == Encode32(check);
    assert d[0..8] == lengths;
    Inverse32(total);
    Inverse32(headersLength);
    Inverse32(check);
  }

  /** A frame whose own checksum is off is refused after its declared length. */
  lemma {:induction false} WrongChecksum(crc: Checksum, f: Frame, check: u32, rest: seq<byte>)
    requires WellFormed(f)
    requires var total := |EncodeFrame(crc, f)|; check != crc(EncodeFrame(crc, f)[..total - 4])
    ensures var total := |EncodeFrame(crc, f)|;
      ReadFrame(crc, EncodeFrame(crc, f)[..total - 4] + Encode32(check) + rest) == (Failed(MessageMismatch), total)
  {
    var e := EncodeFrame(crc, f);
    var total := |e|;
    var d := e[..total - 4] + Encode32(check) + rest;
    FrameLayout(crc, f, []);
    assert e + [] == e;
    assert d[0..4] == e[0..4] && d[4..8] == e[4..8] && d[8..12] == e[8..12] && d[0..8] == e[0..8];
    assert d[..total - 4] == e[..total - 4] && d[total - 4..total] == Encode32(check);
    Mismatch(crc, d, total, |EncodeHeaders(f.headers)|, check);
  }

  lemma {:induction false} Mismatch(crc: Checksum, d: seq<byte>, total: u32, headersLength: u32, check: u32)
    requires MIN_FRAME <= total <= MAX_FRAME && total <= |d| && headersLength <= total - MIN_FRAME
    requires d[0..4] == Encode32(total) && d[4..8] == Encode32(headersLength) && d[8..12] == Encode32(crc(d[0..8]))
    requires d[total - 4..total] == Encode32(check) && check != crc(d[..total - 4])
    ensures ReadFrame(crc, d) == (Failed(MessageMismatch), total)
  {
    Inverse32(total);
    Inverse32(headersLength);
    Inverse32(crc(d[0..8]));
    Inverse32(check);
  }

  /** A frame in order but for its header block. */
  lemma {:induction false} WrongHeaders(crc: Checksum, d: seq<byte>, hs: seq<byte>, payload: seq<byte>, total: u32)
    requires LaidOut(crc, d, hs, payload, total) && ParseHeaders(hs).None?
    ensures ReadFrame(crc, d) == (Failed(InvalidHeaders), total)
  {
    Inverse32(total);
    Inverse32(|hs|);
    Inverse32(crc(d[0..8]));
    Inverse32(crc(d[..total - 4]));
  }

  /** A proper, non-empty prefix of an encoded frame is a truncation. */
  lemma {:induction false} CutFrameIsTruncated(crc: Checksum, f: Frame, k: nat)
    requires WellFormed(f) && 0 < k < |EncodeFrame(crc, f)|
    ensures ReadFrame(crc, EncodeFrame(crc, f)[..k]) == (Failed(Truncated), k)
  {
    var e := EncodeFrame(crc, f);
    FrameLayout(crc, f, []);
    assert e + [] == e;
    if k >= PRELUDE_SIZE {
      assert e[..k][0..4] == e[0..4] && e[..k][4..8] == e[4..8] && e[..k][8..12] == e[8..12] && e[..k][0..8] == e[0..8];
      Inverse32(|e|);
      Inverse32(|EncodeHeaders(f.headers)|);
      Inverse32(crc(e[0..8]));
    }
  }

  // ---------------------------------------------------------------------- streams

  /** All frames of a stream and how the stream ends. */
  function ReadAll(crc: Checksum, d: seq<byte>): (seq<Decoded>, ReadResult)
    decreases |d|
  {
    var (r, n) := ReadFrame(crc, d);
    if r.Ok? then
      var (more, end) := ReadAll(crc, d[n..]);
      ([r.frame] + more, end)
    else ([], r)
  }

  predicate AllWellFormed(fs: seq<Frame>) {
    forall i :: 0 <= i < |fs| ==> WellFormed(fs[i])
  }

  function EncodeAll(crc: Checksum, fs: seq<Frame>): seq<byte>
    requires AllWellFormed(fs)
  {
    if fs == [] then [] else EncodeFrame(crc, fs[0]) + EncodeAll(crc, fs[1..])
  }

  function Contents(fs: seq<Frame>): seq<Decoded> {
    if fs == [] then [] else [Content(fs[0])] + Contents(fs[1..])
  }

  /** Cutting after k bytes leaves j whole frames: they are decoded, then a clean end or a truncation. */
  ghost predicate CutAt(crc: Checksum, fs: seq<Frame>, k: nat, j: nat)
    requires AllWellFormed(fs) && k <= |EncodeAll(crc, fs)|
  {
    && j <= |fs|
    && |EncodeAll(crc, fs[..j])| <= k
    && (j < |fs| ==> k < |EncodeAll(crc, fs[..j + 1])|)
    && ReadAll(crc, EncodeAll(crc, fs)[..k])
       == (Contents(fs[..j]), if k == |EncodeAll(crc, fs[..j])| then Eof else Failed(Truncated))
  }

  lemma {:induction false} EncodePrefix(crc: Checksum, fs: seq<Frame>, j: nat)
    requires AllWellFormed(fs) && 0 < j <= |fs|
    ensures EncodeAll(crc, fs[..j]) == EncodeFrame(crc, fs[0]) + EncodeAll(crc, fs[1..][..j - 1])
    ensures Contents(fs[..j]) == [Content(fs[0])] + Contents(fs[1..][..j - 1])
  {
    assert fs[..j][0] == fs[0] && fs[..j][1..] == fs[1..][..j - 1];
  }

  lemma {:induction false} CutInFirst(crc: Checksum, fs: seq<Frame>, k: nat)
    requires AllWellFormed(fs) && fs != [] && k < |EncodeFrame(crc, fs[0])| && k <= |EncodeAll(crc, fs)|
    ensures CutAt(crc, fs, k, 0)
  {
    var e, rest := EncodeFrame(crc, fs[0]), EncodeAll(crc, fs[1..]);
    assert (e + rest)[..k] == e[..k];
    EncodePrefix(crc, fs, 1);
    if k > 0 {
      CutFrameIsTruncated(crc, fs[0], k);
    }
  }

  lemma {:induction false} ReadAllStep(crc: Checksum, f: Frame, tail: seq<byte>)
    requires WellFormed(f)
    ensures ReadAll(crc, EncodeFrame(crc, f) + tail) == ([Content(f)] + ReadAll(crc, tail).0, ReadAll(crc, tail).1)
  {
    var e := EncodeFrame(crc, f);
    ReadInvertsEncode(crc, f, tail);
    assert (e + tail)[|e|..] == tail;
  }

  lemma {:induction false} CutConcat(e: seq<byte>, rest: seq<byte>, k: nat)
    requires |e| <= k <= |e| + |rest|
    ensures (e + rest)[..k] == e + rest[..k - |e|]
  {
  }

  lemma {:induction false} CutReads(crc: Checksum, f: Frame, rest: seq<byte>, k: nat)
    requires WellFormed(f) && |EncodeFrame(crc, f)| <= k <= |EncodeFrame(crc, f)| + |rest|
    ensures var r := ReadAll(crc, rest[..k - |EncodeFrame(crc, f)|]);
      ReadAll(crc, (EncodeFrame(crc, f) + rest)[..k]) == ([Content(f)] + r.0, r.1)
  {
    CutConcat(EncodeFrame(crc, f), rest, k);
    ReadAllStep(crc, f, rest[..k - |EncodeFrame(crc, f)|]);
  }

  lemma {:induction false} CutAfterFirst(crc: Checksum, fs: seq<Frame>, k: nat, i: nat)
    requires AllWellFormed(fs) && fs != [] && |EncodeFrame(crc, fs[0])| <= k <= |EncodeAll(crc, fs)|
    requires CutAt(crc, fs[1..], k - |EncodeFrame(crc, fs[0])|, i)
    ensures CutAt(crc, fs, k, i + 1)
  {
    CutReads(crc, fs[0], EncodeAll(crc, fs[1..]), k);
    EncodePrefix(crc, fs, i + 1);
    if i + 1 < |fs| {
      EncodePrefix(crc, fs, i + 2);
    }
  }

  lemma {:induction false} CutEmpty(crc: Checksum, fs: seq<Frame>)
    requires fs == []
    ensures EncodeAll(crc, fs) == [] && CutAt(crc, fs, 0, 0)
  {
    assert fs[..0] == [];
    assert EncodeAll(crc, fs)[..0] == [];
  }

  lemma {:induction false} EncodeAllLength(crc: Checksum, fs: seq<Frame>)
    requires AllWellFormed(fs) && fs != []
    ensures |EncodeAll(crc, fs)| == |EncodeFrame(crc, fs[0])| + |EncodeAll(crc, fs[1..])|
  {
  }

  /**
   * Decoding inverts framing for whole streams cut anywhere: after j whole frames the decoder has yielded
   * exactly those, and it ends cleanly when the cut is a frame boundary and in a truncation otherwise.
   */
  lemma {:induction false} DecodingInvertsFraming(crc: Checksum, fs: seq<Frame>, k: nat) returns (j: nat)
    requires AllWellFormed(fs) && k <= |EncodeAll(crc, fs)|
    ensures CutAt(crc, fs, k, j)
  {
    if fs == [] {
      CutEmpty(crc, fs);
      j := 0;
    } else if k < |EncodeFrame(crc, fs[0])| {
      CutInFirst(crc, fs, k);
      j := 0;
    } else {
      var cut := k - |EncodeFrame(crc, fs[0])|;
      EncodeAllLength(crc, fs);
      var i := DecodingInvertsFraming(crc, fs[1..], cut);
      CutAfterFirst(crc, fs, k, i);
      j := i + 1;
    }
  }

  /** The uncut stream: every frame, in order, then a clean end. */
  lemma {:induction false} WholeStream(crc: Checksum, fs: seq<Frame>)
    requires AllWellFormed(fs)
    ensures ReadAll(crc, EncodeAll(crc, fs)) == (Contents(fs), Eof)
  {
    var d := EncodeAll(crc, fs);
    var j := DecodingInvertsFraming(crc, fs, |d|);
    assert d[..|d|] == d;
    if j < |fs| {
      PrefixShorter(crc, fs, j + 1);
    }
    assert fs[..|fs|] == fs;
  }

  lemma {:induction false} PrefixShorter(crc: Checksum, fs: seq<Frame>, j: nat)
    requires AllWellFormed(fs) && j <= |fs|
    ensures |EncodeAll(crc, fs[..j])| <= |EncodeAll(crc, fs)|
  {
    if j > 0 {
      PrefixShorter(crc, fs[1..], j - 1);
      assert fs[..j][0] == fs[0] && fs[..j][1..] == fs[1..][..j - 1];
    }
  }

  // ------------------------------------------------------------------- the reader

  class Reader {
    const data: seq<byte>
    var pos: nat

    ghost predicate Valid()
      reads this
    {
      pos <= |data|
    }

    constructor (data: seq<byte>)
      ensures Valid() && this.data == data && pos == 0
    {
      this.data := data;
      pos := 0;
    }

    /** Fills a buffer of n bytes, or takes what is left. */
    method ReadFull(n: nat) returns (buffer: seq<byte>)
      requires Valid()
      modifies this
      ensures Valid()
      ensures pos == Min(old(pos) + n, |data|) && buffer == data[old(pos)..pos]
    {
      var end := if pos + n <= |data| then pos + n else |data|;
      buffer := data[pos..end];
      pos := end;
    }

    method ReadEventStreamFrame(crc: Checksum) returns (r: ReadResult)
      requires Valid()
      modifies this
      ensures Valid()
      ensures (r, pos - old(pos)) == ReadFrame(crc, data[old(pos)..])
    {
      ghost var d := data[pos..];
      var prelude := ReadFull(PRELUDE_SIZE);
      if |prelude| < PRELUDE_SIZE {
        return if |prelude| == 0 then Eof else Failed(Truncated);
      }
      assert prelude == d[..PRELUDE_SIZE];
      assert prelude[0..4] == d[0..4] && prelude[4..8] == d[4..8] && prelude[8..12] == d[8..12]
          && prelude[0..8] == d[0..8];
      var total := Decode32(prelude[0..4]);
      var headersLength := Decode32(prelude[4..8]);
      if total < MIN_FRAME {
        return Failed(InvalidLength);
      }
      if total > MAX_FRAME {
        return Failed(FrameTooLarge);
      }
      if headersLength > total - MIN_FRAME {
        return Failed(InvalidLength);
      }
      if crc(prelude[0..8]) != Decode32(prelude[8..12]) {
        return Failed(PreludeMismatch);
      }
      r := ReadBody(crc, prelude, total, headersLength);
    }

    /** What follows a valid prelude: the rest of the frame, its checksum and its headers. */
    method ReadBody(crc: Checksum, prelude: seq<byte>, total: u32, headersLength: u32) returns (r: ReadResult)
      requires Valid() && PRELUDE_SIZE <= pos && prelude == data[pos - PRELUDE_SIZE..pos]
      requires MIN_FRAME <= total <= MAX_FRAME && headersLength <= total - MIN_FRAME
      requires Decode32(prelude[0..4]) == total && Decode32(prelude[4..8]) == headersLength
      requires crc(prelude[0..8]) == Decode32(prelude[8..12])
      modifies this
      ensures Valid()
      ensures (r, pos - old(pos) + PRELUDE_SIZE) == ReadFrame(crc, data[old(pos) - PRELUDE_SIZE..])
    {
      ghost var d := data[pos - PRELUDE_SIZE..];
      assert prelude == d[..PRELUDE_SIZE];
      assert prelude[0..4] == d[0..4] && prelude[4..8] == d[4..8] && prelude[8..12] == d[8..12]
          && prelude[0..8] == d[0..8];
      var remaining := ReadFull(total - PRELUDE_SIZE);
      if |remaining| < total - PRELUDE_SIZE {
        return Failed(Truncated);
      }
      var size := |remaining|;
      assert remaining == d[PRELUDE_SIZE..total];
      assert remaining[size - 4..] == d[total - 4..total];
      assert prelude + remaining[..size - 4] == d[..total - 4];
      if crc(prelude + remaining[..size - 4]) != Decode32(remaining[size - 4..]) {
        return Failed(MessageMismatch);
      }
      assert remaining[..headersLength] == d[PRELUDE_SIZE..PRELUDE_SIZE + headersLength];
      assert remaining[headersLength..size - 4] == d[PRELUDE_SIZE + headersLength..total - 4];
      var headers := ParseEventStreamHeaders(remaining[..headersLength]);
      if headers.None? {
        return Failed(InvalidHeaders);
      }
      r := Ok(Decoded(headers.value, remaining[headersLength..size - 4]));
    }
  }

  function Prepend(done: seq<Header>, rest: Option<seq<Header>>): Option<seq<Header>> {
    match rest
    case None => None
    case Some(hs) => Some(done + hs)
  }

  lemma {:induction false} ParsedNothing(data: seq<byte>, offset: nat, done: seq<Header>)
    requires offset < |data| && ParseHeader(data[offset..]).None?
    ensures Prepend(done, ParseHeaders(data[offset..])).None?
  {
  }

  lemma {:induction false} ParsedFurther(data: seq<byte>, offset: nat, done: seq<Header>, h: Header, n: nat)
    requires offset < |data| && ParseHeader(data[offset..]) == Some((h, n))
    ensures Prepend(done, ParseHeaders(data[offset..])) == Prepend(done + [h], ParseHeaders(data[offset + n..]))
  {
    var d := data[offset..];
    assert d[n..] == data[offset + n..];
    var rest := ParseHeaders(d[n..]);
    if rest.Some? {
      assert done + ([h] + rest.value) == done + [h] + rest.value;
    }
  }

  /** Reads the header that starts at offset: its fields and where the next one starts. */
  method ReadHeader(data: seq<byte>, offset: nat) returns (header: Option<(Header, nat)>)
    requires offset < |data|
    ensures header == ParseHeader(data[offset..])
  {
    ghost var d := data[offset..];
    var nameLength := data[offset];
    if nameLength == 0 || offset + 1 + nameLength + 1 > |data| {
      return None;
    }
    var name := data[offset + 1..offset + 1 + nameLength];
    var kind := data[offset + 1 + nameLength];
    var at := offset + nameLength + 2;
    assert d[1..1 + nameLength] == name && d[1 + nameLength] == kind;
    if kind > 9 {
      return None;
    }
    var end := at + Width(kind);
    if Variable(kind) {
      if at + 2 > |data| {
        return None;
      }
      assert d[nameLength + 2..nameLength + 4] == data[at..at + 2];
      at := at + 2;
      end := at + Decode16(data[at - 2..at]);
    }
    if end > |data| {
      return None;
    }
    ghost var raw := d[at - offset..end - offset];
    assert |raw| == end - at;
    assert forall i :: 0 <= i < |raw| ==> raw[i] == data[at + i];
    assert data[at..end] == raw;
    header := Some((Header(name, kind, data[at..end]), end - offset));
  }

  /** Walks a header block once; a string header's value is kept under its name. */
  method ParseEventStreamHeaders(data: seq<byte>) returns (headers: Option<map<seq<byte>, seq<byte>>>)
    ensures headers == match ParseHeaders(data) case None => None case Some(hs) => Some(StringHeaders(hs))
  {
    var m: map<seq<byte>, seq<byte>> := map[];
    ghost var done: seq<Header> := [];
    ghost var goal := ParseHeaders(data);
    var offset := 0;
    assert data[0..] == data;
    PrependNothing(goal);
    while offset < |data|
      invariant 0 <= offset <= |data|
      invariant m == StringHeaders(done)
      invariant goal == Prepend(done, ParseHeaders(data[offset..]))
    {
      var header := ReadHeader(data, offset);
      if header.None? {
        ParsedNothing(data, offset, done);
        return None;
      }
      var (h, n) := header.value;
      ParsedFurther(data, offset, done, h, n);
      StringHeadersAppend(done, h);
      if h.kind == STRING {
        m := m[h.name := h.raw];
      }
      done := done + [h];
      offset := offset + n;
    }
    ParsedAll(data, offset, done);
    headers := Some(m);
  }

  lemma {:induction false} PrependNothing(hs: Option<seq<Header>>)
    ensures Prepend([], hs) == hs
  {
    if hs.Some? {
      assert [] + hs.value == hs.value;
    }
  }

  lemma {:induction false} StringHeadersAppend(done: seq<Header>, h: Header)
    ensures StringHeaders(done + [h])
         == if h.kind == STRING then StringHeaders(done)[h.name := h.raw] else StringHeaders(done)
  {
    assert (done + [h])[..|done|] == done;
  }

  lemma {:induction false} ParsedAll(data: seq<byte>, offset: nat, done: seq<Header>)
    requires offset == |data|
    ensures Prepend(done, ParseHeaders(data[offset..])) == Some(done)
  {
    assert data[offset..] == [] && done + [] == done;
  }
}
