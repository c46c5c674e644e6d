/** The bytes of one message: a packed 16-byte header followed by the body.
    Both hosts are taken to be little-endian, as the program copies the header byte for byte. */
module Wire {
  type Byte = b: int | 0 <= b < 256
  type Bytes = seq<Byte>

  const U32_LIMIT: int := 0x1_0000_0000
  const U64_LIMIT: int := 0x1_0000_0000_0000_0000

  type U32 = x: int | 0 <= x < 0x1_0000_0000
  type U64 = x: int | 0 <= x < 0x1_0000_0000_0000_0000

  /** `io_header`: a field `pad0` is sent and echoed although no code reads it. */
  datatype IoHeader = IoHeader(callId: U32, pad0: U32, resultId: U64)

  /** What a reader makes of one message. */
  datatype Parsed = Malformed | Message(header: IoHeader, body: Bytes)

  const HEADER_SIZE: nat := 16

  /** The header the two-argument constructor builds. */
  function NewHeader(callId: U32, resultId: U64): IoHeader {
    IoHeader(callId, 0, resultId)
  }

  function Pow256(n: nat): (p: nat)
    ensures p > 0
  {
    if n == 0 then 1 else 256 * Pow256(n - 1)
  }

  function ToLittleEndian(x: nat, n: nat): (b: Bytes)
    ensures |b| == n
  {
    if n == 0 then [] else [x % 256] + ToLittleEndian(x / 256, n - 1)
  }

  function FromLittleEndian(b: Bytes): (x: nat)
    ensures x < Pow256(|b|)
  {
    if b == [] then 0 else b[0] + 256 * FromLittleEndian(b[1..])
  }

  lemma {:induction false} DecodeEncodeInteger(x: nat, n: nat)
    requires x < Pow256(n)
    ensures FromLittleEndian(ToLittleEndian(x, n)) == x
  {
    if n > 0 {
      assert x / 256 < Pow256(n - 1);
      DecodeEncodeInteger(x / 256, n - 1);
      assert ToLittleEndian(x, n)[1..] == ToLittleEndian(x / 256, n - 1);
    }
  }

  lemma LowAndHigh(low: Byte, high: nat)
    ensures (low + 256 * high) % 256 == low && (low + 256 * high) / 256 == high
  {
  }

  lemma {:induction false} EncodeDecodeInteger(b: Bytes)
    ensures ToLittleEndian(FromLittleEndian(b), |b|) == b
  {
    if b != [] {
      EncodeDecodeInteger(b[1..]);
      LowAndHigh(b[0], FromLittleEndian(b[1..]));
      assert [b[0]] + b[1..] == b;
    }
  }

  lemma PowersOfWidths()
    ensures Pow256(4) == U32_LIMIT && Pow256(8) == U64_LIMIT
  {
    assert Pow256(2) == 0x1_0000;
    assert Pow256(4) == 256 * (256 * Pow256(2));
    assert Pow256(6) == 256 * (256 * Pow256(4));
    assert Pow256(8) == 256 * (256 * Pow256(6));
  }

  function Pack(h: IoHeader): (b: Bytes)
    ensures |b| == HEADER_SIZE
  {
    ToLittleEndian(h.callId, 4) + ToLittleEndian(h.pad0, 4) + ToLittleEndian(h.resultId, 8)
  }

  function Unpack(b: Bytes): IoHeader
    requires |b| == HEADER_SIZE
  {
    PowersOfWidths();
    IoHeader(FromLittleEndian(b[..4]), FromLittleEndian(b[4..8]), FromLittleEndian(b[8..]))
  }

  /** The scatter-gather buffer sequence given to one `async_write`. */
  function Frame(h: IoHeader, body: Bytes): Bytes {
    Pack(h) + body
  }

  /** A reader refuses a message shorter than a header and otherwise splits at 16 bytes. */
  function Split(msg: Bytes): Parsed {
    if |msg| >= HEADER_SIZE
    then Message(Unpack(msg[..HEADER_SIZE]), msg[HEADER_SIZE..])
    else Malformed
  }

  lemma {:induction false} LittleEndianByte(x: nat, n: nat, i: nat)
    requires i < n
    ensures ToLittleEndian(x, n)[i] == x / Pow256(i) % 256
    decreases n
  {
    if i > 0 {
      assert ToLittleEndian(x, n)[i] == ToLittleEndian(x / 256, n - 1)[i - 1];
      LittleEndianByte(x / 256, n - 1, i - 1);
      DivideTwice(x, Pow256(i - 1));
    }
  }

  lemma DivideTwice(x: nat, m: nat)
    requires m > 0
    ensures x / 256 / m == x / (256 * m)
  {
    var q, r := x / 256 / m, x / 256 % m;
    assert x == 256 * (m * q + r) + x % 256;
    assert x == q * (256 * m) + (256 * r + x % 256);
    QuotientIs(x, 256 * m, q, 256 * r + x % 256);
  }

  lemma QuotientIs(x: nat, d: nat, q: nat, r: nat)
    requires x == q * d + r && r < d
    ensures x / d == q
  {
    var q' := x / d;
    assert x == q' * d + x % d;
    MoreIsMore(q, q', d);
    MoreIsMore(q', q, d);
  }

  lemma {:induction false} MoreIsMore(a: nat, b: nat, d: nat)
    ensures a < b ==> a * d + d <= b * d
    decreases b
  {
    if a < b {
      assert b * d == (b - 1) * d + d;
      MoreIsMore(a, b - 1, d);
    }
  }

  /** The bytes on the wire: the call id, the padding and the result id in this order, each with its low
      byte first, then the body. */
  lemma FrameLayout(h: IoHeader, body: Bytes, i: nat)
    requires i < HEADER_SIZE + |body|
    ensures |Frame(h, body)| == HEADER_SIZE + |body|
    ensures Frame(h, body)[i]
         == if i < 4 then h.callId / Pow256(i) % 256
            else if i < 8 then h.pad0 / Pow256(i - 4) % 256
            else if i < 16 then h.resultId / Pow256(i - 8) % 256
            else body[i - 16]
  {
    if i < 4 {
      LittleEndianByte(h.callId, 4, i);
    } else if i < 8 {
      LittleEndianByte(h.pad0, 4, i - 4);
    } else if i < 16 {
      LittleEndianByte(h.resultId, 8, i - 8);
    }
  }

  lemma UnpackPack(h: IoHeader)
    ensures Unpack(Pack(h)) == h
  {
    PowersOfWidths();
    var b := Pack(h);
    assert b[..4] == ToLittleEndian(h.callId, 4);
    assert b[4..8] == ToLittleEndian(h.pad0, 4);
    assert b[8..] == ToLittleEndian(h.resultId, 8);
    DecodeEncodeInteger(h.callId, 4);
    DecodeEncodeInteger(h.pad0, 4);
    DecodeEncodeInteger(h.resultId, 8);
  }

  lemma PackUnpack(b: Bytes)
    requires |b| == HEADER_SIZE
    ensures Pack(Unpack(b)) == b
  {
    EncodeDecodeInteger(b[..4]);
    EncodeDecodeInteger(b[4..8]);
    EncodeDecodeInteger(b[8..]);
    assert b == b[..4] + b[4..8] + b[8..];
  }

  /** Every header and body comes back from the bytes written for it. */
  lemma SplitFrame(h: IoHeader, body: Bytes)
    ensures Split(Frame(h, body)) == Message(h, body)
  {
    UnpackPack(h);
    var msg := Frame(h, body);
    assert msg[..HEADER_SIZE] == Pack(h) && msg[HEADER_SIZE..] == body;
  }

  /** Conversely a message a reader accepts is exactly the frame of what the reader sees in it,
      and a message is refused exactly when it is the frame of nothing. */
  lemma FrameSplit(msg: Bytes)
    ensures Split(msg).Message? ==> Frame(Split(msg).header, Split(msg).body) == msg
    ensures Split(msg).Malformed? <==> forall h, body :: Frame(h, body) != msg
  {
    if |msg| >= HEADER_SIZE {
      PackUnpack(msg[..HEADER_SIZE]);
      assert msg[..HEADER_SIZE] + msg[HEADER_SIZE..] == msg;
    }
  }
}
