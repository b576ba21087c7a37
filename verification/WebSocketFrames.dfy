/** ws.py: RFC 6455 frames on the wire (sections 5.2 and 5.3), written and read. */
module WebSocketFrames {
  import opened Vda5050

  type Byte = b: int | 0 <= b < 256

  type Key = k: seq<Byte> | |k| == 4 witness [0, 0, 0, 0]

  const CONT := 0
  const TEXT := 1
  const BINARY := 2
  const CLOSE := 8
  const PING := 9
  const PONG := 10

  const MAX_MESSAGE_BYTES := 4 * 1024 * 1024

  /** 2 to the power of 16 and of 64. */
  const TWO_TO_16 := 0x1_0000
  const TWO_TO_64 := 0x1_0000_0000_0000_0000

  // ---------------------------------------------------------------- masking

  /** Exclusive or of the low `bits` bits. */
  function XorBits(a: nat, b: nat, bits: nat): nat {
    if bits == 0 then 0 else 2 * XorBits(a / 2, b / 2, bits - 1) + (a % 2 + b % 2) % 2
  }

  function Power2(n: nat): nat { if n == 0 then 1 else 2 * Power2(n - 1) }

  lemma {:induction false} XorBound(a: nat, b: nat, bits: nat)
    ensures XorBits(a, b, bits) < Power2(bits)
  {
    if bits > 0 { XorBound(a / 2, b / 2, bits - 1); }
  }

  lemma LowBit(a: nat, b: nat, high: nat)
    ensures var low := (a % 2 + b % 2) % 2;
            (2 * high + low) / 2 == high && (2 * high + low) % 2 == low && (low + b % 2) % 2 == a % 2
  {
  }

  lemma {:induction false} XorTwice(a: nat, b: nat, bits: nat)
    requires a < Power2(bits)
    ensures XorBits(XorBits(a, b, bits), b, bits) == a
  {
    if bits > 0 {
      var high := XorBits(a / 2, b / 2, bits - 1);
      var x := XorBits(a, b, bits);
      XorTwice(a / 2, b / 2, bits - 1);
      LowBit(a, b, high);
      assert x / 2 == high && (x % 2 + b % 2) % 2 == a % 2;
    }
  }

  lemma Power8()
    ensures Power2(8) == 256
  {
    assert Power2(4) == 16;
  }

  function Xor(a: Byte, b: Byte): Byte {
    XorBound(a, b, 8);
    Power8();
    XorBits(a, b, 8)
  }

  function Masked(payload: seq<Byte>, key: Key): seq<Byte> {
    seq(|payload|, i requires 0 <= i < |payload| => Xor(payload[i], key[i % 4]))
  }

  lemma MaskedTwice(payload: seq<Byte>, key: Key)
    ensures Masked(Masked(payload, key), key) == payload
  {
    Power8();
    forall i | 0 <= i < |payload| ensures Xor(Xor(payload[i], key[i % 4]), key[i % 4]) == payload[i] {
      XorTwice(payload[i], key[i % 4], 8);
    }
  }

  // ----------------------------------------------------------------- lengths

  /** `size` bytes, most significant first. */
  function ToBig(n: nat, size: nat): (bytes: seq<Byte>)
    ensures |bytes| == size
  {
    if size == 0 then [] else ToBig(n / 256, size - 1) + [n % 256]
  }

  function FromBig(bytes: seq<Byte>): nat {
    if bytes == [] then 0 else 256 * FromBig(bytes[..|bytes| - 1]) + bytes[|bytes| - 1]
  }

  function Power256(n: nat): nat { if n == 0 then 1 else 256 * Power256(n - 1) }

  lemma {:induction false} BigRoundTrip(n: nat, size: nat)
    requires n < Power256(size)
    ensures FromBig(ToBig(n, size)) == n
  {
    if size > 0 {
      BigRoundTrip(n / 256, size - 1);
      assert ToBig(n, size)[..size - 1] == ToBig(n / 256, size - 1);
    }
  }

  lemma {:induction false} FromBigBound(bytes: seq<Byte>)
    ensures FromBig(bytes) < Power256(|bytes|)
  {
    if bytes != [] { FromBigBound(bytes[..|bytes| - 1]); }
  }

  lemma Powers()
    ensures Power256(2) == TWO_TO_16 && Power256(8) == TWO_TO_64
  {
    assert Power256(4) == 0x1_0000_0000;
  }

  // ---------------------------------------------------------------- writing

  /** The second header byte and the extended length. `|` with disjoint bits is addition. */
  function LengthBytes(masked: bool, length: nat): seq<Byte>
    requires length < TWO_TO_64
  {
    var bit := if masked then 0x80 else 0;
    if length < 126 then [bit + length]
    else if length < TWO_TO_16 then [bit + 126] + ToBig(length, 2)
    else [bit + 127] + ToBig(length, 8)
  }

  /** One frame; only a client masks its payload. */
  function Encode(masks: bool, fin: bool, opcode: nat, payload: seq<Byte>, key: Key): seq<Byte>
    requires opcode < 16 && |payload| < TWO_TO_64
  {
    [(if fin then 0x80 else 0) + opcode] + LengthBytes(masks, |payload|)
    + (if masks then key + Masked(payload, key) else payload)
  }

  // ---------------------------------------------------------------- reading

  datatype Frame = Frame(fin: bool, opcode: nat, payload: seq<Byte>)

  /** Reading a frame: a frame, a violation with its close code, or the end of the stream before
      or inside a frame. `rest` is what stays unread. */
  datatype Read =
    | Got(frame: Frame, rest: seq<Byte>)
    | Violation(why: string, code: nat, rest: seq<Byte>)
    | Dropped
    | Truncated

  function ReadPayload(masked: bool, fin: bool, opcode: nat, length: nat, input: seq<Byte>): Read {
    if !masked then
      if |input| < length then Truncated else Got(Frame(fin, opcode, input[..length]), input[length..])
    else if |input| < 4 + length then Truncated
    else Got(Frame(fin, opcode, Masked(input[4..4 + length], input[..4])), input[4 + length..])
  }

  function ReadBody(masks: bool, max: nat, masked: bool, fin: bool, opcode: nat, length: nat, input: seq<Byte>): Read {
    if length > max then Violation("frame too large", 1009, input)
    else if masks == masked then Violation("peer used the wrong masking mode", 1002, input)
    else ReadPayload(masked, fin, opcode, length, input)
  }

  /** `masks` and `max` are those of the reading side, whose peer masks exactly if it does not. */
  function Decode(masks: bool, max: nat, input: seq<Byte>): Read {
    if |input| < 2 then Dropped
    else
      var fin, reserved, opcode := input[0] / 128 == 1, input[0] / 16 % 8, input[0] % 16;
      var masked, short := input[1] / 128 == 1, input[1] % 128;
      var extra := if short == 126 then 2 else if short == 127 then 8 else 0;
      if reserved != 0 then Violation("RSV bits set without a negotiated extension", 1002, input[2..])
      else if opcode >= CLOSE && (!fin || short > 125) then
        Violation("fragmented or oversized control frame", 1002, input[2..])
      else if |input| < 2 + extra then Truncated
      else
        var length := if extra == 0 then short else FromBig(input[2..2 + extra]);
        ReadBody(masks, max, masked, fin, opcode, length, input[2 + extra..])
  }

  /** A frame takes at least its two header bytes, and a control frame stays small. */
  lemma DecodeGot(masks: bool, max: nat, input: seq<Byte>)
    ensures var read := Decode(masks, max, input);
            read.Got? ==>
              && |read.rest| + 2 <= |input| && read.frame.opcode < 16 && |read.frame.payload| <= max
              && (read.frame.opcode >= CLOSE ==> read.frame.fin && |read.frame.payload| <= 125)
    ensures var read := Decode(masks, max, input);
            read.Violation? ==> read.code == 1002 || read.code == 1009
  {
  }

  // -------------------------------------------------------------- round trip

  lemma PayloadRoundTrip(masked: bool, fin: bool, opcode: nat, payload: seq<Byte>, key: Key, suffix: seq<Byte>)
    ensures ReadPayload(masked, fin, opcode, |payload|,
                        (if masked then key + Masked(payload, key) else payload) + suffix)
         == Got(Frame(fin, opcode, payload), suffix)
  {
    if masked {
      var input := key + Masked(payload, key) + suffix;
      assert input[..4] == key;
      assert input[4..4 + |payload|] == Masked(payload, key);
      assert input[4 + |payload|..] == suffix;
      MaskedTwice(payload, key);
    } else {
      assert (payload + suffix)[..|payload|] == payload && (payload + suffix)[|payload|..] == suffix;
    }
  }

  /** The header of an encoded frame says what was put in. */
  lemma HeaderRoundTrip(masks: bool, length: nat, tail: seq<Byte>)
    requires length < TWO_TO_64
    ensures var bytes := LengthBytes(masks, length);
            var short := bytes[0] % 128;
            var extra := if short == 126 then 2 else if short == 127 then 8 else 0;
            && (bytes[0] / 128 == 1 <==> masks)
            && |bytes| == 1 + extra
            && (short > 125 <==> length > 125)
            && (if extra == 0 then short else FromBig((bytes + tail)[1..1 + extra])) == length
  {
    Powers();
    var bytes := LengthBytes(masks, length);
    if length >= TWO_TO_16 {
      BigRoundTrip(length, 8);
      assert (bytes + tail)[1..9] == ToBig(length, 8);
    } else if length >= 126 {
      BigRoundTrip(length, 2);
      assert (bytes + tail)[1..3] == ToBig(length, 2);
    }
  }

  /** Where the parts of an encoded frame lie. */
  lemma EncodedParts(masks: bool, fin: bool, opcode: nat, payload: seq<Byte>, key: Key, suffix: seq<Byte>)
    requires opcode < 16 && |payload| < TWO_TO_64
    ensures var input := Encode(masks, fin, opcode, payload, key) + suffix;
            var body := (if masks then key + Masked(payload, key) else payload) + suffix;
            var bytes := LengthBytes(masks, |payload|);
            && |input| >= 1 + |bytes| && input[0] == (if fin then 0x80 else 0) + opcode && input[1] == bytes[0]
            && (forall n | 1 <= n <= |bytes| :: input[2..1 + n] == (bytes + body)[1..n])
            && input[1 + |bytes|..] == body
  {
    var input := Encode(masks, fin, opcode, payload, key) + suffix;
    var body := (if masks then key + Masked(payload, key) else payload) + suffix;
    assert input == [(if fin then 0x80 else 0) + opcode] + (LengthBytes(masks, |payload|) + body);
  }

  lemma DecodeEncoded(masks: bool, max: nat, fin: bool, opcode: nat, payload: seq<Byte>, key: Key, suffix: seq<Byte>)
    requires opcode < 16 && |payload| < TWO_TO_64
    ensures Decode(!masks, max, Encode(masks, fin, opcode, payload, key) + suffix)
         == (var body := (if masks then key + Masked(payload, key) else payload) + suffix;
             var input := Encode(masks, fin, opcode, payload, key) + suffix;
             if opcode >= CLOSE && (!fin || |payload| > 125)
             then Violation("fragmented or oversized control frame", 1002, input[2..])
             else ReadBody(!masks, max, masks, fin, opcode, |payload|, body))
  {
    var body := (if masks then key + Masked(payload, key) else payload) + suffix;
    EncodedParts(masks, fin, opcode, payload, key, suffix);
    HeaderRoundTrip(masks, |payload|, body);
  }

  /** What one side sends the other side reads back: the same frame, and exactly the bytes that
      follow it are left. It is refused exactly when a control frame is oversized or fragmented, or
      the payload exceeds the reader's limit. */
  lemma CodecRoundTrip(masks: bool, max: nat, fin: bool, opcode: nat, payload: seq<Byte>, key: Key, suffix: seq<Byte>)
    requires opcode < 16 && |payload| < TWO_TO_64
    ensures var read := Decode(!masks, max, Encode(masks, fin, opcode, payload, key) + suffix);
            if opcode >= CLOSE && (!fin || |payload| > 125) then read.Violation? && read.code == 1002
            else if |payload| > max then read.Violation? && read.code == 1009
            else read == Got(Frame(fin, opcode, payload), suffix)
  {
    DecodeEncoded(masks, max, fin, opcode, payload, key, suffix);
    PayloadRoundTrip(masks, fin, opcode, payload, key, suffix);
  }

  // ------------------------------------------------------------- on the wire

  /** Bit `k`, counted from the lowest. */
  function Bit(n: nat, k: nat): nat { if k == 0 then n % 2 else Bit(n / 2, k - 1) }

  lemma {:induction false} XorBitAt(a: nat, b: nat, bits: nat, k: nat)
    requires k < bits
    ensures Bit(XorBits(a, b, bits), k) == 1 <==> Bit(a, k) != Bit(b, k)
  {
    LowBit(a, b, XorBits(a / 2, b / 2, bits - 1));
    if k > 0 { XorBitAt(a / 2, b / 2, bits - 1, k - 1); }
  }

  /** Masking is exclusive or, bit by bit. */
  lemma XorIsBitwise(a: Byte, b: Byte, k: nat)
    requires k < 8
    ensures Bit(Xor(a, b), k) == 1 <==> Bit(a, k) != Bit(b, k)
  {
    XorBitAt(a, b, 8, k);
  }

  /** The value of bytes in network order: the first one counts most. */
  function BigEndian(bytes: seq<Byte>): nat {
    if bytes == [] then 0 else bytes[0] * Power256(|bytes| - 1) + BigEndian(bytes[1..])
  }

  lemma {:induction false} BigEndianEnds(bytes: seq<Byte>)
    requires bytes != []
    ensures BigEndian(bytes) == 256 * BigEndian(bytes[..|bytes| - 1]) + bytes[|bytes| - 1]
  {
    if |bytes| == 1 {
      assert bytes[1..] == [] && bytes[..0] == [];
    } else {
      var rest, init := bytes[1..], bytes[..|bytes| - 1];
      BigEndianEnds(rest);
      assert rest[..|rest| - 1] == init[1..];
      BigEndianStep(bytes[0], |bytes| - 1);
    }
  }

  lemma BigEndianStep(first: nat, n: nat)
    requires n >= 1
    ensures first * Power256(n) == 256 * (first * Power256(n - 1))
  {
  }

  lemma {:induction false} FromBigIsBigEndian(bytes: seq<Byte>)
    ensures FromBig(bytes) == BigEndian(bytes)
  {
    if bytes != [] {
      FromBigIsBigEndian(bytes[..|bytes| - 1]);
      BigEndianEnds(bytes);
    }
  }

  /** `extra` bytes of extended length are the way to write `length`, announced by `short`. */
  ghost predicate Announces(short: nat, extra: nat, field: seq<Byte>, length: nat) {
    match short
    case 126 => extra == 2 && |field| == 2 && BigEndian(field) == length
    case 127 => extra == 8 && |field| == 8 && BigEndian(field) == length
    case _ => extra == 0 && short < 126 && short == length
  }

  /** The length and the position of the body, as the first bytes give them. */
  ghost predicate Header(input: seq<Byte>, fin: bool, opcode: nat, masked: bool, extra: nat, length: nat) {
    && |input| >= 2 + extra && opcode < 16
    && input[0] == (if fin then 128 else 0) + opcode
    && (input[1] >= 128 <==> masked)
    && Announces(input[1] % 128, extra, input[2..2 + extra], length)
  }

  /** The payload follows the key it is masked with, octet by octet, or stands as it is. */
  ghost predicate Carries(body: seq<Byte>, masked: bool, key: Key, payload: seq<Byte>) {
    if masked then
      && |body| == 4 + |payload| && body[..4] == key
      && forall i | 0 <= i < |payload| :: payload[i] == Xor(body[4 + i], body[i % 4])
    else body == payload
  }

  /** Section 5.2 of RFC 6455: `wire` is one frame, with `extra` bytes of extended length. */
  ghost predicate FrameOf(wire: seq<Byte>, f: Frame, masked: bool, key: Key, extra: nat) {
    && Header(wire, f.fin, f.opcode, masked, extra, |f.payload|)
    && Carries(wire[2 + extra..], masked, key, f.payload)
  }

  /** The shortest of the three ways to write a length. */
  function Shortest(length: nat): nat { if length <= 125 then 0 else if length <= 65535 then 2 else 8 }

  lemma MaskedCarries(masks: bool, key: Key, payload: seq<Byte>)
    ensures Carries(if masks then key + Masked(payload, key) else payload, masks, key, payload)
  {
    if masks {
      var body := key + Masked(payload, key);
      forall i | 0 <= i < |payload| ensures payload[i] == Xor(body[4 + i], body[i % 4]) {
        Power8();
        XorTwice(payload[i], key[i % 4], 8);
        assert body[4 + i] == Xor(payload[i], key[i % 4]);
      }
    }
  }

  lemma LengthAnnounced(masks: bool, length: nat)
    requires length < TWO_TO_64
    ensures var bytes := LengthBytes(masks, length);
            && |bytes| == 1 + Shortest(length) && (bytes[0] >= 128 <==> masks)
            && Announces(bytes[0] % 128, Shortest(length), bytes[1..], length)
  {
    var bytes := LengthBytes(masks, length);
    Powers();
    if length >= TWO_TO_16 {
      BigRoundTrip(length, 8);
      FromBigIsBigEndian(bytes[1..]);
      assert bytes[1..] == ToBig(length, 8);
    } else if length >= 126 {
      BigRoundTrip(length, 2);
      FromBigIsBigEndian(bytes[1..]);
      assert bytes[1..] == ToBig(length, 2);
    }
  }

  /** What a sender puts on the wire is the frame in the format of section 5.2, with the shortest
      extended length. */
  lemma SentInFormat(masks: bool, f: Frame, key: Key)
    requires f.opcode < 16 && |f.payload| < TWO_TO_64
    ensures FrameOf(Encode(masks, f.fin, f.opcode, f.payload, key), f, masks, key, Shortest(|f.payload|))
  {
    var wire, bytes := Encode(masks, f.fin, f.opcode, f.payload, key), LengthBytes(masks, |f.payload|);
    var body := if masks then key + Masked(f.payload, key) else f.payload;
    LengthAnnounced(masks, |f.payload|);
    MaskedCarries(masks, key, f.payload);
    assert wire == [(if f.fin then 0x80 else 0) + f.opcode] + bytes + body;
    assert wire[1] == bytes[0] && wire[2..1 + |bytes|] == bytes[1..] && wire[1 + |bytes|..] == body;
  }

  lemma CarriesMasked(masked: bool, key: Key, body: seq<Byte>, payload: seq<Byte>)
    requires Carries(body, masked, key, payload)
    ensures masked ==> body == key + body[4..] && Masked(body[4..], key) == payload
  {
  }

  lemma ReadCarried(masked: bool, fin: bool, opcode: nat, key: Key, body: seq<Byte>, payload: seq<Byte>,
                    rest: seq<Byte>)
    requires Carries(body, masked, key, payload)
    ensures ReadPayload(masked, fin, opcode, |payload|, body + rest) == Got(Frame(fin, opcode, payload), rest)
  {
    var input, length := body + rest, |payload|;
    if masked {
      CarriesMasked(masked, key, body, payload);
      assert input[4..4 + length] == body[4..] && input[..4] == key && input[4 + length..] == rest;
    } else {
      assert input[..length] == payload && input[length..] == rest;
    }
  }

  lemma CarriedRead(masked: bool, fin: bool, opcode: nat, length: nat, input: seq<Byte>) returns (key: Key)
    requires ReadPayload(masked, fin, opcode, length, input).Got?
    ensures var read := ReadPayload(masked, fin, opcode, length, input);
            && |read.frame.payload| == length && |read.rest| <= |input|
            && read.frame.fin == fin && read.frame.opcode == opcode
            && read.rest == input[|input| - |read.rest|..]
            && Carries(input[..|input| - |read.rest|], masked, key, read.frame.payload)
  {
    var read := ReadPayload(masked, fin, opcode, length, input);
    if masked {
      key := input[..4];
      var body := input[..4 + length];
      assert body[..4] == key && body == input[..|input| - |read.rest|];
      forall i | 0 <= i < length ensures read.frame.payload[i] == Xor(body[4 + i], body[i % 4]) {}
    } else {
      key := [0, 0, 0, 0];
    }
  }

  /** The reader refuses nothing else: what the frame says and its size decide. */
  ghost predicate Welcome(f: Frame, extra: nat, max: nat) {
    && |f.payload| <= max
    && (f.opcode >= 8 ==> f.fin && extra == 0)
  }

  lemma FirstByte(b: Byte, fin: bool, opcode: nat)
    ensures opcode < 16 && b == (if fin then 128 else 0) + opcode <==>
            (b / 128 == 1 <==> fin) && b / 16 % 8 == 0 && b % 16 == opcode
  {
  }

  lemma SecondByte(b: Byte)
    ensures b / 128 == 1 <==> b >= 128
    ensures b % 128 < 128
  {
  }

  lemma HeaderIsRead(masks: bool, max: nat, input: seq<Byte>,
                     fin: bool, opcode: nat, masked: bool, extra: nat, length: nat)
    requires Header(input, fin, opcode, masked, extra, length) && (opcode >= 8 ==> fin && extra == 0)
    ensures Decode(masks, max, input) == ReadBody(masks, max, masked, fin, opcode, length, input[2 + extra..])
  {
    FirstByte(input[0], fin, opcode);
    SecondByte(input[1]);
    if extra > 0 { FromBigIsBigEndian(input[2..2 + extra]); }
    assert extra == if input[1] % 128 == 126 then 2 else if input[1] % 128 == 127 then 8 else 0;
  }

  lemma ReadHeader(masks: bool, max: nat, input: seq<Byte>)
    returns (fin: bool, opcode: nat, extra: nat, length: nat)
    requires Decode(masks, max, input).Got?
    ensures Header(input, fin, opcode, !masks, extra, length) && (opcode >= 8 ==> fin && extra == 0) && length <= max
    ensures Decode(masks, max, input) == ReadPayload(!masks, fin, opcode, length, input[2 + extra..])
  {
    fin, opcode := input[0] / 128 == 1, input[0] % 16;
    FirstByte(input[0], fin, opcode);
    SecondByte(input[1]);
    var short := input[1] % 128;
    extra := if short == 126 then 2 else if short == 127 then 8 else 0;
    FromBigIsBigEndian(input[2..2 + extra]);
    length := if extra == 0 then short else FromBig(input[2..2 + extra]);
  }

  lemma FormatIsRead(masks: bool, max: nat, wire: seq<Byte>, f: Frame, key: Key, extra: nat, rest: seq<Byte>)
    requires FrameOf(wire, f, !masks, key, extra) && Welcome(f, extra, max)
    ensures Decode(masks, max, wire + rest) == Got(f, rest)
  {
    var input := wire + rest;
    assert input[2..2 + extra] == wire[2..2 + extra] && input[2 + extra..] == wire[2 + extra..] + rest;
    HeaderIsRead(masks, max, input, f.fin, f.opcode, !masks, extra, |f.payload|);
    ReadCarried(!masks, f.fin, f.opcode, key, wire[2 + extra..], f.payload, rest);
  }

  /** Cutting off what is left over leaves the header and the body. */
  lemma CutParts(input: seq<Byte>, extra: nat, left: nat)
    requires 2 + extra + left <= |input|
    ensures var wire := input[..|input| - left];
            && wire[0] == input[0] && wire[1] == input[1] && wire[2..2 + extra] == input[2..2 + extra]
            && wire[2 + extra..] == input[2 + extra..][..|input| - 2 - extra - left]
            && input[2 + extra..][|input| - 2 - extra - left..] == input[|input| - left..]
            && input == wire + input[|input| - left..]
  {
  }

  lemma ReadIsFormat(masks: bool, max: nat, input: seq<Byte>) returns (wire: seq<Byte>, key: Key, extra: nat)
    requires Decode(masks, max, input).Got?
    ensures var read := Decode(masks, max, input);
            && input == wire + read.rest
            && FrameOf(wire, read.frame, !masks, key, extra) && Welcome(read.frame, extra, max)
  {
    var fin, opcode, length;
    fin, opcode, extra, length := ReadHeader(masks, max, input);
    key := CarriedRead(!masks, fin, opcode, length, input[2 + extra..]);
    var left := |ReadPayload(!masks, fin, opcode, length, input[2 + extra..]).rest|;
    CutParts(input, extra, left);
    wire := input[..|input| - left];
  }

  /** `input` is one frame that is welcome, in the format of section 5.2, and `rest`. */
  ghost predicate BeginsWith(input: seq<Byte>, wire: seq<Byte>, f: Frame, masked: bool, key: Key, extra: nat,
                             max: nat, rest: seq<Byte>) {
    input == wire + rest && FrameOf(wire, f, masked, key, extra) && Welcome(f, extra, max)
  }

  /** A frame is read exactly where the input begins with one in the format of section 5.2 with the
      mask bit of the peer's role, no longer than the limit, whole and short if it is a control frame;
      a length may be written longer than necessary. */
  lemma ReadsExactly(masked: bool, max: nat, input: seq<Byte>, f: Frame, rest: seq<Byte>)
    ensures Decode(!masked, max, input) == Got(f, rest) <==>
            exists wire, key, extra :: BeginsWith(input, wire, f, masked, key, extra, max, rest)
  {
    if Decode(!masked, max, input) == Got(f, rest) {
      var wire, key, extra := ReadIsFormat(!masked, max, input);
      assert BeginsWith(input, wire, f, masked, key, extra, max, rest);
    }
    if wire, key, extra :| BeginsWith(input, wire, f, masked, key, extra, max, rest) {
      FormatIsRead(!masked, max, wire, f, key, extra, rest);
    }
  }

  /** No shorter string of bytes is read as the same frame. */
  lemma SentIsShortest(masks: bool, max: nat, f: Frame, key: Key, input: seq<Byte>, rest: seq<Byte>)
    requires f.opcode < 16 && |f.payload| < TWO_TO_64
    requires Decode(!masks, max, input) == Got(f, rest)
    ensures |Encode(masks, f.fin, f.opcode, f.payload, key)| + |rest| <= |input|
  {
    var wire, k, extra := ReadIsFormat(!masks, max, input);
    SentInFormat(masks, f, key);
    Powers();
    FromBigIsBigEndian(wire[2..2 + extra]);
    FromBigBound(wire[2..2 + extra]);
  }

  /** The first bytes announce what the peer must not send: a reserved bit, or a control frame that is
      in parts or has an extended length. */
  predicate Illegal(first: Byte, second: Byte) {
    first % 128 >= 16 || (first % 16 >= 8 && (first < 128 || second % 128 >= 126))
  }

  /** Why a frame is not read: the stream ends before it or inside it, or it is refused with 1002 for
      its first bytes, 1009 for its length, 1002 for its mask bit, in this order. */
  lemma RefusesExactly(masks: bool, max: nat, input: seq<Byte>)
    ensures var read := Decode(masks, max, input);
            var short := if |input| >= 2 then input[1] % 128 else 0;
            var extra := if short == 126 then 2 else if short == 127 then 8 else 0;
            var length := if |input| < 2 + extra then 0
                          else if extra == 0 then short else BigEndian(input[2..2 + extra]);
            var masked := |input| >= 2 && input[1] >= 128;
            var body := length + if masked then 4 else 0;
            && (read.Dropped? <==> |input| < 2)
            && (read.Violation? <==>
                  && |input| >= 2
                  && (Illegal(input[0], input[1]) || (|input| >= 2 + extra && (length > max || masked == masks))))
            && (read.Violation? ==>
                  && (read.code == 1009 <==> !Illegal(input[0], input[1]) && length > max)
                  && (read.code == 1002 <==> Illegal(input[0], input[1]) || length <= max)
                  && read.rest == input[if Illegal(input[0], input[1]) then 2 else 2 + extra..])
            && (read.Truncated? <==>
                  && |input| >= 2 && !Illegal(input[0], input[1])
                  && (|input| < 2 + extra
                      || (length <= max && masked != masks && |input| < 2 + extra + body)))
  {
    if |input| >= 2 {
      var short := input[1] % 128;
      var extra := if short == 126 then 2 else if short == 127 then 8 else 0;
      IllegalBits(input[0], short);
      SecondByte(input[1]);
      if |input| >= 2 + extra { FromBigIsBigEndian(input[2..2 + extra]); }
    }
  }

  lemma IllegalBits(first: Byte, short: nat)
    ensures first / 16 % 8 != 0 <==> first % 128 >= 16
    ensures first / 128 == 1 <==> first >= 128
  {
  }

  // ------------------------------------------------------------ many frames

  /** A frame the wire format can carry. */
  predicate OnWire(f: Frame) { f.opcode < 16 && |f.payload| < TWO_TO_64 }

  /** A frame a peer with limit `max` does not refuse. */
  predicate Readable(f: Frame, max: nat) {
    |f.payload| <= max && (f.opcode >= CLOSE ==> f.fin && |f.payload| <= 125)
  }

  function EncodeFrame(masks: bool, f: Frame, key: Key): seq<Byte>
    requires OnWire(f)
  {
    Encode(masks, f.fin, f.opcode, f.payload, key)
  }

  /** A sequence of frames, each with the mask key drawn for it. */
  function EncodeAll(masks: bool, frames: seq<Frame>, keys: seq<Key>): seq<Byte>
    requires |keys| == |frames| && forall i | 0 <= i < |frames| :: OnWire(frames[i])
  {
    if frames == [] then [] else EncodeFrame(masks, frames[0], keys[0]) + EncodeAll(masks, frames[1..], keys[1..])
  }

  /** Reads `count` frames; `None` when one of them cannot be read. */
  function DecodeMany(masks: bool, max: nat, input: seq<Byte>, count: nat): Option<(seq<Frame>, seq<Byte>)> {
    if count == 0 then Some(([], input))
    else
      match Decode(masks, max, input)
      case Got(frame, rest) =>
        (match DecodeMany(masks, max, rest, count - 1)
         case Some((frames, left)) => Some(([frame] + frames, left))
         case None => None)
      case _ => None
  }

  lemma DecodeOne(masks: bool, max: nat, f: Frame, key: Key, rest: seq<Byte>)
    requires OnWire(f) && Readable(f, max)
    ensures Decode(!masks, max, EncodeFrame(masks, f, key) + rest) == Got(f, rest)
  {
    CodecRoundTrip(masks, max, f.fin, f.opcode, f.payload, key, rest);
  }

  lemma DecodeManyMore(masks: bool, max: nat, input: seq<Byte>, f: Frame, rest: seq<Byte>,
                       count: nat, frames: seq<Frame>, left: seq<Byte>)
    requires Decode(masks, max, input) == Got(f, rest)
    requires DecodeMany(masks, max, rest, count) == Some((frames, left))
    ensures DecodeMany(masks, max, input, count + 1) == Some(([f] + frames, left))
  {
  }

  lemma EncodeAllMore(masks: bool, frames: seq<Frame>, keys: seq<Key>, suffix: seq<Byte>)
    requires frames != [] && |keys| == |frames| && forall i | 0 <= i < |frames| :: OnWire(frames[i])
    ensures EncodeAll(masks, frames, keys) + suffix
         == EncodeFrame(masks, frames[0], keys[0]) + (EncodeAll(masks, frames[1..], keys[1..]) + suffix)
  {
  }

  lemma DecodeMore(masks: bool, max: nat, f: Frame, key: Key, rest: seq<Byte>, frames: seq<Frame>, left: seq<Byte>)
    requires OnWire(f) && Readable(f, max)
    requires DecodeMany(!masks, max, rest, |frames|) == Some((frames, left))
    ensures DecodeMany(!masks, max, EncodeFrame(masks, f, key) + rest, |frames| + 1) == Some(([f] + frames, left))
  {
    DecodeOne(masks, max, f, key, rest);
    DecodeManyMore(!masks, max, EncodeFrame(masks, f, key) + rest, f, rest, |frames|, frames, left);
  }

  lemma SequenceGrows(masks: bool, max: nat, frames: seq<Frame>, keys: seq<Key>, suffix: seq<Byte>)
    requires frames != [] && |keys| == |frames| && forall i | 0 <= i < |frames| :: OnWire(frames[i])
    requires Readable(frames[0], max)
    requires DecodeMany(!masks, max, EncodeAll(masks, frames[1..], keys[1..]) + suffix, |frames[1..]|)
          == Some((frames[1..], suffix))
    ensures DecodeMany(!masks, max, EncodeAll(masks, frames, keys) + suffix, |frames|) == Some((frames, suffix))
  {
    EncodeAllMore(masks, frames, keys, suffix);
    DecodeMore(masks, max, frames[0], keys[0], EncodeAll(masks, frames[1..], keys[1..]) + suffix, frames[1..], suffix);
    assert [frames[0]] + frames[1..] == frames;
  }

  /** Any sequence of sent frames decodes to itself. */
  lemma {:induction false} SequenceRoundTrip(masks: bool, max: nat, frames: seq<Frame>, keys: seq<Key>,
                                             suffix: seq<Byte>)
    requires |keys| == |frames|
    requires forall i | 0 <= i < |frames| :: OnWire(frames[i])
    requires forall i | 0 <= i < |frames| :: Readable(frames[i], max)
    ensures DecodeMany(!masks, max, EncodeAll(masks, frames, keys) + suffix, |frames|) == Some((frames, suffix))
    decreases |frames|
  {
    if frames == [] {
      assert EncodeAll(masks, frames, keys) + suffix == suffix;
    } else {
      SequenceRoundTrip(masks, max, frames[1..], keys[1..], suffix);
      SequenceGrows(masks, max, frames, keys, suffix);
    }
  }
}
