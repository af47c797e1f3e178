module Conversion {
  lemma RoundTrip(n: nat)
    requires n < 256
    ensures (n as bv8) as nat == n
  {
  }
}

/** Bytes as bit vectors, and the numbers they stand for. */
module Octets {
  import Conversion

  function ByteOf(n: nat): bv8
    requires n < 256
  {
    n as bv8
  }

  function NatOf(b: bv8): (n: nat)
    ensures n < 256
  {
    b as nat
  }

  lemma NatOfByteOf(n: nat)
    requires n < 256
    ensures NatOf(ByteOf(n)) == n
  {
    Conversion.RoundTrip(n);
  }

  lemma ByteOfNatOf(b: bv8)
    ensures ByteOf(NatOf(b)) == b
  {
  }

  /** The FIN bit of a first byte, the MASK bit of a second one. */
  predicate HighBit(b: bv8) { b & 0x80 != 0 }

  function LowNibble(b: bv8): bv8 { b & 0x0F }

  function LowSeven(b: bv8): bv8 { b & 0x7F }

  lemma SmallBytes(b: bv8)
    ensures NatOf(b) < 128 <==> b < 128
    ensures NatOf(b) == 126 <==> b == 126
    ensures NatOf(b) == 127 <==> b == 127
  {
  }
}

/**
 The bounded WebSocket frame codec (RFC 6455 sections 5.2 and 5.3): single, unfragmented frames with
 three length forms, masked from client to server, accepted only at their exact length.
 */
module Framing {
  import opened Wrappers
  import opened Octets

  type Bytes = seq<bv8>

  const MAX_ENVELOPE_BYTES: nat := 262144

  datatype Frame = Frame(opcode: bv8, payload: Bytes)

  datatype FrameError = Malformed | Oversized

  predicate IsControl(opcode: bv8) { opcode == 0x8 || opcode == 0x9 || opcode == 0xA }

  predicate IsOpcode(opcode: bv8) { opcode == 0x1 || IsControl(opcode) }

  /** struct.unpack of a big-endian unsigned number. */
  function BigEndian(bytes: Bytes): nat {
    if bytes == [] then 0
    else BigEndian(bytes[..|bytes| - 1]) * 256 + NatOf(bytes[|bytes| - 1])
  }

  /** struct.pack of a big-endian unsigned number of the given width. */
  function BigEndianBytes(n: nat, width: nat): (bytes: Bytes)
    ensures |bytes| == width
  {
    if width == 0 then []
    else BigEndianBytes(n / 256, width - 1) + [ByteOf(n % 256)]
  }

  function Xor(data: Bytes, key: Bytes): (masked: Bytes)
    requires |key| == 4
    ensures |masked| == |data|
    ensures forall i :: 0 <= i < |data| ==> masked[i] == data[i] ^ key[i % 4]
  {
    seq(|data|, i requires 0 <= i < |data| => data[i] ^ key[i % 4])
  }

  function Decode(raw: Bytes): Result<Frame, FrameError> {
    if |raw| < 2 then Err(Malformed)
    else
      var first, second := raw[0], raw[1];
      if !HighBit(first) then Err(Malformed)
      else
        var opcode := LowNibble(first);
        if !IsOpcode(opcode) then Err(Malformed)
        else if !HighBit(second) then Err(Malformed)
        else
          var short := LowSeven(second);
          if short == 126 then
            if |raw| < 4 then Err(Malformed) else Body(raw, opcode, BigEndian(raw[2..4]), 4)
          else if short == 127 then
            if |raw| < 10 then Err(Malformed) else Body(raw, opcode, BigEndian(raw[2..10]), 10)
          else Body(raw, opcode, NatOf(short), 2)
  }

  function Body(raw: Bytes, opcode: bv8, length: nat, offset: nat): Result<Frame, FrameError> {
    if IsControl(opcode) && length > 125 then Err(Malformed)
    else if length > MAX_ENVELOPE_BYTES then Err(Oversized)
    else if |raw| != offset + 4 + length then Err(Malformed)
    else Ok(Frame(opcode, Xor(raw[offset + 4..], raw[offset..offset + 4])))
  }

  function Encode(payload: Bytes, opcode: bv8): Result<Bytes, FrameError> {
    if IsControl(opcode) && |payload| > 125 then Err(Malformed)
    else if |payload| > MAX_ENVELOPE_BYTES then Err(Oversized)
    else Ok([0x80 | opcode] + LengthBytes(ShortestForm(|payload|), |payload|, 0) + payload)
  }

  method EncodeServerFrame(payload: Bytes, opcode: bv8) returns (r: Result<Bytes, FrameError>)
    ensures r == Encode(payload, opcode)
    ensures r == Err(Malformed) <==> opcode in {0x8, 0x9, 0xA} && |payload| > 125
    ensures r == Err(Oversized) <==> opcode !in {0x8, 0x9, 0xA} && |payload| > 256 * 1024
  {
    hide ByteOf, NatOf, BigEndian, BigEndianBytes;
    if IsControl(opcode) && |payload| > 125 {
      return Err(Malformed);
    }
    if |payload| > MAX_ENVELOPE_BYTES {
      return Err(Oversized);
    }
    var header: Bytes := [0x80 | opcode];
    if |payload| < 126 {
      header := header + [ByteOf(|payload|)];
    } else if |payload| <= 0xFFFF {
      header := header + ([126] + BigEndianBytes(|payload|, 2));
    } else {
      header := header + [127];
      header := header + BigEndianBytes(|payload|, 8);
      assert header == [0x80 | opcode] + ([127] + BigEndianBytes(|payload|, 8));
    }
    return Ok(header + payload);
  }

  // --- the wire format, independently of the decoder --------------------------------------------

  datatype Form = Short | Medium | Long

  function ShortestForm(n: nat): Form {
    if n < 126 then Short else if n <= 0xFFFF then Medium else Long
  }

  predicate Fits(form: Form, n: nat) {
    match form
    case Short => n < 126
    case Medium => n < 0x1_0000
    case Long => n < 0x1_0000_0000_0000_0000
  }

  /** The second byte with its mask bit, and the extended length. */
  function LengthBytes(form: Form, n: nat, maskBit: bv8): Bytes
    requires Fits(form, n)
  {
    match form
    case Short => [maskBit | ByteOf(n)]
    case Medium => [maskBit | 126] + BigEndianBytes(n, 2)
    case Long => [maskBit | 127] + BigEndianBytes(n, 8)
  }

  /** A masked frame as section 5.2 lays it out. */
  function Layout(rsv: bv8, opcode: bv8, form: Form, key: Bytes, payload: Bytes): Bytes
    requires |key| == 4 && Fits(form, |payload|)
  {
    [0x80 | rsv | opcode] + LengthBytes(form, |payload|, 0x80) + key + Xor(payload, key)
  }

  predicate Admissible(opcode: bv8, n: nat) {
    IsOpcode(opcode) && n <= MAX_ENVELOPE_BYTES && (IsControl(opcode) ==> n <= 125)
  }

  lemma LowBits(n: nat)
    requires n < 126
    ensures LowSeven(0x80 | ByteOf(n)) == ByteOf(n) && HighBit(0x80 | ByteOf(n))
    ensures ByteOf(n) < 128 && ByteOf(n) != 126 && ByteOf(n) != 127
  {
    hide ByteOf, NatOf;
    NatOfByteOf(n);
    SmallBytes(ByteOf(n));
    LowBitsOf(ByteOf(n));
  }

  lemma LowBitsOf(b: bv8)
    requires b < 128
    ensures LowSeven(0x80 | b) == b && HighBit(0x80 | b)
  {
  }

  lemma {:induction false} BigEndianRoundTrip(n: nat, width: nat)
    requires n < Power256(width)
    ensures BigEndian(BigEndianBytes(n, width)) == n
  {
    hide ByteOf, NatOf;
    if width > 0 {
      BigEndianRoundTrip(n / 256, width - 1);
      NatOfByteOf(n % 256);
      var front := BigEndianBytes(n / 256, width - 1);
      assert (front + [ByteOf(n % 256)])[..width - 1] == front;
    }
  }

  function Power256(width: nat): nat { if width == 0 then 1 else 256 * Power256(width - 1) }

  lemma Digit(q: nat, r: nat, p: nat)
    requires r < 256 && q < p
    ensures (q * 256 + r) / 256 == q && (q * 256 + r) % 256 == r && q * 256 + r < 256 * p
  {
  }

  lemma LastDigit(bytes: Bytes)
    requires bytes != []
    ensures var q, r := BigEndian(bytes[..|bytes| - 1]), NatOf(bytes[|bytes| - 1]);
            && BigEndian(bytes) == q * 256 + r
            && Power256(|bytes|) == 256 * Power256(|bytes| - 1)
  {
  }

  lemma {:induction false} BigEndianUnique(bytes: Bytes)
    ensures BigEndian(bytes) < Power256(|bytes|)
    ensures BigEndianBytes(BigEndian(bytes), |bytes|) == bytes
  {
    hide ByteOf, NatOf, BigEndian, Power256;
    if bytes == [] {
      EmptyNumber();
    } else {
      var front, last := bytes[..|bytes| - 1], bytes[|bytes| - 1];
      BigEndianUnique(front);
      LastDigit(bytes);
      Digit(BigEndian(front), NatOf(last), Power256(|front|));
      ByteOfNatOf(last);
      assert bytes == front + [last];
    }
  }

  lemma EmptyNumber()
    ensures BigEndian([]) == 0 && Power256(0) == 1
  {
  }

  lemma XorTwice(data: Bytes, key: Bytes)
    requires |key| == 4
    ensures Xor(Xor(data, key), key) == data
  {
    forall i | 0 <= i < |data|
      ensures Xor(Xor(data, key), key)[i] == data[i]
    {
      assert (data[i] ^ key[i % 4]) ^ key[i % 4] == data[i];
    }
  }

  lemma HeadBits(rsv: bv8, opcode: bv8)
    requires rsv & 0x8F == 0 && IsOpcode(opcode)
    ensures HighBit(0x80 | rsv | opcode) && LowNibble(0x80 | rsv | opcode) == opcode
    ensures (0x80 | rsv | opcode) & 0x70 == rsv
  {
  }

  lemma AcceptsShort(rsv: bv8, opcode: bv8, key: Bytes, payload: Bytes)
    requires rsv & 0x8F == 0 && |key| == 4 && Fits(Short, |payload|) && Admissible(opcode, |payload|)
    ensures Decode(Layout(rsv, opcode, Short, key, payload)) == Ok(Frame(opcode, payload))
  {
    hide HighBit, LowNibble, LowSeven;
    hide BigEndian, BigEndianBytes, ByteOf, NatOf;
    var raw, n := Layout(rsv, opcode, Short, key, payload), |payload|;
    HeadBits(rsv, opcode);
    LowBits(n);
    assert raw[1] == 0x80 | ByteOf(n);
    NatOfByteOf(n);
    assert raw[2..6] == key && raw[6..] == Xor(payload, key);
    XorTwice(payload, key);
  }

  lemma AcceptsMedium(rsv: bv8, opcode: bv8, key: Bytes, payload: Bytes)
    requires rsv & 0x8F == 0 && |key| == 4 && Fits(Medium, |payload|) && Admissible(opcode, |payload|)
    ensures Decode(Layout(rsv, opcode, Medium, key, payload)) == Ok(Frame(opcode, payload))
  {
    hide BigEndian, BigEndianBytes, ByteOf, NatOf;
    var raw, n := Layout(rsv, opcode, Medium, key, payload), |payload|;
    HeadBits(rsv, opcode);
    assert raw[1] == 254 && LowSeven(254) == 126 && HighBit(254);
    assert raw[2..4] == BigEndianBytes(n, 2);
    assert Power256(2) == 0x1_0000;
    BigEndianRoundTrip(n, 2);
    assert raw[4..8] == key && raw[8..] == Xor(payload, key);
    XorTwice(payload, key);
  }

  lemma AcceptsLong(rsv: bv8, opcode: bv8, key: Bytes, payload: Bytes)
    requires rsv & 0x8F == 0 && |key| == 4 && Fits(Long, |payload|) && Admissible(opcode, |payload|)
    ensures Decode(Layout(rsv, opcode, Long, key, payload)) == Ok(Frame(opcode, payload))
  {
    hide BigEndian, BigEndianBytes, Power256, ByteOf, NatOf;
    var raw, n := Layout(rsv, opcode, Long, key, payload), |payload|;
    HeadBits(rsv, opcode);
    assert raw[1] == 255 && LowSeven(255) == 127 && HighBit(255);
    assert raw[2..10] == BigEndianBytes(n, 8);
    Power8();
    BigEndianRoundTrip(n, 8);
    assert raw[10..14] == key && raw[14..] == Xor(payload, key);
    XorTwice(payload, key);
  }

  /** Every frame the wire format allows is accepted, whatever its reserved bits and length form, and yields its payload. */
  lemma DecodeAccepts(rsv: bv8, opcode: bv8, form: Form, key: Bytes, payload: Bytes)
    requires rsv & 0x8F == 0 && |key| == 4 && Fits(form, |payload|) && Admissible(opcode, |payload|)
    ensures Decode(Layout(rsv, opcode, form, key, payload)) == Ok(Frame(opcode, payload))
  {
    hide Decode, Layout;
    match form
    case Short => AcceptsShort(rsv, opcode, key, payload);
    case Medium => AcceptsMedium(rsv, opcode, key, payload);
    case Long => AcceptsLong(rsv, opcode, key, payload);
  }

  lemma Power8()
    ensures Power256(8) == 0x1_0000_0000_0000_0000
  {
    assert Power256(2) == 0x1_0000;
    assert Power256(4) == 256 * (256 * Power256(2));
    assert Power256(6) == 256 * (256 * Power256(4));
    assert Power256(8) == 256 * (256 * Power256(6));
  }

  /** The parts of an accepted frame. */
  function FormOf(second: bv8): Form {
    if LowSeven(second) == 126 then Medium else if LowSeven(second) == 127 then Long else Short
  }

  function OffsetOf(form: Form): nat {
    match form case Short => 2 case Medium => 4 case Long => 10
  }

  function KeyOf(raw: Bytes): Bytes
    requires Decode(raw).Ok?
  {
    var offset := OffsetOf(FormOf(raw[1]));
    raw[offset..offset + 4]
  }

  lemma HighBits(b: bv8)
    ensures HighBit(b) ==> b == 0x80 | LowSeven(b)
    ensures HighBit(b) ==> b == 0x80 | (b & 0x70) | LowNibble(b)
    ensures (b & 0x70) & 0x8F == 0
    ensures LowSeven(b) < 128
  {
  }

  lemma ShortByte(b: bv8)
    requires b < 128 && b != 126 && b != 127
    ensures NatOf(b) < 126 && ByteOf(NatOf(b)) == b
  {
    hide ByteOf, NatOf;
    SmallBytes(b);
    ByteOfNatOf(b);
  }

  /** Only frames of the wire format are accepted: an accepted frame is the layout of what it decodes to. */
  lemma DecodeOnlyAccepts(raw: Bytes)
    requires Decode(raw).Ok?
    ensures var Frame(opcode, payload) := Decode(raw).value;
            && Admissible(opcode, |payload|) && Fits(FormOf(raw[1]), |payload|)
            && (raw[0] & 0x70) & 0x8F == 0
            && raw == Layout(raw[0] & 0x70, opcode, FormOf(raw[1]), KeyOf(raw), payload)
  {
    hide HighBit, LowNibble, LowSeven;
    hide LengthBytes;
    hide ByteOf, NatOf, BigEndian, BigEndianBytes;
    var Frame(opcode, payload) := Decode(raw).value;
    var form, offset, key := FormOf(raw[1]), OffsetOf(FormOf(raw[1])), KeyOf(raw);
    HighBits(raw[0]);
    HighBits(raw[1]);
    XorTwice(raw[offset + 4..], key);
    assert raw == [raw[0]] + raw[1..offset] + key + raw[offset + 4..];
    LengthPart(raw);
  }

  lemma LengthPart(raw: Bytes)
    requires Decode(raw).Ok?
    ensures var n, form := |Decode(raw).value.payload|, FormOf(raw[1]);
            Fits(form, n) && raw[1..OffsetOf(form)] == LengthBytes(form, n, 0x80)
  {
    hide HighBit, LowNibble, LowSeven;
    hide BigEndian, BigEndianBytes, Power256, ByteOf, NatOf;
    HighBits(raw[1]);
    AcceptedLength(raw);
    match FormOf(raw[1])
    case Short =>
      ShortByte(LowSeven(raw[1]));
      assert raw[1..2] == [raw[1]];
    case Medium =>
      BigEndianUnique(raw[2..4]);
      Power2();
      assert raw[1..4] == [raw[1]] + raw[2..4];
    case Long =>
      BigEndianUnique(raw[2..10]);
      Power8();
      assert raw[1..10] == [raw[1]] + raw[2..10];
  }

  lemma Power2()
    ensures Power256(2) == 0x1_0000
  {
    assert Power256(1) == 256;
  }

  // --- the theorems -----------------------------------------------------------------------------

  /** What a client makes of a server frame (section 5.3): set the mask bit, insert the key, mask the payload. */
  function ClientFrame(server: Bytes, key: Bytes): Bytes
    requires |server| >= 2 && |key| == 4 && |server| >= OffsetOf(FormOf(server[1]))
  {
    var offset := OffsetOf(FormOf(server[1]));
    [server[0]] + [0x80 | server[1]] + server[2..offset] + key + Xor(server[offset..], key)
  }

  lemma ShortestSecondByte(n: nat)
    requires n <= MAX_ENVELOPE_BYTES
    ensures var form := ShortestForm(n);
            && Fits(form, n) && FormOf(LengthBytes(form, n, 0)[0]) == form
            && |LengthBytes(form, n, 0)| + 1 == OffsetOf(form)
            && [0x80 | LengthBytes(form, n, 0)[0]] + LengthBytes(form, n, 0)[1..] == LengthBytes(form, n, 0x80)
  {
    hide ByteOf, NatOf, BigEndian, BigEndianBytes;
    if n < 126 {
      LowBits(n);
      ZeroOr(ByteOf(n));
    }
  }

  lemma ZeroOr(b: bv8)
    requires b < 128
    ensures 0 | b == b && LowSeven(b) == b && 0x80 | (0 | b) == 0x80 | b
  {
  }

  lemma ClientFrameIsLayout(payload: Bytes, opcode: bv8, key: Bytes)
    requires Admissible(opcode, |payload|) && |key| == 4
    ensures Encode(payload, opcode).Ok?
    ensures var server := Encode(payload, opcode).value;
            && |server| >= 2 && |server| >= OffsetOf(FormOf(server[1]))
            && ClientFrame(server, key) == Layout(0, opcode, ShortestForm(|payload|), key, payload)
  {
    hide HighBit, LowNibble, LowSeven;
    hide ByteOf, NatOf, BigEndian, BigEndianBytes;
    var n, form := |payload|, ShortestForm(|payload|);
    ShortestSecondByte(n);
    var server, middle := Encode(payload, opcode).value, LengthBytes(form, n, 0);
    var offset := OffsetOf(form);
    assert server[1] == middle[0] && server[2..offset] == middle[1..] && server[offset..] == payload;
    assert 0x80 | 0 | opcode == 0x80 | opcode;
    assert [server[0]] + [0x80 | server[1]] + server[2..offset] == [server[0]] + LengthBytes(form, n, 0x80);
  }

  /** Round trip across all three length forms. */
  lemma RoundTrip(payload: Bytes, opcode: bv8, key: Bytes)
    requires Admissible(opcode, |payload|) && |key| == 4
    ensures Encode(payload, opcode).Ok?
    ensures var server := Encode(payload, opcode).value;
            && |server| >= 2 && |server| >= OffsetOf(FormOf(server[1]))
            && Decode(ClientFrame(server, key)) == Ok(Frame(opcode, payload))
  {
    hide HighBit, LowNibble, LowSeven;
    hide ByteOf, NatOf, BigEndian, BigEndianBytes;
    ClientFrameIsLayout(payload, opcode, key);
    ShortestSecondByte(|payload|);
    DecodeAccepts(0, opcode, ShortestForm(|payload|), key, payload);
  }

  /** Re-encoding an accepted frame under its own key gives back its bytes iff its reserved bits are zero and its length form is the shortest. */
  lemma ReencodeIff(raw: Bytes)
    requires Decode(raw).Ok?
    ensures var Frame(opcode, payload) := Decode(raw).value;
            && Encode(payload, opcode).Ok?
            && var server := Encode(payload, opcode).value;
            && |server| >= 2 && |server| >= OffsetOf(FormOf(server[1]))
            && (ClientFrame(server, KeyOf(raw)) == raw
                <==> raw[0] & 0x70 == 0 && FormOf(raw[1]) == ShortestForm(|payload|))
  {
    hide ByteOf, NatOf, BigEndian, BigEndianBytes;
    var Frame(opcode, payload) := Decode(raw).value;
    DecodeOnlyAccepts(raw);
    ClientFrameIsLayout(payload, opcode, KeyOf(raw));
    var client := ClientFrame(Encode(payload, opcode).value, KeyOf(raw));
    if client == raw {
      HeadBits(0, opcode);
      assert raw[0] == 0x80 | 0 | opcode;
      ShortestMasked(|payload|);
      assert raw[1] == LengthBytes(ShortestForm(|payload|), |payload|, 0x80)[0];
    }
  }

  lemma ShortestMasked(n: nat)
    requires n <= MAX_ENVELOPE_BYTES
    ensures Fits(ShortestForm(n), n) && FormOf(LengthBytes(ShortestForm(n), n, 0x80)[0]) == ShortestForm(n)
  {
    hide ByteOf, NatOf, BigEndian, BigEndianBytes;
    if n < 126 {
      LowBits(n);
    }
  }

  /** The length of an accepted frame is fixed by its header. */
  lemma AcceptedLength(raw: Bytes)
    requires Decode(raw).Ok?
    ensures var form := FormOf(raw[1]);
            && |raw| >= OffsetOf(form)
            && |raw| == OffsetOf(form) + 4 + (match form case Short => NatOf(LowSeven(raw[1]))
                                                         case Medium => BigEndian(raw[2..4])
                                                         case Long => BigEndian(raw[2..10]))
  {
    hide HighBit, LowNibble, LowSeven;
    hide ByteOf, NatOf, BigEndian, BigEndianBytes;
  }

  /** No accepted frame is a proper prefix of another. */
  lemma PrefixFree(a: Bytes, b: Bytes)
    requires Decode(a).Ok? && Decode(b).Ok?
    requires a <= b
    ensures a == b
  {
    hide HighBit, LowNibble, LowSeven;
    hide ByteOf, NatOf, BigEndian, BigEndianBytes;
    AcceptedLength(a);
    AcceptedLength(b);
    assert a[1] == b[1];
    var offset := OffsetOf(FormOf(a[1]));
    assert a[2..offset] == b[2..offset];
  }

  /** Text frames and the three control frames; a control frame is told by its top opcode bit (section 5.5). */
  lemma Opcodes(opcode: bv8)
    ensures IsOpcode(opcode) <==> opcode in {0x1, 0x8, 0x9, 0xA}
    ensures IsOpcode(opcode) ==> (IsControl(opcode) <==> opcode & 0x8 != 0)
  {
  }

  /** Oversized is raised for masked text frames in the long form that declare more than 256 KiB, and for nothing else. */
  lemma OversizedIff(raw: Bytes)
    ensures Decode(raw) == Err(Oversized) <==>
      |raw| >= 10 && raw[0] & 0x8F == 0x81 && raw[1] == 0xFF && BigEndian(raw[2..10]) > 256 * 1024
  {
    hide ByteOf, NatOf, BigEndian, BigEndianBytes, Power256;
    if |raw| >= 2 {
      HeadOfText(raw[0]);
      SecondByte(raw[1]);
      SmallBytes(LowSeven(raw[1]));
      hide HighBit, LowNibble, LowSeven;
      if |raw| >= 4 { BigEndianUnique(raw[2..4]); Power2(); }
    }
  }

  lemma HeadOfText(b: bv8)
    ensures HighBit(b) && LowNibble(b) == 0x1 <==> b & 0x8F == 0x81
    ensures IsOpcode(LowNibble(b)) && !IsControl(LowNibble(b)) <==> LowNibble(b) == 0x1
  {
  }

  lemma SecondByte(b: bv8)
    ensures HighBit(b) && LowSeven(b) == 127 <==> b == 0xFF
    ensures LowSeven(b) < 128
  {
  }
}
