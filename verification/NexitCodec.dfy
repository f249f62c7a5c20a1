/** The nexit/1 wire format: frames, and addresses in the address types of section 5 of RFC 1928. */
module NexitCodec {
  import opened Wrappers
  import opened Bytes
  import opened NexitCredit

  type U16 = n: int | 0 <= n < 0x1_0000
  type U32 = n: int | 0 <= n < 0x1_0000_0000

  datatype Frame = Frame(typ: Byte, id: U32, payload: seq<Byte>)

  datatype CodecError = BadFrame | TooLong | AddressType

  function Be16(n: U16): seq<Byte> { [n / 0x100, n % 0x100] }

  function FromBe16(b: seq<Byte>): U16
    requires |b| == 2
  {
    (b[0] as int) * 0x100 + b[1] as int
  }

  function Be32(n: U32): seq<Byte> { Be16(n / 0x1_0000) + Be16(n % 0x1_0000) }

  function FromBe32(b: seq<Byte>): U32
    requires |b| == 4
  {
    FromBe16(b[..2]) * 0x1_0000 + FromBe16(b[2..])
  }

  lemma Be32Inverse(n: U32)
    ensures |Be32(n)| == 4 && FromBe32(Be32(n)) == n
  {
    assert Be32(n)[..2] == Be16(n / 0x1_0000) && Be32(n)[2..] == Be16(n % 0x1_0000);
  }

  lemma FromBe32Inverse(b: seq<Byte>)
    requires |b| == 4
    ensures Be32(FromBe32(b)) == b
  {
    var hi, lo := FromBe16(b[..2]), FromBe16(b[2..]);
    assert Be16(hi) == b[..2] && Be16(lo) == b[2..];
  }

  function EncodeFrame(f: Frame): seq<Byte> { [f.typ] + Be32(f.id) + f.payload }

  function DecodeFrame(b: seq<Byte>): Result<Frame, CodecError> {
    if |b| < 5 then Err(BadFrame)
    else if |b| - 5 > MAX_FRAME then Err(TooLong)
    else Ok(Frame(b[0], FromBe32(b[1..5]), b[5..]))
  }

  /** Every frame short enough to send is read back as sent, and no other frame is read at all. */
  lemma FrameRoundTrip(f: Frame)
    ensures DecodeFrame(EncodeFrame(f)) == if |f.payload| <= MAX_FRAME then Ok(f) else Err(TooLong)
  {
    var b := EncodeFrame(f);
    Be32Inverse(f.id);
    assert b[1..5] == Be32(f.id) && b[5..] == f.payload;
  }

  /** Decoding loses nothing: the frame determines the message it came from. */
  lemma FrameDecodeIsExact(b: seq<Byte>)
    ensures DecodeFrame(b).Ok? ==> EncodeFrame(DecodeFrame(b).value) == b
  {
    if DecodeFrame(b).Ok? {
      FromBe32Inverse(b[1..5]);
      assert [b[0]] + b[1..5] + b[5..] == b;
    }
  }

  /** Five bytes of header: the type, then the id, most significant byte first; the payload is as given. */
  lemma FrameOnTheWire(f: Frame)
    ensures var b := EncodeFrame(f);
      && |b| == 5 + |f.payload| && b[0] == f.typ && b[5..] == f.payload
      && f.id == 0x100_0000 * (b[1] as int) + 0x1_0000 * (b[2] as int) + 0x100 * (b[3] as int) + b[4] as int
  {
    var hi, lo := f.id / 0x1_0000, f.id % 0x1_0000;
    assert EncodeFrame(f)[1..5] == Be16(hi) + Be16(lo);
    assert EncodeFrame(f)[1..3] == Be16(hi) && EncodeFrame(f)[3..5] == Be16(lo);
  }

  // Addresses.

  type Addr4 = a: seq<Byte> | |a| == 4 witness [0, 0, 0, 0]
  type Addr16 = a: seq<Byte> | |a| == 16 witness seq(16, _ => 0)

  datatype AddrPort = V4(a: Addr4, port: U16) | V6(a16: Addr16, port: U16)

  const MAPPED_PREFIX: seq<Byte> := [0, 0, 0, 0, 0, 0, 0, 0, 0, 0, 0xFF, 0xFF]

  predicate Mapped(ap: AddrPort) { ap.V6? && ap.a16[..12] == MAPPED_PREFIX }

  function Unmap(ap: AddrPort): AddrPort { if Mapped(ap) then V4(ap.a16[12..], ap.port) else ap }

  function EncodeAddrPort(ap: AddrPort): seq<Byte> {
    match Unmap(ap)
    case V4(a, port) => [1] + a + Be16(port)
    case V6(a, port) => [4] + a + Be16(port)
  }

  function DecodeAddrPort(b: seq<Byte>): Result<(AddrPort, nat), CodecError> {
    if |b| < 1 then Err(BadFrame)
    else if b[0] == 1 then
      if |b| < 7 then Err(BadFrame) else Ok((V4(b[1..5], FromBe16(b[5..7])), 7))
    else if b[0] == 4 then
      if |b| < 19 then Err(BadFrame) else Ok((V6(b[1..17], FromBe16(b[17..19])), 19))
    else Err(AddressType)
  }

  /** The reader gets the address back (an IPv4-mapped one as IPv4) and knows where it ended. */
  lemma AddrRoundTrip(ap: AddrPort, rest: seq<Byte>)
    ensures DecodeAddrPort(EncodeAddrPort(ap) + rest) == Ok((Unmap(ap), |EncodeAddrPort(ap)|))
  {
    var b := EncodeAddrPort(ap) + rest;
    match Unmap(ap) {
      case V4(a, port) => assert b[1..5] == a && b[5..7] == Be16(port);
      case V6(a, port) => assert b[1..17] == a && b[17..19] == Be16(port);
    }
  }

  /** The other direction is exact precisely when the peer did not spell IPv4 as mapped IPv6. */
  lemma AddrDecodeIsExact(b: seq<Byte>)
    requires DecodeAddrPort(b).Ok?
    ensures var (ap, n) := DecodeAddrPort(b).value;
      n <= |b| && (EncodeAddrPort(ap) == b[..n] <==> !Mapped(ap))
  {
    var (ap, n) := DecodeAddrPort(b).value;
    if Mapped(ap) {
      assert EncodeAddrPort(ap)[0] == 1 && b[..n][0] == 4;
    } else if ap.V4? {
      assert [b[0]] + b[1..5] + b[5..7] == b[..7];
      assert Be16(FromBe16(b[5..7])) == b[5..7];
    } else {
      assert [b[0]] + b[1..17] + b[17..19] == b[..19];
      assert Be16(FromBe16(b[17..19])) == b[17..19];
    }
  }

  /** A type byte, the address, and the port, most significant byte first; a mapped address goes as IPv4. */
  lemma AddrOnTheWire(ap: AddrPort)
    ensures var b := EncodeAddrPort(ap);
      if ap.V4? then |b| == 7 && b[0] == 1 && b[1..5] == ap.a && ap.port == 0x100 * (b[5] as int) + b[6] as int
      else if Mapped(ap) then EncodeAddrPort(V4(ap.a16[12..], ap.port)) == b
      else |b| == 19 && b[0] == 4 && b[1..17] == ap.a16 && ap.port == 0x100 * (b[17] as int) + b[18] as int
  {
  }

  /** Mapped is ten zero bytes and two of ones. */
  lemma MappedMeans(ap: AddrPort)
    requires ap.V6?
    ensures Mapped(ap) <==>
      (forall i :: 0 <= i < 10 ==> ap.a16[i] == 0) && ap.a16[10] == 255 && ap.a16[11] == 255
  {
    var front := ap.a16[..12];
    assert forall i :: 0 <= i < 12 ==> front[i] == ap.a16[i];
    assert forall i :: 0 <= i < 10 ==> MAPPED_PREFIX[i] == 0;
    assert front == MAPPED_PREFIX <==> forall i :: 0 <= i < 12 ==> front[i] == MAPPED_PREFIX[i];
  }

  /** An address is read exactly when its type is one of the two and its bytes are all there. */
  lemma AddrAcceptedExactlyWhen(b: seq<Byte>)
    ensures DecodeAddrPort(b).Ok? <==> |b| >= 7 && (b[0] == 1 || (b[0] == 4 && |b| >= 19))
    ensures DecodeAddrPort(b) == Err(AddressType) <==> |b| > 0 && b[0] != 1 && b[0] != 4
  {
  }
}
