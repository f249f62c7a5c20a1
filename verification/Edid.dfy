/**
 * A 256-byte display identification: what is accepted, what is kept of it, and writing it back.
 * Fields that only label the display are left out; every field the encoder reads is here.
 */
module Edid {
  import opened Wrappers
  import opened Bytes
  import opened EdidTiming

  const BLOCK: nat := 128
  const SIZE: nat := 256
  const HEADER: seq<Byte> := [0, 255, 255, 255, 255, 255, 255, 0]
  const BASE_YEAR: int := 1990
  const CTA_TAG: Byte := 2
  const DTD_END: nat := 126

  datatype Reject = Oversize | BadSize | BadHeader | BadChecksum | BadVersion | BadExtensionCount | BadCta | NoTiming

  // Sums and zeros.

  function Total(s: seq<Byte>): Byte {
    if s == [] then 0 else (Total(s[..|s| - 1]) + s[|s| - 1]) % 256
  }

  method SumOf(s: seq<Byte>) returns (total: Byte)
    ensures total == Total(s)
  {
    total := 0;
    for i := 0 to |s|
      invariant total == Total(s[..i])
    {
      assert s[..i + 1][..i] == s[..i];
      total := (total + s[i]) % 256;
    }
    assert s[..|s|] == s;
  }

  function Negated(b: Byte): Byte { (256 - b) % 256 }

  predicate AllZero(s: seq<Byte>) { forall i :: 0 <= i < |s| ==> s[i] == 0 }

  /** A block that sums to zero ends in the negated sum of the rest, and the other way round. */
  lemma ChecksumIsLast(block: seq<Byte>)
    requires |block| > 0
    ensures Total(block) == 0 <==> block[|block| - 1] == Negated(Total(block[..|block| - 1]))
  {
    SumIsZero(Total(block[..|block| - 1]), block[|block| - 1]);
  }

  lemma SumIsZero(a: Byte, b: Byte)
    ensures (a as int + b) % 256 == 0 <==> b == Negated(a)
  {
  }

  function Zeros(n: nat): (s: seq<Byte>)
    ensures |s| == n && AllZero(s)
  {
    seq(n, i => 0)
  }

  lemma ZeroTotal(n: nat)
    ensures Total(Zeros(n)) == 0
  {
    if n > 0 {
      assert Zeros(n)[..n - 1] == Zeros(n - 1);
      ZeroTotal(n - 1);
    }
  }

  // Multi-byte numbers, least significant byte first.

  function Number(b: seq<Byte>): nat { if b == [] then 0 else b[0] + 256 * Number(b[1..]) }

  function Spread(n: nat, size: nat): (b: seq<Byte>)
    ensures |b| == size
  {
    if size == 0 then [] else [n % 256] + Spread(n / 256, size - 1)
  }

  lemma {:induction false} SpreadNumber(b: seq<Byte>)
    ensures Spread(Number(b), |b|) == b
  {
    if b != [] {
      SpreadNumber(b[1..]);
      assert Number(b) % 256 == b[0] && Number(b) / 256 == Number(b[1..]);
      assert b == [b[0]] + b[1..];
    }
  }

  // Descriptors.

  datatype Kind = TimingKind | Serial | NameKind | RangeLimits | EstablishedIII | Dummy | Unknown

  datatype Descriptor = Descriptor(kind: Kind, tag: Byte, timing: Option<Timing>, raw: Chunk)

  function KindOf(tag: Byte): Kind {
    if tag == 0xFF then Serial
    else if tag == 0xFC then NameKind
    else if tag == 0xFD then RangeLimits
    else if tag == 0xF7 then EstablishedIII
    else if tag == 0x10 then Dummy
    else Unknown
  }

  type Chunk = b: seq<Byte> | |b| == DESCRIPTOR_SIZE witness seq(DESCRIPTOR_SIZE, i => 0)

  function ParseDescriptor(b: Chunk): Descriptor {
    if b[0] != 0 || b[1] != 0 || b[2] != 0 then Descriptor(TimingKind, 0, Some(ParseTiming(b)), b)
    else Descriptor(KindOf(b[3]), b[3], None, b)
  }

  function EncodeDescriptor(d: Descriptor): Chunk {
    if d.kind.TimingKind? && d.timing.Some? then EncodeTiming(d.timing.value) else d.raw
  }

  lemma DescriptorRoundTrip(b: Chunk)
    ensures EncodeDescriptor(ParseDescriptor(b)) == b
  {
    TimingRoundTrip(b);
  }

  // Rows of chunks, for any reading and writing of one chunk.

  function Flat<D>(ds: seq<D>, write: D -> Chunk): (s: seq<Byte>)
    ensures |s| == DESCRIPTOR_SIZE * |ds|
  {
    if ds == [] then [] else Flat(ds[..|ds| - 1], write) + write(ds[|ds| - 1])
  }

  function Chunked<D>(b: seq<Byte>, at: nat, n: nat, read: Chunk -> D): (ds: seq<D>)
    requires at + DESCRIPTOR_SIZE * n <= |b|
    ensures |ds| == n
  {
    if n == 0 then []
    else
      var start := at + DESCRIPTOR_SIZE * (n - 1);
      Chunked(b, at, n - 1, read) + [read(b[start..start + DESCRIPTOR_SIZE])]
  }

  lemma {:induction false} FlatChunked<D>(b: seq<Byte>, at: nat, n: nat, read: Chunk -> D, write: D -> Chunk)
    requires at + DESCRIPTOR_SIZE * n <= |b|
    requires forall c: Chunk :: write(read(c)) == c
    ensures Flat(Chunked(b, at, n, read), write) == b[at..at + DESCRIPTOR_SIZE * n]
  {
    if n > 0 {
      var start := at + DESCRIPTOR_SIZE * (n - 1);
      FlatChunked(b, at, n - 1, read, write);
      var ds := Chunked(b, at, n, read);
      assert ds[..n - 1] == Chunked(b, at, n - 1, read);
      assert b[at..start] + b[start..start + DESCRIPTOR_SIZE] == b[at..start + DESCRIPTOR_SIZE];
    }
  }

  function EncodeAll(ds: seq<Descriptor>): (s: seq<Byte>)
    ensures |s| == DESCRIPTOR_SIZE * |ds|
  {
    Flat(ds, EncodeDescriptor)
  }

  function ParseDescriptors(b: seq<Byte>, at: nat, n: nat): (ds: seq<Descriptor>)
    requires at + DESCRIPTOR_SIZE * n <= |b|
    ensures |ds| == n
  {
    Chunked(b, at, n, ParseDescriptor)
  }

  lemma DescriptorsRoundTrip(b: seq<Byte>, at: nat, n: nat)
    requires at + DESCRIPTOR_SIZE * n <= |b|
    ensures EncodeAll(ParseDescriptors(b, at, n)) == b[at..at + DESCRIPTOR_SIZE * n]
  {
    forall c: Chunk ensures EncodeDescriptor(ParseDescriptor(c)) == c {
      DescriptorRoundTrip(c);
    }
    FlatChunked(b, at, n, ParseDescriptor, EncodeDescriptor);
  }

  predicate Clocked(ds: seq<Descriptor>) {
    exists i :: 0 <= i < |ds| && ds[i].kind.TimingKind? && ds[i].timing.Some? && ds[i].timing.value.clockKHz > 0
  }

  // The extension block.

  datatype CtaBlock = CtaBlock(tag: Byte, raw: seq<Byte>)

  datatype Cta = Cta(
    revision: Byte, dtdOffset: Byte, flags: Byte, blocks: seq<CtaBlock>, dtds: seq<Descriptor>, padding: seq<Byte>)

  /** Vendor blocks need three payload bytes, speaker and extended blocks one. */
  predicate BlockOk(raw: seq<Byte>)
    requires |raw| > 0
  {
    var tag := raw[0] / 32;
    (tag == 3 ==> |raw| >= 4) && (tag == 4 || tag == 7 ==> |raw| >= 2)
  }

  function BlockEnd(b: seq<Byte>, cursor: nat): nat
    requires cursor < |b|
  {
    cursor + 1 + b[cursor] % 32
  }

  /** The data blocks from `cursor`, each with its own length, ending exactly at `offset`. */
  function ParseBlocks(b: seq<Byte>, cursor: nat, offset: nat): Option<seq<CtaBlock>>
    requires offset <= |b|
    decreases |b| - cursor
  {
    if cursor >= offset then Some([])
    else
      var end := BlockEnd(b, cursor);
      if end > offset || !BlockOk(b[cursor..end]) then None
      else
        var rest := ParseBlocks(b, end, offset);
        if rest.None? then None else Some([CtaBlock(b[cursor] / 32, b[cursor..end])] + rest.value)
  }

  function Raws(blocks: seq<CtaBlock>): seq<Byte> {
    if blocks == [] then [] else blocks[0].raw + Raws(blocks[1..])
  }

  lemma {:induction false} RawsOfBlocks(b: seq<Byte>, cursor: nat, offset: nat)
    requires cursor <= offset <= |b|
    ensures ParseBlocks(b, cursor, offset).Some? ==> Raws(ParseBlocks(b, cursor, offset).value) == b[cursor..offset]
    decreases |b| - cursor
  {
    if cursor < offset {
      var end := BlockEnd(b, cursor);
      if end <= offset && BlockOk(b[cursor..end]) {
        RawsOfBlocks(b, end, offset);
        var rest := ParseBlocks(b, end, offset);
        if rest.Some? {
          var all := [CtaBlock(b[cursor] / 32, b[cursor..end])] + rest.value;
          assert all[1..] == rest.value;
          assert b[cursor..end] + b[end..offset] == b[cursor..offset];
        }
      }
    }
  }

  /** How many timings follow: they stop at a run of zeros or at the end of their region. */
  function DtdCount(b: seq<Byte>, cursor: nat): (n: nat)
    requires |b| == BLOCK
    ensures n > 0 ==> cursor + DESCRIPTOR_SIZE * n <= DTD_END
    decreases |b| - cursor
  {
    if cursor + DESCRIPTOR_SIZE > DTD_END || AllZero(b[cursor..cursor + DESCRIPTOR_SIZE]) then 0
    else 1 + DtdCount(b, cursor + DESCRIPTOR_SIZE)
  }

  function ParseCta(b: seq<Byte>): Result<Cta, Reject>
    requires |b| == BLOCK
  {
    var offset := b[2];
    if b[1] < 3 || offset < 4 || offset > 127 then Err(BadCta)
    else
      var blocks := ParseBlocks(b, 4, offset);
      if blocks.None? then Err(BadCta)
      else
        var n := DtdCount(b, offset);
        var end := offset + DESCRIPTOR_SIZE * n;
        var padding := b[end..BLOCK - 1];
        if !AllZero(padding) then Err(BadCta)
        else Ok(Cta(b[1], b[2], b[3], blocks.value, ParseDescriptors(b, offset, n), padding))
  }

  /** The block without its checksum. None is one of the encoder's errors. */
  function EncodeCta(c: Cta): (r: Option<seq<Byte>>)
    ensures r.Some? ==> |r.value| == BLOCK - 1
  {
    var data := Raws(c.blocks);
    var end := c.dtdOffset + DESCRIPTOR_SIZE * |c.dtds|;
    if 4 + |data| != c.dtdOffset then None
    else if c.dtds != [] && end > DTD_END then None
    else if end + |c.padding| > BLOCK - 1 then None
    else
      Some([CTA_TAG, c.revision, c.dtdOffset, c.flags] + data + EncodeAll(c.dtds) + c.padding
           + Zeros(BLOCK - 1 - end - |c.padding|))
  }

  lemma Pieces(b: seq<Byte>, i: nat, j: nat, k: nat)
    requires i <= j <= k <= |b|
    ensures b[i..j] + b[j..k] == b[i..k]
  {
  }

  lemma Assembled(b: seq<Byte>, offset: nat, end: nat)
    requires |b| == BLOCK && 4 <= offset <= end <= BLOCK - 1
    ensures [b[0], b[1], b[2], b[3]] + b[4..offset] + b[offset..end] + b[end..BLOCK - 1] + Zeros(0) == b[..BLOCK - 1]
  {
    assert [b[0], b[1], b[2], b[3]] == b[0..4];
    Pieces(b, 0, 4, offset);
    Pieces(b, 0, offset, end);
    Pieces(b, 0, end, BLOCK - 1);
    assert b[0..BLOCK - 1] + Zeros(0) == b[..BLOCK - 1];
  }

  lemma CtaRoundTrip(b: seq<Byte>)
    requires |b| == BLOCK && b[0] == CTA_TAG && ParseCta(b).Ok?
    ensures EncodeCta(ParseCta(b).value) == Some(b[..BLOCK - 1])
  {
    var c := ParseCta(b).value;
    var offset := b[2];
    var n := DtdCount(b, offset);
    var end := offset + DESCRIPTOR_SIZE * n;
    RawsOfBlocks(b, 4, offset);
    DescriptorsRoundTrip(b, offset, n);
    Assembled(b, offset, end);
    var data, dtds := Raws(c.blocks), EncodeAll(c.dtds);
    assert data == b[4..offset] && dtds == b[offset..end] && |c.dtds| == n && c.padding == b[end..BLOCK - 1];
    assert EncodeCta(c) == Some([b[0], b[1], b[2], b[3]] + data + dtds + c.padding + Zeros(0));
  }

  // The base block.

  type Pair = b: seq<Byte> | |b| == 2 witness [0, 0]
  type Chroma = b: seq<Byte> | |b| == 10 witness seq(10, i => 0)
  type Established = b: seq<Byte> | |b| == 3 witness [0, 0, 0]
  type Word16 = n: nat | n < 0x1_0000
  type Word32 = n: nat | n < 0x1_0000_0000

  datatype Display = Display(input: Byte, widthCM: Byte, heightCM: Byte, gamma: Byte, feature: Byte)

  datatype Edid = Edid(
    manufacturer: Word16, product: Word16, serial: Word32, week: Byte, year: int, version: Byte, revision: Byte,
    display: Display, chroma: Chroma, established: Established, standard: seq<Pair>, descriptors: seq<Descriptor>,
    extensions: Byte, cta: Option<Cta>, extension: seq<Byte>)

  const STANDARD_COUNT: nat := 8
  const DESCRIPTOR_COUNT: nat := 4

  function ParsePairs(b: seq<Byte>, at: nat, n: nat): (ps: seq<Pair>)
    requires at + 2 * n <= |b|
    ensures |ps| == n
  {
    if n == 0 then []
    else
      var start := at + 2 * (n - 1);
      ParsePairs(b, at, n - 1) + [b[start..start + 2]]
  }

  function FlatPairs(ps: seq<Pair>): (s: seq<Byte>)
    ensures |s| == 2 * |ps|
  {
    if ps == [] then [] else FlatPairs(ps[..|ps| - 1]) + ps[|ps| - 1]
  }

  lemma {:induction false} PairsRoundTrip(b: seq<Byte>, at: nat, n: nat)
    requires at + 2 * n <= |b|
    ensures FlatPairs(ParsePairs(b, at, n)) == b[at..at + 2 * n]
  {
    if n > 0 {
      PairsRoundTrip(b, at, n - 1);
      var ps := ParsePairs(b, at, n);
      assert ps[..n - 1] == ParsePairs(b, at, n - 1);
      Pieces(b, at, at + 2 * (n - 1), at + 2 * n);
    }
  }

  lemma NumberBound2(b: seq<Byte>)
    requires |b| == 2
    ensures Number(b) < 0x1_0000
  {
    assert Number(b[1..]) == b[1];
  }

  lemma NumberBound4(b: seq<Byte>)
    requires |b| == 4
    ensures Number(b) < 0x1_0000_0000
  {
    var b1 := b[1..];
    assert b1[1..] == b[2..] && Number(b) == b[0] + 256 * Number(b1) && Number(b1) == b1[0] + 256 * Number(b[2..]);
    NumberBound2(b[2..]);
  }

  function Number16(b: seq<Byte>): Word16
    requires |b| == 2
  {
    NumberBound2(b);
    Number(b)
  }

  function Number32(b: seq<Byte>): Word32
    requires |b| == 4
  {
    NumberBound4(b);
    Number(b)
  }

  function ParseDisplay(b: seq<Byte>): Display
    requires |b| == BLOCK
  {
    Display(b[20], b[21], b[22], b[23], b[24])
  }

  /** The base block; the manufacturer is stored most significant byte first. */
  function ParseBase(b: seq<Byte>): Edid
    requires |b| == BLOCK
  {
    Edid(Number16([b[9], b[8]]), Number16(b[10..12]), Number32(b[12..16]), b[16], BASE_YEAR + b[17], b[18], b[19],
      ParseDisplay(b), b[25..35], b[35..38], ParsePairs(b, 38, STANDARD_COUNT),
      ParseDescriptors(b, 54, DESCRIPTOR_COUNT), b[126], None, [])
  }

  function Reversed(p: seq<Byte>): seq<Byte>
    requires |p| == 2
  {
    [p[1], p[0]]
  }

  function IdentityBytes(e: Edid): (s: seq<Byte>)
    ensures |s| == 17
  {
    Reversed(Spread(e.manufacturer, 2)) + Spread(e.product, 2) + Spread(e.serial, 4)
    + [e.week, (e.year - BASE_YEAR) % 256, e.version, e.revision]
    + [e.display.input, e.display.widthCM, e.display.heightCM, e.display.gamma, e.display.feature]
  }

  /** The block without its checksum. */
  function EncodeBase(e: Edid): (r: Option<seq<Byte>>)
    ensures r.Some? ==> |r.value| == BLOCK - 1
  {
    if |e.standard| != STANDARD_COUNT || |e.descriptors| != DESCRIPTOR_COUNT then None
    else
      Some(HEADER + IdentityBytes(e) + e.chroma + e.established + FlatPairs(e.standard)
           + EncodeAll(e.descriptors) + [e.extensions])
  }

  lemma IdentityRoundTrip(b: seq<Byte>, e: Edid)
    requires |b| == BLOCK
    requires e.manufacturer == Number([b[9], b[8]]) && e.product == Number(b[10..12]) && e.serial == Number(b[12..16])
    requires e.week == b[16] && e.year == BASE_YEAR + b[17] && e.version == b[18] && e.revision == b[19]
    requires e.display == Display(b[20], b[21], b[22], b[23], b[24])
    ensures IdentityBytes(e) == b[8..25]
  {
    SpreadNumber([b[9], b[8]]);
    SpreadNumber(b[10..12]);
    SpreadNumber(b[12..16]);
    assert Reversed(Spread(e.manufacturer, 2)) == b[8..10];
    Pieces(b, 8, 10, 12);
    Pieces(b, 8, 12, 16);
    assert [e.week, (e.year - BASE_YEAR) % 256, e.version, e.revision] == b[16..20];
    Pieces(b, 8, 16, 20);
    assert [e.display.input, e.display.widthCM, e.display.heightCM, e.display.gamma, e.display.feature] == b[20..25];
    Pieces(b, 8, 20, 25);
  }

  lemma BaseAssembled(b: seq<Byte>)
    requires |b| == BLOCK
    ensures b[0..8] + b[8..25] + b[25..35] + b[35..38] + b[38..54] + b[54..126] + [b[126]] == b[..BLOCK - 1]
  {
    Pieces(b, 0, 8, 25);
    Pieces(b, 0, 25, 35);
    Pieces(b, 0, 35, 38);
    Pieces(b, 0, 38, 54);
    Pieces(b, 0, 54, 126);
    assert [b[126]] == b[126..127];
    Pieces(b, 0, 126, 127);
  }

  /** The rest of the value does not enter the base block. */
  predicate SameBase(e: Edid, f: Edid) { e == f.(cta := e.cta, extension := e.extension) }

  lemma BaseRoundTrip(b: seq<Byte>, e: Edid)
    requires |b| == BLOCK && b[..8] == HEADER && SameBase(e, ParseBase(b))
    ensures EncodeBase(e) == Some(b[..BLOCK - 1])
  {
    IdentityRoundTrip(b, e);
    PairsRoundTrip(b, 38, STANDARD_COUNT);
    DescriptorsRoundTrip(b, 54, DESCRIPTOR_COUNT);
    BaseAssembled(b);
    assert b[0..8] == HEADER;
    var pairs, ds := FlatPairs(e.standard), EncodeAll(e.descriptors);
    assert pairs == b[38..54] && ds == b[54..126];
    assert EncodeBase(e) == Some(b[0..8] + b[8..25] + b[25..35] + b[35..38] + pairs + ds + [b[126]]);
  }

  // The whole.

  function ParseExtension(e: Edid, b: seq<Byte>): Result<Edid, Reject>
    requires |b| == BLOCK
  {
    if (e.extensions == 0 && !AllZero(b)) || (e.extensions == 1 && AllZero(b)) || e.extensions > 1
    then Err(BadExtensionCount)
    else if e.extensions == 0 then Ok(e)
    else if b[0] != CTA_TAG then Ok(e.(extension := b))
    else
      match ParseCta(b)
      case Err(r) => Err(r)
      case Ok(c) => Ok(e.(cta := Some(c)))
  }

  predicate HasTiming(e: Edid) { Clocked(e.descriptors) || (e.cta.Some? && Clocked(e.cta.value.dtds)) }

  predicate OldVersion(version: Byte, revision: Byte) { version < 1 || (version == 1 && revision < 3) }

  function Decode(data: seq<Byte>): Result<Edid, Reject> {
    if |data| > SIZE then Err(Oversize)
    else if |data| != SIZE then Err(BadSize)
    else if data[..8] != HEADER then Err(BadHeader)
    else if Total(data[..BLOCK]) != 0 || Total(data[BLOCK..]) != 0 then Err(BadChecksum)
    else if OldVersion(data[18], data[19]) then Err(BadVersion)
    else
      match ParseExtension(ParseBase(data[..BLOCK]), data[BLOCK..])
      case Err(r) => Err(r)
      case Ok(e) => if HasTiming(e) then Ok(e) else Err(NoTiming)
  }

  /** A copy into a zeroed block stops at its end. */
  function Fitted(s: seq<Byte>): (r: seq<Byte>)
    ensures |r| == BLOCK - 1
  {
    if |s| >= BLOCK - 1 then s[..BLOCK - 1] else s + Zeros(BLOCK - 1 - |s|)
  }

  function EncodeExtension(e: Edid): (r: Option<seq<Byte>>)
    ensures r.Some? ==> |r.value| == BLOCK - 1
  {
    if e.cta.None? then Some(Fitted(e.extension)) else EncodeCta(e.cta.value)
  }

  function Sealed(body: seq<Byte>): seq<Byte> { body + [Negated(Total(body))] }

  function Encode(e: Edid): Option<seq<Byte>> {
    var base, extension := EncodeBase(e), EncodeExtension(e);
    if base.None? || extension.None? then None else Some(Sealed(base.value) + Sealed(extension.value))
  }

  /** What the flash tool demands. */
  predicate Flashable(data: seq<Byte>) {
    && |data| == SIZE && data[..8] == HEADER
    && data[BLOCK - 1] == Negated(Total(data[..BLOCK - 1]))
    && data[SIZE - 1] == Negated(Total(data[BLOCK..SIZE - 1]))
  }

  lemma SealedIs(b: seq<Byte>)
    requires |b| == BLOCK && Total(b) == 0
    ensures Sealed(b[..BLOCK - 1]) == b
  {
    ChecksumIsLast(b);
  }

  lemma ExtensionRoundTrip(e: Edid, b: seq<Byte>)
    requires |b| == BLOCK && e.cta.None? && e.extension == [] && ParseExtension(e, b).Ok?
    ensures EncodeExtension(ParseExtension(e, b).value) == Some(b[..BLOCK - 1])
    ensures SameBase(ParseExtension(e, b).value, e)
  {
    if e.extensions == 0 {
      assert AllZero(b);
      assert Fitted([]) == b[..BLOCK - 1];
    } else if b[0] == CTA_TAG {
      CtaRoundTrip(b);
    }
  }

  /** Every accepted identification is written back byte for byte. */
  lemma RoundTrip(data: seq<Byte>)
    requires Decode(data).Ok?
    ensures Encode(Decode(data).value) == Some(data)
  {
    var base, ext := data[..BLOCK], data[BLOCK..];
    var parsed := ParseBase(base);
    assert base[..8] == data[..8];
    ExtensionRoundTrip(parsed, ext);
    BaseRoundTrip(base, Decode(data).value);
    SealedIs(base);
    SealedIs(ext);
    assert data == base + ext;
  }

  /** So two accepted identifications that read the same are the same. */
  lemma DecodeIsInjective(a: seq<Byte>, b: seq<Byte>)
    requires Decode(a).Ok? && Decode(a) == Decode(b)
    ensures a == b
  {
    RoundTrip(a);
    RoundTrip(b);
  }

  /** Whatever the decoder accepts, the flash tool accepts. */
  lemma AcceptedIsFlashable(data: seq<Byte>)
    requires Decode(data).Ok?
    ensures Flashable(data)
  {
    var base, ext := data[..BLOCK], data[BLOCK..];
    ChecksumIsLast(base);
    ChecksumIsLast(ext);
    assert base[..BLOCK - 1] == data[..BLOCK - 1] && ext[..BLOCK - 1] == data[BLOCK..SIZE - 1];
  }

  /** Whatever the encoder writes, edited or not, the flash tool accepts. */
  lemma EncodedIsFlashable(e: Edid)
    requires Encode(e).Some?
    ensures Flashable(Encode(e).value)
  {
    var base, extension, data := EncodeBase(e).value, EncodeExtension(e).value, Encode(e).value;
    assert data[..BLOCK] == Sealed(base) && data[BLOCK..] == Sealed(extension);
    assert data[..BLOCK - 1] == base && data[BLOCK..SIZE - 1] == extension;
    assert base[..8] == HEADER;
  }
}
