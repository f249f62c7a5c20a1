/**
 * The packed eighteen-byte detailed timing and the descriptors that hold it. Bytes are integers:
 * a shift is a division or multiplication by a power of two, a mask is a remainder, and an OR of
 * fields that share no bit is their sum.
 */
module EdidTiming {
  import opened Bytes

  const DESCRIPTOR_SIZE: nat := 18

  datatype SyncKind = AnalogComposite | BipolarAnalogComposite | DigitalComposite | DigitalSeparate

  const SYNC_KINDS: seq<SyncKind> := [AnalogComposite, BipolarAnalogComposite, DigitalComposite, DigitalSeparate]

  datatype Timing = Timing(
    clockKHz: nat,
    hActive: nat, hBlank: nat, vActive: nat, vBlank: nat,
    hSyncOffset: nat, hSyncWidth: nat, vSyncOffset: nat, vSyncWidth: nat,
    widthMM: nat, heightMM: nat, hBorder: nat, vBorder: nat,
    interlaced: bool, stereo: nat, sync: SyncKind, hSyncPositive: bool, vSyncPositive: bool)

  function Bit(b: Byte, weight: nat): nat
    requires weight > 0
  {
    (b / weight) % 2
  }

  function Wide(low: nat, high: nat): nat { low + 256 * high }

  function ParseTiming(b: seq<Byte>): Timing
    requires |b| == DESCRIPTOR_SIZE
  {
    Timing(
      Wide(b[0], b[1]) * 10,
      Wide(b[2], b[4] / 16), Wide(b[3], b[4] % 16),
      Wide(b[5], b[7] / 16), Wide(b[6], b[7] % 16),
      Wide(b[8], b[11] / 64), Wide(b[9], (b[11] / 16) % 4),
      b[10] / 16 + 16 * ((b[11] / 4) % 4), b[10] % 16 + 16 * (b[11] % 4),
      Wide(b[12], b[14] / 16), Wide(b[13], b[14] % 16), b[15], b[16],
      Bit(b[17], 128) == 1,
      Stereo(b[17]),
      Sync(b[17]),
      Bit(b[17], 2) == 1, Bit(b[17], 4) == 1)
  }

  /** The conversions to a byte and to sixteen bits keep the low bits. */
  function Low(n: nat): Byte { n % 256 }

  function Nibbles(first: nat, second: nat): Byte { Low(16 * Low(first / 256)) + (second / 256) % 16 }

  function SyncCode(k: SyncKind): nat {
    match k
    case AnalogComposite => 0
    case BipolarAnalogComposite => 1
    case DigitalComposite => 2
    case DigitalSeparate => 3
  }

  function Flag(on: bool, weight: nat): nat { if on then weight else 0 }

  function FlagByte(interlaced: bool, stereo: nat, sync: SyncKind, v: bool, h: bool): Byte {
    Flag(interlaced, 128) + 32 * ((stereo / 2) % 4) + stereo % 2 + 8 * SyncCode(sync) + Flag(v, 4) + Flag(h, 2)
  }

  /** The low four bits of the vertical sync pair, and the high two bits of all four. */
  function SyncLow(vo: nat, vw: nat): Byte { 16 * (vo % 16) + vw % 16 }

  function SyncHigh(ho: nat, hw: nat, vo: nat, vw: nat): Byte {
    64 * ((ho / 256) % 4) + 16 * ((hw / 256) % 4) + 4 * ((vo / 16) % 4) + (vw / 16) % 4
  }

  function Stereo(f: Byte): nat { 2 * ((f / 32) % 4) + Bit(f, 1) }

  function Sync(f: Byte): SyncKind { SYNC_KINDS[(f / 8) % 4] }

  function EncodeTiming(t: Timing): (b: seq<Byte>)
    ensures |b| == DESCRIPTOR_SIZE
  {
    var clock := (t.clockKHz / 10) % 0x10000;
    [ Low(clock), clock / 256,
      Low(t.hActive), Low(t.hBlank), Nibbles(t.hActive, t.hBlank),
      Low(t.vActive), Low(t.vBlank), Nibbles(t.vActive, t.vBlank),
      Low(t.hSyncOffset), Low(t.hSyncWidth),
      SyncLow(t.vSyncOffset, t.vSyncWidth),
      SyncHigh(t.hSyncOffset, t.hSyncWidth, t.vSyncOffset, t.vSyncWidth),
      Low(t.widthMM), Low(t.heightMM), Nibbles(t.widthMM, t.heightMM),
      Low(t.hBorder), Low(t.vBorder),
      FlagByte(t.interlaced, t.stereo, t.sync, t.vSyncPositive, t.hSyncPositive) ]
  }

  // Each packing undone.

  lemma WideUndone(low: Byte, high: nat)
    ensures Low(Wide(low, high)) == low && Wide(low, high) / 256 == high
  {
  }

  lemma NibblesUndone(a: Byte, b: Byte, packed: Byte)
    ensures Nibbles(Wide(a, packed / 16), Wide(b, packed % 16)) == packed
  {
    WideUndone(a, packed / 16);
    WideUndone(b, packed % 16);
    var x := packed / 16;
    assert x < 16;
    assert Low(x) == x && Low(16 * x) == 16 * x;
  }

  lemma QuarterOf(n: nat)
    ensures n / 16 == (n / 4) / 4 && n / 4 == (n / 2) / 2 && n / 8 == (n / 2) / 4
  {
  }

  /** A byte is its four two-bit digits. */
  lemma Digits(p: Byte)
    ensures p == 64 * (p / 64) + 16 * ((p / 16) % 4) + 4 * ((p / 4) % 4) + p % 4 && p / 64 < 4
  {
    var q := p / 4;
    QuarterOf(p);
    QuarterOf(q);
    assert p / 64 == q / 16;
    assert p == 4 * q + p % 4;
    assert q == 4 * (q / 4) + q % 4;
    assert q / 4 == 4 * (q / 16) + (q / 4) % 4;
  }

  lemma SyncLowUndone(v: Byte, p: Byte)
    ensures SyncLow(v / 16 + 16 * ((p / 4) % 4), v % 16 + 16 * (p % 4)) == v
  {
    NibbleParts(v / 16, (p / 4) % 4);
    NibbleParts(v % 16, p % 4);
  }

  lemma SyncHighIs(a: Byte, b: Byte, v: nat, w: nat, h1: nat, h2: nat, h3: nat, h4: nat)
    requires v < 16 && w < 16 && h1 < 4 && h2 < 4 && h3 < 4 && h4 < 4
    ensures SyncHigh(Wide(a, h1), Wide(b, h2), v + 16 * h3, w + 16 * h4) == 64 * h1 + 16 * h2 + 4 * h3 + h4
  {
    WideUndone(a, h1);
    WideUndone(b, h2);
    NibbleParts(v, h3);
    NibbleParts(w, h4);
  }

  lemma SyncHighUndone(a: Byte, b: Byte, v: Byte, p: Byte)
    ensures SyncHigh(Wide(a, p / 64), Wide(b, (p / 16) % 4), v / 16 + 16 * ((p / 4) % 4), v % 16 + 16 * (p % 4)) == p
  {
    Digits(p);
    SyncHighIs(a, b, v / 16, v % 16, p / 64, (p / 16) % 4, (p / 4) % 4, p % 4);
  }

  lemma NibbleParts(low: nat, high: nat)
    requires low < 16 && high < 4
    ensures (low + 16 * high) % 16 == low && ((low + 16 * high) / 16) % 4 == high
  {
  }

  lemma BitSplit(f: Byte)
    ensures f == 128 * Bit(f, 128) + 32 * ((f / 32) % 4) + 8 * ((f / 8) % 4) + 4 * Bit(f, 4) + 2 * Bit(f, 2) + Bit(f, 1)
  {
    var q := f / 2;
    assert f == 2 * q + Bit(f, 1);
    assert q / 64 == f / 128 && f / 128 == Bit(f, 128);
    assert f / 32 == q / 16;
    assert f / 8 == q / 4 && f / 4 == q / 2;
    Digits(q);
    assert q % 4 == 2 * ((q / 2) % 2) + q % 2;
  }

  lemma FlagByteIs(i: nat, st: nat, k: nat, v: nat, h: nat, l: nat)
    requires i < 2 && st < 4 && k < 4 && v < 2 && h < 2 && l < 2
    ensures FlagByte(i == 1, 2 * st + l, SYNC_KINDS[k], v == 1, h == 1) == 128 * i + 32 * st + 8 * k + 4 * v + 2 * h + l
  {
    assert SyncCode(SYNC_KINDS[k]) == k;
    assert (2 * st + l) / 2 == st && (2 * st + l) % 2 == l;
  }

  lemma FlagsUndone(f: Byte)
    ensures FlagByte(Bit(f, 128) == 1, Stereo(f), Sync(f), Bit(f, 4) == 1, Bit(f, 2) == 1) == f
  {
    BitSplit(f);
    FlagByteIs(Bit(f, 128), (f / 32) % 4, (f / 8) % 4, Bit(f, 4), Bit(f, 2), Bit(f, 1));
  }

  lemma ClockUndone(w: nat)
    requires w < 0x10000
    ensures ((w * 10) / 10) % 0x10000 == w
  {
  }

  function Packed(b: seq<Byte>): (r: seq<Byte>)
    requires |b| == DESCRIPTOR_SIZE
    ensures |r| == DESCRIPTOR_SIZE
  {
    EncodeTiming(ParseTiming(b))
  }

  lemma ClockBytes(b: seq<Byte>)
    requires |b| == DESCRIPTOR_SIZE
    ensures Packed(b)[0] == b[0] && Packed(b)[1] == b[1]
  {
    ClockUndone(Wide(b[0], b[1]));
    WideUndone(b[0], b[1]);
  }

  lemma HorizontalBytes(b: seq<Byte>)
    requires |b| == DESCRIPTOR_SIZE
    ensures Packed(b)[2] == b[2] && Packed(b)[3] == b[3] && Packed(b)[4] == b[4]
  {
    NibblesUndone(b[2], b[3], b[4]);
    WideUndone(b[2], b[4] / 16);
    WideUndone(b[3], b[4] % 16);
  }

  lemma VerticalBytes(b: seq<Byte>)
    requires |b| == DESCRIPTOR_SIZE
    ensures Packed(b)[5] == b[5] && Packed(b)[6] == b[6] && Packed(b)[7] == b[7]
  {
    NibblesUndone(b[5], b[6], b[7]);
    WideUndone(b[5], b[7] / 16);
    WideUndone(b[6], b[7] % 16);
  }

  lemma SyncBytes(b: seq<Byte>)
    requires |b| == DESCRIPTOR_SIZE
    ensures Packed(b)[8] == b[8] && Packed(b)[9] == b[9] && Packed(b)[10] == b[10] && Packed(b)[11] == b[11]
  {
    SyncLowUndone(b[10], b[11]);
    SyncHighUndone(b[8], b[9], b[10], b[11]);
    WideUndone(b[8], b[11] / 64);
    WideUndone(b[9], (b[11] / 16) % 4);
  }

  lemma SizeBytes(b: seq<Byte>)
    requires |b| == DESCRIPTOR_SIZE
    ensures Packed(b)[12] == b[12] && Packed(b)[13] == b[13] && Packed(b)[14] == b[14]
  {
    NibblesUndone(b[12], b[13], b[14]);
    WideUndone(b[12], b[14] / 16);
    WideUndone(b[13], b[14] % 16);
  }

  lemma BorderAndFlagBytes(b: seq<Byte>)
    requires |b| == DESCRIPTOR_SIZE
    ensures Packed(b)[15] == b[15] && Packed(b)[16] == b[16] && Packed(b)[17] == b[17]
  {
    FlagsUndone(b[17]);
  }

  /** Every eighteen bytes, read as a timing and packed again, are the same bytes. */
  lemma TimingRoundTrip(b: seq<Byte>)
    requires |b| == DESCRIPTOR_SIZE
    ensures EncodeTiming(ParseTiming(b)) == b
  {
    ClockBytes(b);
    HorizontalBytes(b);
    VerticalBytes(b);
    SyncBytes(b);
    SizeBytes(b);
    BorderAndFlagBytes(b);
    AllBytes(Packed(b), b);
  }

  lemma AllBytes(r: seq<Byte>, b: seq<Byte>)
    requires |r| == |b| == 18
    requires r[0] == b[0] && r[1] == b[1] && r[2] == b[2] && r[3] == b[3] && r[4] == b[4] && r[5] == b[5]
    requires r[6] == b[6] && r[7] == b[7] && r[8] == b[8] && r[9] == b[9] && r[10] == b[10] && r[11] == b[11]
    requires r[12] == b[12] && r[13] == b[13] && r[14] == b[14] && r[15] == b[15] && r[16] == b[16] && r[17] == b[17]
    ensures r == b
  {
  }
}
