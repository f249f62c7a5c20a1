/**
 * Which identifications are accepted, told on their bytes, and where each field comes from.
 */
module EdidMeaning {
  import opened Wrappers
  import opened Bytes
  import opened EdidTiming
  import opened Edid

  // Sums as numbers.

  function Plain(s: seq<Byte>): nat { if s == [] then 0 else Plain(s[..|s| - 1]) + s[|s| - 1] }

  lemma {:induction false} TotalIsSum(s: seq<Byte>)
    ensures Total(s) == Plain(s) % 256
  {
    if s != [] {
      TotalIsSum(s[..|s| - 1]);
    }
  }

  // Rows of descriptors.

  function ChunkAt(b: seq<Byte>, at: nat, i: nat): Chunk
    requires at + DESCRIPTOR_SIZE * (i + 1) <= |b|
  {
    b[at + DESCRIPTOR_SIZE * i..at + DESCRIPTOR_SIZE * (i + 1)]
  }

  lemma {:induction false} ChunkedIs<D>(b: seq<Byte>, at: nat, n: nat, read: Chunk -> D, i: nat)
    requires at + DESCRIPTOR_SIZE * n <= |b| && i < n
    ensures Chunked(b, at, n, read)[i] == read(ChunkAt(b, at, i))
  {
    if i < n - 1 {
      ChunkedIs(b, at, n - 1, read, i);
    }
  }

  /** A descriptor is a timing unless its first three bytes are zero; then its tag says what it is. */
  lemma DescriptorKinds(b: Chunk)
    ensures var d, tagged := ParseDescriptor(b), b[0] == 0 && b[1] == 0 && b[2] == 0;
      && d.raw == b
      && (d.kind.TimingKind? <==> !tagged) && (d.timing.Some? <==> !tagged)
      && (!tagged ==> d.timing.value.clockKHz == 10 * Wide(b[0], b[1]))
      && (d.kind.Serial? <==> tagged && b[3] == 0xFF)
      && (d.kind.NameKind? <==> tagged && b[3] == 0xFC)
      && (d.kind.RangeLimits? <==> tagged && b[3] == 0xFD)
      && (d.kind.EstablishedIII? <==> tagged && b[3] == 0xF7)
      && (d.kind.Dummy? <==> tagged && b[3] == 0x10)
  {
  }

  predicate HasClock(b: seq<Byte>, at: nat, i: nat)
    requires at + DESCRIPTOR_SIZE * (i + 1) <= |b|
  {
    ChunkAt(b, at, i)[0] != 0 || ChunkAt(b, at, i)[1] != 0
  }

  lemma ClockedIs(b: seq<Byte>, at: nat, n: nat)
    requires at + DESCRIPTOR_SIZE * n <= |b|
    ensures Clocked(ParseDescriptors(b, at, n)) <==> exists i :: 0 <= i < n && HasClock(b, at, i)
  {
    var ds := ParseDescriptors(b, at, n);
    forall i | 0 <= i < n
      ensures ds[i].kind.TimingKind? && ds[i].timing.Some? && ds[i].timing.value.clockKHz > 0 <==> HasClock(b, at, i)
    {
      ChunkedIs(b, at, n, ParseDescriptor, i);
      DescriptorKinds(ChunkAt(b, at, i));
    }
  }

  // The extension block.

  /** One data block: its length in the low five bits, and room for what its tag needs. */
  predicate Row(raw: seq<Byte>) {
    && |raw| > 0 && |raw| == 1 + raw[0] % 32
    && (raw[0] / 32 == 3 ==> |raw| >= 4) && (raw[0] / 32 == 4 || raw[0] / 32 == 7 ==> |raw| >= 2)
  }

  predicate Rows(rows: seq<seq<Byte>>) { forall i :: 0 <= i < |rows| ==> Row(rows[i]) }

  function Joined(rows: seq<seq<Byte>>): seq<Byte> { if rows == [] then [] else rows[0] + Joined(rows[1..]) }

  ghost predicate InRows(s: seq<Byte>) { exists rows :: Rows(rows) && Joined(rows) == s }

  lemma {:induction false} BlocksAreRows(b: seq<Byte>, cursor: nat, offset: nat)
    requires cursor <= offset <= |b| && ParseBlocks(b, cursor, offset).Some?
    ensures InRows(b[cursor..offset])
    decreases |b| - cursor
  {
    if cursor == offset {
      assert Rows([]) && Joined([]) == b[cursor..offset];
    } else {
      var end := BlockEnd(b, cursor);
      BlocksAreRows(b, end, offset);
      var rest :| Rows(rest) && Joined(rest) == b[end..offset];
      var rows := [b[cursor..end]] + rest;
      assert rows[1..] == rest && b[cursor..end] + b[end..offset] == b[cursor..offset];
      assert Rows(rows) && Joined(rows) == b[cursor..offset];
    }
  }

  lemma {:induction false} RowsAreBlocks(b: seq<Byte>, cursor: nat, offset: nat, rows: seq<seq<Byte>>)
    requires cursor <= offset <= |b| && Rows(rows) && Joined(rows) == b[cursor..offset]
    ensures ParseBlocks(b, cursor, offset).Some?
    decreases |rows|
  {
    if rows != [] {
      var raw, rest := rows[0], rows[1..];
      var end := cursor + |raw|;
      assert b[cursor..offset][0] == raw[0] == b[cursor];
      assert raw == b[cursor..offset][..|raw|] == b[cursor..end];
      assert Joined(rest) == b[cursor..offset][|raw|..] == b[end..offset];
      RowsAreBlocks(b, end, offset, rest);
    } else {
      assert b[cursor..offset] == [];
      assert cursor == offset;
    }
  }

  /** The timings are every descriptor up to the first run of zeros, or the end of their region. */
  lemma {:induction false} DtdsAre(b: seq<Byte>, at: nat)
    requires |b| == BLOCK && at <= BLOCK - 1
    ensures var n := DtdCount(b, at);
      && at + DESCRIPTOR_SIZE * n <= BLOCK
      && (forall i :: 0 <= i < n ==> !AllZero(ChunkAt(b, at, i)))
      && (at + DESCRIPTOR_SIZE * (n + 1) <= DTD_END ==> AllZero(ChunkAt(b, at, n)))
    decreases |b| - at
  {
    if at + DESCRIPTOR_SIZE <= DTD_END && !AllZero(b[at..at + DESCRIPTOR_SIZE]) {
      var next := at + DESCRIPTOR_SIZE;
      DtdsAre(b, next);
      var n := DtdCount(b, next);
      forall i | 0 <= i < n + 1 ensures !AllZero(ChunkAt(b, at, i)) {
        if i > 0 {
          assert ChunkAt(b, at, i) == ChunkAt(b, next, i - 1);
        }
      }
      if at + DESCRIPTOR_SIZE * (n + 2) <= DTD_END {
        assert ChunkAt(b, at, n + 1) == ChunkAt(b, next, n);
      }
    }
  }

  function TimingsEnd(b: seq<Byte>): nat
    requires |b| == BLOCK
  {
    b[2] + DESCRIPTOR_SIZE * DtdCount(b, b[2])
  }

  /** Revision 3, data blocks that fill their region exactly, timings, and zeros up to the checksum. */
  ghost predicate GoodCta(b: seq<Byte>)
    requires |b| == BLOCK
  {
    && b[1] >= 3 && 4 <= b[2] <= 127 && InRows(b[4..b[2]])
    && forall i :: TimingsEnd(b) <= i < BLOCK - 1 ==> b[i] == 0
  }

  lemma CtaAcceptedExactlyWhen(b: seq<Byte>)
    requires |b| == BLOCK
    ensures ParseCta(b).Ok? <==> GoodCta(b)
    ensures ParseCta(b).Ok? ==> ParseCta(b).value.dtds == ParseDescriptors(b, b[2], DtdCount(b, b[2]))
  {
    if b[1] >= 3 && 4 <= b[2] <= 127 {
      if ParseBlocks(b, 4, b[2]).Some? {
        BlocksAreRows(b, 4, b[2]);
      }
      if InRows(b[4..b[2]]) {
        var rows :| Rows(rows) && Joined(rows) == b[4..b[2]];
        RowsAreBlocks(b, 4, b[2], rows);
      }
      DtdsAre(b, b[2]);
      var end := TimingsEnd(b);
      if end <= BLOCK - 1 {
        var padding := b[end..BLOCK - 1];
        assert forall k :: 0 <= k < |padding| ==> padding[k] == b[end + k];
        assert forall i :: end <= i < BLOCK - 1 ==> b[i] == padding[i - end];
      }
    }
  }

  // The whole.

  /** Byte 126 says whether there is an extension, and there is one exactly when it says so. */
  ghost predicate GoodExtension(count: Byte, b: seq<Byte>)
    requires |b| == BLOCK
  {
    if AllZero(b) then count == 0 else count == 1 && (b[0] == CTA_TAG ==> GoodCta(b))
  }

  /** Some detailed timing has a pixel clock. */
  predicate Timed(base: seq<Byte>, count: Byte, ext: seq<Byte>)
    requires |base| == |ext| == BLOCK
  {
    || (exists i :: 0 <= i < DESCRIPTOR_COUNT && HasClock(base, 54, i))
    || (count == 1 && ext[0] == CTA_TAG && ext[2] <= BLOCK - 1
        && exists i :: 0 <= i < DtdCount(ext, ext[2]) && HasClock(ext, ext[2], i))
  }

  ghost predicate Good(data: seq<Byte>) {
    && |data| == SIZE && data[..8] == HEADER
    && Plain(data[..BLOCK]) % 256 == 0 && Plain(data[BLOCK..]) % 256 == 0
    && Wide(data[19], data[18]) >= 0x103
    && GoodExtension(data[126], data[BLOCK..])
    && Timed(data[..BLOCK], data[126], data[BLOCK..])
  }

  /** Accepted: the right size, header and sums, at least version 1.3, one extension or none, and a timing. */
  lemma AcceptedExactlyWhen(data: seq<Byte>)
    ensures Decode(data).Ok? <==> Good(data)
  {
    if |data| == SIZE {
      var base, ext := data[..BLOCK], data[BLOCK..];
      TotalIsSum(base);
      TotalIsSum(ext);
      ClockedIs(base, 54, DESCRIPTOR_COUNT);
      CtaAcceptedExactlyWhen(ext);
      if ext[2] <= BLOCK - 1 {
        DtdsAre(ext, ext[2]);
        ClockedIs(ext, ext[2], DtdCount(ext, ext[2]));
      }
    }
  }

  lemma {:induction false} PairsAre(b: seq<Byte>, at: nat, n: nat, i: nat)
    requires at + 2 * n <= |b| && i < n
    ensures ParsePairs(b, at, n)[i] == b[at + 2 * i..at + 2 * i + 2]
  {
    if i < n - 1 {
      PairsAre(b, at, n - 1, i);
    }
  }

  lemma NumbersAre(b: seq<Byte>)
    requires |b| == BLOCK
    ensures Number([b[9], b[8]]) == Wide(b[9], b[8]) && Number(b[10..12]) == Wide(b[10], b[11])
    ensures Number(b[12..16]) == Wide(b[12], Wide(b[13], Wide(b[14], b[15])))
  {
    PairIs(b[9], b[8]);
    PairIs(b[10], b[11]);
    assert b[10..12] == [b[10], b[11]];
    PairIs(b[14], b[15]);
    assert b[14..16] == [b[14], b[15]] && b[12..16][1..] == b[13..16] && b[13..16][1..] == b[14..16];
  }

  lemma PairIs(low: Byte, high: Byte)
    ensures Number([low, high]) == Wide(low, high)
  {
    var one := [high];
    assert one[1..] == [] && Number(one) == high;
    assert [low, high][1..] == one;
  }

  /** Where the fields of the base block are: the numbers of who made it, */
  lemma IdentityIs(b: seq<Byte>)
    requires |b| == BLOCK
    ensures ParseBase(b).manufacturer == Wide(b[9], b[8]) && ParseBase(b).product == Wide(b[10], b[11])
    ensures ParseBase(b).serial == Wide(b[12], Wide(b[13], Wide(b[14], b[15])))
  {
    NumbersAre(b);
  }

  /** the single bytes, */
  lemma BytesAre(b: seq<Byte>, e: Edid)
    requires |b| == BLOCK && e == ParseBase(b)
    ensures e.week == b[16] && e.year - 1990 == b[17] && e.version == b[18] && e.revision == b[19]
    ensures e.display.input == b[20] && e.display.widthCM == b[21] && e.display.heightCM == b[22]
    ensures e.display.gamma == b[23] && e.display.feature == b[24] && e.extensions == b[126]
    ensures e.chroma == b[25..35] && e.established == b[35..38]
  {
  }

  /** and the rows. */
  lemma RowsOfFieldsAre(b: seq<Byte>, i: nat)
    requires |b| == BLOCK
    ensures |ParseBase(b).standard| == STANDARD_COUNT && |ParseBase(b).descriptors| == DESCRIPTOR_COUNT
    ensures i < STANDARD_COUNT ==> ParseBase(b).standard[i] == b[38 + 2 * i..38 + 2 * i + 2]
    ensures i < DESCRIPTOR_COUNT ==> ParseBase(b).descriptors[i] == ParseDescriptor(ChunkAt(b, 54, i))
  {
    if i < STANDARD_COUNT {
      PairsAre(b, 38, STANDARD_COUNT, i);
    }
    if i < DESCRIPTOR_COUNT {
      ChunkedIs(b, 54, DESCRIPTOR_COUNT, ParseDescriptor, i);
    }
  }

  /** An accepted identification is its base block and, if there is one, its extension, read or kept whole. */
  lemma AcceptedIsBoth(data: seq<Byte>)
    requires Decode(data).Ok?
    ensures |data| == SIZE && SameBase(Decode(data).value, ParseBase(data[..BLOCK]))
    ensures var e, ext := Decode(data).value, data[BLOCK..];
      if data[126] == 0 then e.cta.None? && e.extension == []
      else if ext[0] == CTA_TAG then ParseCta(ext) == (if e.cta.Some? then Ok(e.cta.value) else Err(BadCta))
      else e.cta.None? && e.extension == ext
  {
  }
}
