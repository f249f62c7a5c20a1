/** The decoder's and the encoder's cursor loops, and the flash tool's check, against the definitions in Edid. */
module EdidBuffers {
  import opened Wrappers
  import opened Bytes
  import opened EdidTiming
  import opened Edid

  /** Two eight-bit accumulators, as the flash tool keeps them. */
  method CheckEdid(data: seq<Byte>) returns (ok: bool)
    ensures ok <==> Flashable(data)
  {
    if |data| != SIZE || data[..8] != HEADER {
      return false;
    }
    var first := SumOf(data[..BLOCK - 1]);
    if Negated(first) != data[BLOCK - 1] {
      return false;
    }
    var second := SumOf(data[BLOCK..SIZE - 1]);
    return Negated(second) == data[SIZE - 1];
  }

  function Joined(blocks: seq<CtaBlock>, rest: Option<seq<CtaBlock>>): Option<seq<CtaBlock>> {
    if rest.None? then None else Some(blocks + rest.value)
  }

  lemma JoinedStep(blocks: seq<CtaBlock>, block: CtaBlock, rest: Option<seq<CtaBlock>>)
    ensures Joined(blocks, Joined([block], rest)) == Joined(blocks + [block], rest)
  {
    if rest.Some? {
      assert blocks + ([block] + rest.value) == (blocks + [block]) + rest.value;
    }
  }

  lemma ParseBlocksStep(b: seq<Byte>, cursor: nat, offset: nat)
    requires cursor < offset <= |b| && BlockEnd(b, cursor) <= offset && BlockOk(b[cursor..BlockEnd(b, cursor)])
    ensures ParseBlocks(b, cursor, offset)
         == Joined([CtaBlock(b[cursor] / 32, b[cursor..BlockEnd(b, cursor)])],
                   ParseBlocks(b, BlockEnd(b, cursor), offset))
  {
  }

  method ReadBlocks(b: seq<Byte>, offset: nat) returns (r: Option<seq<CtaBlock>>)
    requires 4 <= offset <= |b|
    ensures r == ParseBlocks(b, 4, offset)
  {
    var blocks: seq<CtaBlock> := [];
    var cursor := 4;
    assert ParseBlocks(b, 4, offset).Some? ==> [] + ParseBlocks(b, 4, offset).value == ParseBlocks(b, 4, offset).value;
    while cursor < offset
      invariant 4 <= cursor <= offset
      invariant ParseBlocks(b, 4, offset) == Joined(blocks, ParseBlocks(b, cursor, offset))
    {
      var end := cursor + 1 + b[cursor] % 32;
      if end > offset || !BlockOk(b[cursor..end]) {
        return None;
      }
      var block := CtaBlock(b[cursor] / 32, b[cursor..end]);
      ParseBlocksStep(b, cursor, offset);
      JoinedStep(blocks, block, ParseBlocks(b, end, offset));
      blocks := blocks + [block];
      cursor := end;
    }
    assert blocks + [] == blocks;
    return Some(blocks);
  }

  /** For any reading of one chunk. */
  method ReadDtds<D>(b: seq<Byte>, offset: nat, read: Chunk -> D) returns (dtds: seq<D>, cursor: nat)
    requires |b| == BLOCK && offset <= BLOCK - 1
    ensures cursor == offset + DESCRIPTOR_SIZE * DtdCount(b, offset) <= BLOCK - 1
    ensures dtds == Chunked(b, offset, DtdCount(b, offset), read)
  {
    dtds, cursor := [], offset;
    ghost var n := 0;
    while cursor + DESCRIPTOR_SIZE <= DTD_END
      invariant cursor == offset + DESCRIPTOR_SIZE * n <= BLOCK - 1
      invariant dtds == Chunked(b, offset, n, read)
      invariant DtdCount(b, offset) == n + DtdCount(b, cursor)
      decreases BLOCK - cursor
    {
      var chunk := b[cursor..cursor + DESCRIPTOR_SIZE];
      if AllZero(chunk) {
        return;
      }
      dtds := dtds + [read(chunk)];
      cursor := cursor + DESCRIPTOR_SIZE;
      n := n + 1;
    }
  }

  method ReadCta(b: seq<Byte>) returns (r: Result<Cta, Reject>)
    requires |b| == BLOCK
    ensures r == ParseCta(b)
  {
    var offset := b[2];
    if b[1] < 3 || offset < 4 || offset > 127 {
      return Err(BadCta);
    }
    var blocks := ReadBlocks(b, offset);
    if blocks.None? {
      return Err(BadCta);
    }
    var dtds, cursor := ReadDtds(b, offset, ParseDescriptor);
    var padding := b[cursor..BLOCK - 1];
    if !AllZero(padding) {
      return Err(BadCta);
    }
    return Ok(Cta(b[1], b[2], b[3], blocks.value, dtds, padding));
  }

  // Writing.

  /** What a copy of `src` to position `at` leaves; it stops at the end of the buffer. */
  function Copied(dst: seq<Byte>, at: nat, src: seq<Byte>): (r: seq<Byte>)
    requires at <= |dst|
    ensures |r| == |dst|
  {
    if at + |src| <= |dst| then dst[..at] + src + dst[at + |src|..] else dst[..at] + src[..|dst| - at]
  }

  method Copy(dst: array<Byte>, at: nat, src: seq<Byte>)
    requires at <= dst.Length
    modifies dst
    ensures dst[..] == Copied(old(dst[..]), at, src)
  {
    var i := 0;
    while i < |src| && at + i < dst.Length
      invariant i <= |src| && at + i <= dst.Length
      invariant dst[..at] == old(dst[..at]) && dst[at..at + i] == src[..i]
      invariant dst[at + i..] == old(dst[at + i..])
    {
      dst[at + i] := src[i];
      i := i + 1;
    }
    assert dst[..] == dst[..at] + dst[at..at + i] + dst[at + i..];
    assert i == |src| ==> src[..i] == src;
  }

  /** The written part, then zeros. */
  predicate Filled(s: seq<Byte>, written: seq<Byte>) {
    |written| <= |s| && s[..|written|] == written && AllZero(s[|written|..])
  }

  lemma FilledByCopy(s: seq<Byte>, written: seq<Byte>, src: seq<Byte>)
    requires Filled(s, written) && |written| + |src| <= |s|
    ensures Filled(Copied(s, |written|, src), written + src)
  {
    var r := Copied(s, |written|, src);
    assert r[..|written + src|] == written + src;
    forall i | 0 <= i < |r[|written + src|..]| ensures r[|written + src|..][i] == 0 {
      assert r[|written + src|..][i] == s[|written|..][|src| + i];
    }
  }

  lemma {:induction false} RawsAppend(blocks: seq<CtaBlock>, block: CtaBlock)
    ensures Raws(blocks + [block]) == Raws(blocks) + block.raw
  {
    if blocks == [] {
      assert (blocks + [block])[1..] == [];
      assert [] + block.raw == block.raw + [];
    } else {
      assert (blocks + [block])[1..] == blocks[1..] + [block];
      RawsAppend(blocks[1..], block);
      assert Raws(blocks) == blocks[0].raw + Raws(blocks[1..]);
    }
  }

  lemma {:induction false} RawsGrow(blocks: seq<CtaBlock>, i: nat)
    requires i <= |blocks|
    ensures |Raws(blocks[..i])| <= |Raws(blocks)|
    decreases |blocks| - i
  {
    if i == |blocks| {
      assert blocks[..i] == blocks;
    } else {
      assert blocks[..i + 1] == blocks[..i] + [blocks[i]];
      RawsAppend(blocks[..i], blocks[i]);
      RawsGrow(blocks, i + 1);
    }
  }

  /** A block that runs past the buffer fails later in the source, in a check or a slice; it is refused here at once. */
  method WriteBlocks(dst: array<Byte>, head: seq<Byte>, blocks: seq<CtaBlock>, limit: nat) returns (ok: bool)
    requires dst.Length == BLOCK && |head| == 4 && Filled(dst[..], head)
    modifies dst
    ensures ok ==> 4 + |Raws(blocks)| == limit && limit <= BLOCK && Filled(dst[..], head + Raws(blocks))
    ensures !ok ==> 4 + |Raws(blocks)| != limit || limit > BLOCK
  {
    var offset := 4;
    var i := 0;
    assert head + [] == head;
    while i < |blocks|
      invariant i <= |blocks| && offset == 4 + |Raws(blocks[..i])| <= BLOCK
      invariant Filled(dst[..], head + Raws(blocks[..i]))
    {
      var raw := blocks[i].raw;
      RawsGrow(blocks, i + 1);
      assert blocks[..i + 1] == blocks[..i] + [blocks[i]];
      RawsAppend(blocks[..i], blocks[i]);
      if offset + |raw| > limit || offset + |raw| > BLOCK {
        return false;
      }
      FilledByCopy(dst[..], head + Raws(blocks[..i]), raw);
      Copy(dst, offset, raw);
      assert head + Raws(blocks[..i]) + raw == head + Raws(blocks[..i + 1]);
      offset := offset + |raw|;
      i := i + 1;
    }
    assert blocks[..i] == blocks;
    return offset == limit;
  }

  method WriteDtds<D>(dst: array<Byte>, at: nat, ds: seq<D>, write: D -> Chunk, ghost written: seq<Byte>)
    returns (ok: bool)
    requires dst.Length == BLOCK && at == |written| && Filled(dst[..], written)
    modifies dst
    ensures ok <==> ds == [] || |written| + DESCRIPTOR_SIZE * |ds| <= DTD_END
    ensures ok ==> Filled(dst[..], written + Flat(ds, write))
  {
    var offset := at;
    var i := 0;
    assert written + [] == written;
    while i < |ds|
      invariant i <= |ds| && offset == |written| + DESCRIPTOR_SIZE * i
      invariant i > 0 ==> offset <= DTD_END
      invariant Filled(dst[..], written + Flat(ds[..i], write))
    {
      if offset + DESCRIPTOR_SIZE > DTD_END {
        return false;
      }
      ghost var sofar := Flat(ds[..i], write);
      FilledByCopy(dst[..], written + sofar, write(ds[i]));
      Copy(dst, offset, write(ds[i]));
      assert ds[..i + 1][..i] == ds[..i];
      assert written + sofar + write(ds[i]) == written + (sofar + write(ds[i]));
      offset := offset + DESCRIPTOR_SIZE;
      i := i + 1;
    }
    assert ds[..i] == ds;
    return true;
  }

  lemma FilledIs(s: seq<Byte>, written: seq<Byte>)
    requires |s| == BLOCK && Filled(s, written) && |written| <= BLOCK - 1
    ensures s[..BLOCK - 1] == written + Zeros(BLOCK - 1 - |written|)
  {
    forall i | |written| <= i < BLOCK - 1 ensures s[i] == 0 {
      assert s[i] == s[|written|..][i - |written|];
    }
    assert s[..BLOCK - 1] == s[..|written|] + s[|written|..BLOCK - 1];
  }

  method WriteCta(dst: array<Byte>, c: Cta) returns (ok: bool)
    requires dst.Length == BLOCK && AllZero(dst[..])
    modifies dst
    ensures ok <==> EncodeCta(c).Some?
    ensures ok ==> dst[..BLOCK - 1] == EncodeCta(c).value
  {
    var head := [CTA_TAG, c.revision, c.dtdOffset, c.flags];
    FilledByCopy(dst[..], [], head);
    assert [] + head == head;
    Copy(dst, 0, head);
    ok := WriteBlocks(dst, head, c.blocks, c.dtdOffset);
    if !ok {
      return;
    }
    ghost var upto := head + Raws(c.blocks);
    ok := WriteDtds(dst, c.dtdOffset, c.dtds, EncodeDescriptor, upto);
    var offset := c.dtdOffset + DESCRIPTOR_SIZE * |c.dtds|;
    if !ok || offset + |c.padding| > BLOCK - 1 {
      return false;
    }
    WritePadding(dst, offset, c.padding, upto + Flat(c.dtds, EncodeDescriptor));
  }

  method WritePadding(dst: array<Byte>, at: nat, padding: seq<Byte>, ghost written: seq<Byte>)
    requires dst.Length == BLOCK && at == |written| && at + |padding| <= BLOCK - 1 && Filled(dst[..], written)
    modifies dst
    ensures dst[..BLOCK - 1] == written + padding + Zeros(BLOCK - 1 - at - |padding|)
  {
    FilledByCopy(dst[..], written, padding);
    Copy(dst, at, padding);
    FilledIs(dst[..], written + padding);
  }

  /** The extension block in a zeroed buffer, with its checksum in the last byte. */
  method WriteExtension(e: Edid) returns (ok: bool, block: seq<Byte>)
    ensures ok <==> EncodeExtension(e).Some?
    ensures ok ==> block == Sealed(EncodeExtension(e).value)
  {
    var dst := new Byte[BLOCK](i => 0);
    if e.cta.None? {
      FilledByCopy(dst[..], [], Fitted(e.extension));
      Copy(dst, 0, Fitted(e.extension));
      FilledIs(dst[..], Fitted(e.extension));
      ok := true;
    } else {
      ok := WriteCta(dst, e.cta.value);
    }
    block := [];
    if ok {
      var total := SumOf(dst[..BLOCK - 1]);
      dst[BLOCK - 1] := Negated(total);
      block := dst[..];
    }
  }
}
