/** Which images `write_simg` takes, whoever wrote them, and what it makes of them. */
module SimgAccepts {
  import opened Bytes
  import opened ByteFile
  import opened SimgFormat
  import opened SimgDecoder
  import opened SimgRoundTrip

  // ---- one record ----

  /** A record whose fields hold its numbers and whose payload fills its blocks. */
  predicate Whole(c: Chunk, bs: nat) {
    c.Fits() && (c.Raw? ==> |c.payload| == At(c.blocks, bs))
  }

  ghost predicate StandsAt(image: seq<byte>, pos: nat, c: Chunk, bs: nat) {
    Whole(c, bs) && exists reserved: nat :: reserved < Limit(2) && HasAt(image, pos, AnyRecord(c, reserved))
  }

  /** The bytes of a chunk header are those of one that says what its fields say. */
  lemma FieldsChunkHeader(b: seq<byte>)
    requires |b| == 12
    ensures Field(b, 0, 2) < Limit(2) && Field(b, 2, 2) < Limit(2)
    ensures Field(b, 4, 4) < Limit(4) && Field(b, 8, 4) < Limit(4)
    ensures b == ChunkHeader(Field(b, 0, 2), Field(b, 2, 2), Field(b, 4, 4), Field(b, 8, 4))
  {
    FromLERoundTrip(b[0..2]);
    FromLERoundTrip(b[2..4]);
    FromLERoundTrip(b[4..8]);
    FromLERoundTrip(b[8..12]);
    hide LE, FromLE;
    SliceJoin(b, 0, 2, 4);
    SliceJoin(b, 0, 4, 8);
    SliceJoin(b, 0, 8, 12);
    assert b[0..12] == b;
  }

  /** What a record taken for `c` by its fields and payload consists of. */
  lemma StandsIf(image: seq<byte>, pos: nat, c: Chunk, bs: nat, h: seq<byte>, body: seq<byte>)
    requires h == ReadAt(image, pos, 12) && |h| == 12 && Whole(c, bs)
    requires Field(h, 0, 2) == c.Type() && Field(h, 4, 4) == c.blocks && Field(h, 8, 4) == c.TotalSize()
    requires body ==
      (match c case Raw(_, payload) => payload case Fill(_, value) => LE(value, 4) case DontCare(_) => [])
    requires body != [] ==> ReadAt(image, pos + 12, |body|) == body
    ensures StandsAt(image, pos, c, bs)
  {
    FieldsChunkHeader(h);
    var reserved := Field(h, 2, 2);
    hide ChunkHeader, Field, LE;
    assert AnyRecord(c, reserved) == h + body;
    assert image[pos..pos + |h + body|] == h + body by { if body == [] { assert h + body == h; } }
    assert HasAt(image, pos, AnyRecord(c, reserved));
  }

  /** Whatever passes the checks is a record. */
  lemma ReadsRecord(image: seq<byte>, s: Spot, fixed: bool, zero: bool, bs: nat) returns (c: Chunk)
    requires DecodeChunk(image, s, fixed, zero, bs).Ok?
    ensures StandsAt(image, s.pos, c, bs)
  {
    hide Put;
    Limits();
    var h := ReadAt(image, s.pos, 12);
    FieldsChunkHeader(h);
    var kind, blocks, total := Field(h, 0, 2), Field(h, 4, 4), Field(h, 8, 4);
    hide Field, ChunkHeader, FromLE, LE;
    if kind == RAW {
      c := Raw(blocks, ReadAt(image, s.pos + 12, At(blocks, bs)));
      StandsIf(image, s.pos, c, bs, h, c.payload);
    } else if kind == FILL {
      var value := ReadAt(image, s.pos + 12, 4);
      FromLERoundTrip(value);
      c := Fill(blocks, FromLE(value));
      StandsIf(image, s.pos, c, bs, h, value);
    } else {
      c := DontCare(blocks);
      StandsIf(image, s.pos, c, bs, h, []);
    }
  }

  lemma LaidFits(c: Chunk, zero: bool, bs: nat)
    requires Whole(c, bs)
    ensures |Laid(c, zero, bs)| <= At(c.blocks, bs)
  {
    var k := bs / 4 * 4;
    assert k <= bs;
    assert k * c.blocks <= bs * c.blocks;
  }

  lemma StandsDecodes(image: seq<byte>, s: Spot, c: Chunk, fixed: bool, zero: bool, bs: nat)
    requires StandsAt(image, s.pos, c, bs)
    ensures DecodeChunk(image, s, fixed, zero, bs) ==
      Put(s, fixed, bs, c.blocks, Laid(c, zero, bs), c.TotalSize(),
          if c.DontCare? && !zero then 0 else At(c.blocks, bs))
  {
    hide DecodeChunk, AnyRecord, Put, Laid;
    var reserved: nat :| reserved < Limit(2) && HasAt(image, s.pos, AnyRecord(c, reserved));
    RecordDecodes(image, s, c, reserved, fixed, zero, bs);
  }

  /** Where there is room, it is laid down. */
  lemma StandsIsPut(image: seq<byte>, s: Spot, c: Chunk, fixed: bool, zero: bool, bs: nat)
    requires StandsAt(image, s.pos, c, bs) && (fixed ==> At(s.block + c.blocks, bs) <= |s.dev|)
    ensures DecodeChunk(image, s, fixed, zero, bs) ==
      Ok(Spot(s.pos + c.TotalSize(), s.block + c.blocks,
              s.written + (if c.DontCare? && !zero then 0 else At(c.blocks, bs)),
              Overwrite(s.dev, At(s.block, bs), Laid(c, zero, bs))))
  {
    StandsDecodes(image, s, c, fixed, zero, bs);
    LaidFits(c, zero, bs);
    AtAdd(s.block, c.blocks, bs);
    hide DecodeChunk, StandsAt, Laid, At, Overwrite;
  }

  // ---- a list of them ----

  function SizeOf(cs: seq<Chunk>): nat {
    if cs == [] then 0 else SizeOf(cs[..|cs| - 1]) + cs[|cs| - 1].TotalSize()
  }

  /** The records stand one behind the other after the header. */
  ghost predicate Lined(image: seq<byte>, cs: seq<Chunk>, bs: nat) {
    cs == [] || (Lined(image, cs[..|cs| - 1], bs) && StandsAt(image, 28 + SizeOf(cs[..|cs| - 1]), cs[|cs| - 1], bs))
  }

  /** How much is said to be written. */
  function Counted(cs: seq<Chunk>, zero: bool, bs: nat): nat {
    if cs == [] then 0
    else
      var c := cs[|cs| - 1];
      Counted(cs[..|cs| - 1], zero, bs) + (if c.DontCare? && !zero then 0 else At(c.blocks, bs))
  }

  /** What the records make of what was there: each lays its bytes at its blocks. */
  function Overlaid(dev: seq<byte>, cs: seq<Chunk>, zero: bool, bs: nat): seq<byte> {
    if cs == [] then dev
    else
      var before := cs[..|cs| - 1];
      Overwrite(Overlaid(dev, before, zero, bs), At(BlocksOf(before), bs), Laid(cs[|cs| - 1], zero, bs))
  }

  lemma {:induction false} OverlaidSize(image: seq<byte>, dev: seq<byte>, cs: seq<Chunk>, zero: bool, bs: nat)
    requires Lined(image, cs, bs)
    ensures |Overlaid(dev, cs, zero, bs)| >= |dev|
    ensures |Overlaid(dev, cs, zero, bs)| <= if |dev| > At(BlocksOf(cs), bs) then |dev| else At(BlocksOf(cs), bs)
  {
    if cs != [] {
      var before, c := cs[..|cs| - 1], cs[|cs| - 1];
      AtAdd(BlocksOf(before), c.blocks, bs);
      OverlaidSize(image, dev, before, zero, bs);
      LaidFits(c, zero, bs);
      hide At, Laid, Overwrite, AnyRecord;
    }
  }

  lemma LastRecord(image: seq<byte>, dev: seq<byte>, cs: seq<Chunk>, zero: bool, bs: nat)
    requires cs != [] && Lined(image, cs, bs)
    ensures var before, c := cs[..|cs| - 1], cs[|cs| - 1];
      && Lined(image, before, bs) && StandsAt(image, 28 + SizeOf(before), c, bs) == true
      && SizeOf(cs) == SizeOf(before) + c.TotalSize() && BlocksOf(cs) == BlocksOf(before) + c.blocks
      && Counted(cs, zero, bs) == Counted(before, zero, bs) + (if c.DontCare? && !zero then 0 else At(c.blocks, bs))
      && Overlaid(dev, cs, zero, bs)
         == Overwrite(Overlaid(dev, before, zero, bs), At(BlocksOf(before), bs), Laid(c, zero, bs))
  {
    hide StandsAt, Laid, At, Overwrite;
  }

  lemma NoRecord(image: seq<byte>, dev: seq<byte>, fixed: bool, zero: bool, bs: nat)
    ensures DecodeChunks(image, dev, fixed, zero, bs, 0) == Ok(Spot(28, 0, 0, dev))
    ensures SizeOf([]) == BlocksOf([]) == Counted([], zero, bs) == 0 && Overlaid(dev, [], zero, bs) == dev
    ensures Lined(image, [], bs)
  {}

  lemma NextChunk(image: seq<byte>, dev: seq<byte>, fixed: bool, zero: bool, bs: nat, k: nat)
    requires k > 0 && DecodeChunks(image, dev, fixed, zero, bs, k - 1).Ok?
    ensures DecodeChunks(image, dev, fixed, zero, bs, k)
         == DecodeChunk(image, DecodeChunks(image, dev, fixed, zero, bs, k - 1).value, fixed, zero, bs)
  {}

  /** The records are read one after the other, if a device has room for all of them. */
  lemma {:induction false} LinedDecode(image: seq<byte>, dev: seq<byte>, cs: seq<Chunk>, fixed: bool, zero: bool,
                                       bs: nat)
    requires Lined(image, cs, bs) && (fixed ==> At(BlocksOf(cs), bs) <= |dev|)
    ensures DecodeChunks(image, dev, fixed, zero, bs, |cs|) ==
      Ok(Spot(28 + SizeOf(cs), BlocksOf(cs), Counted(cs, zero, bs), Overlaid(dev, cs, zero, bs)))
  {
    hide DecodeChunk, DecodeChunks, Lined, SizeOf, BlocksOf, Counted, Overlaid, StandsAt, Laid, Overwrite;
    if cs == [] {
      NoRecord(image, dev, fixed, zero, bs);
    } else {
      var before, c := cs[..|cs| - 1], cs[|cs| - 1];
      LastRecord(image, dev, cs, zero, bs);
      AtAdd(BlocksOf(before), c.blocks, bs);
      hide At;
      LinedDecode(image, dev, before, fixed, zero, bs);
      OverlaidSize(image, dev, before, zero, bs);
      NextChunk(image, dev, fixed, zero, bs, |cs|);
      StandsIsPut(image, DecodeChunks(image, dev, fixed, zero, bs, |before|).value, c, fixed, zero, bs);
    }
  }

  lemma LinedSnoc(image: seq<byte>, before: seq<Chunk>, c: Chunk, bs: nat)
    requires Lined(image, before, bs) && StandsAt(image, 28 + SizeOf(before), c, bs) == true
    ensures Lined(image, before + [c], bs)
    ensures SizeOf(before + [c]) == SizeOf(before) + c.TotalSize()
    ensures BlocksOf(before + [c]) == BlocksOf(before) + c.blocks
  {
    hide StandsAt;
    assert (before + [c])[..|before|] == before;
  }

  /** What decodes is such a list. */
  lemma {:induction false} DecodedIsLined(image: seq<byte>, dev: seq<byte>, fixed: bool, zero: bool, bs: nat, k: nat)
      returns (cs: seq<Chunk>)
    requires DecodeChunks(image, dev, fixed, zero, bs, k).Ok?
    ensures |cs| == k && Lined(image, cs, bs)
    ensures var s := DecodeChunks(image, dev, fixed, zero, bs, k).value;
      s.pos == 28 + SizeOf(cs) && s.block == BlocksOf(cs)
  {
    hide DecodeChunk, DecodeChunks, Lined, SizeOf, BlocksOf, StandsAt, Laid, Overwrite, At;
    if k == 0 {
      cs := [];
      NoRecord(image, dev, fixed, zero, bs);
    } else {
      LessDecoded(image, dev, fixed, zero, bs, k);
      var before := DecodedIsLined(image, dev, fixed, zero, bs, k - 1);
      NextChunk(image, dev, fixed, zero, bs, k);
      var s := DecodeChunks(image, dev, fixed, zero, bs, k - 1).value;
      var c := ReadsRecord(image, s, fixed, zero, bs);
      StandsDecodes(image, s, c, fixed, zero, bs);
      LinedSnoc(image, before, c, bs);
      cs := before + [c];
    }
  }

  lemma LessDecoded(image: seq<byte>, dev: seq<byte>, fixed: bool, zero: bool, bs: nat, k: nat)
    requires k > 0 && DecodeChunks(image, dev, fixed, zero, bs, k).Ok?
    ensures DecodeChunks(image, dev, fixed, zero, bs, k - 1).Ok?
  {}

  // ---- the whole image ----

  /** The blocks in order: payloads, values over and over, and zeros. */
  function Contents(cs: seq<Chunk>, bs: nat): (b: seq<byte>) {
    if cs == [] then []
    else
      var c := cs[|cs| - 1];
      Contents(cs[..|cs| - 1], bs) + Window(Laid(c, true, bs), 0, At(c.blocks, bs))
  }

  lemma ContentsLast(cs: seq<Chunk>, bs: nat)
    ensures Contents([], bs) == []
    ensures cs != [] ==> var c := cs[|cs| - 1];
      Contents(cs, bs) == Contents(cs[..|cs| - 1], bs) + Window(Laid(c, true, bs), 0, At(c.blocks, bs))
  {
    hide Laid, At;
  }

  lemma {:induction false} FileContents(image: seq<byte>, cs: seq<Chunk>, zero: bool, bs: nat)
    requires Lined(image, cs, bs)
    ensures var n := At(BlocksOf(cs), bs);
      |Overlaid([], cs, zero, bs)| <= n && Window(Overlaid([], cs, zero, bs), 0, n) == Contents(cs, bs)
  {
    hide Laid, Overlaid, Contents, BlocksOf, Lined;
    ContentsLast(cs, bs);
    if cs == [] {
      NoRecord(image, [], false, zero, bs);
      assert At(0, bs) == 0;
    } else {
      var before, c := cs[..|cs| - 1], cs[|cs| - 1];
      LastRecord(image, [], cs, zero, bs);
      assert Whole(c, bs);
      AtAdd(BlocksOf(before), c.blocks, bs);
      hide At;
      FileContents(image, before, zero, bs);
      LaidFits(c, zero, bs);
      LaidPadded(c, zero, bs);
      OverlaidNext(Overlaid([], before, zero, bs), At(BlocksOf(before), bs), Laid(c, zero, bs), At(c.blocks, bs));
    }
  }

  lemma LaidPadded(c: Chunk, zero: bool, bs: nat)
    ensures Window(Laid(c, zero, bs), 0, At(c.blocks, bs)) == Window(Laid(c, true, bs), 0, At(c.blocks, bs))
  {
    hide At, FillSize;
  }

  lemma OverlaidNext(b: seq<byte>, m: nat, d: seq<byte>, n: nat)
    requires |b| <= m && |d| <= n
    ensures |Overwrite(b, m, d)| <= m + n
    ensures Window(Overwrite(b, m, d), 0, m + n) == Window(b, 0, m) + Window(d, 0, n)
  {
    hide Overwrite;
  }

  /** `cs` are the records of an image whose header says `h`. */
  ghost predicate Consists(image: seq<byte>, h: ImageHeader, cs: seq<Chunk>) {
    HasHeader(image, h) && |cs| == h.chunks && Lined(image, cs, h.bs) && BlocksOf(cs) == h.blocks
  }

  /** An image is taken iff it consists of a header, as many whole records as that says, and blocks as many as
      that says; and a device must be large enough. */
  lemma AcceptsIff(image: seq<byte>, dev: seq<byte>, isBlock: bool, zero: bool)
    ensures Decode(image, dev, isBlock, zero).Ok? <==>
      exists h, cs :: Consists(image, h, cs) && (isBlock ==> At(h.blocks, h.bs) <= |dev|)
  {
    hide DecodeChunks, Lined, ParseHeader, HasHeader, At;
    if Decode(image, dev, isBlock, zero).Ok? {
      var h := ParseHeader(image).value;
      HeaderIff(image, h);
      var cs := DecodedIsLined(image, if isBlock then dev else [], isBlock, zero, h.bs, h.chunks);
      assert Consists(image, h, cs);
    }
    if h, cs :| Consists(image, h, cs) && (isBlock ==> At(h.blocks, h.bs) <= |dev|) {
      Decoded(image, dev, isBlock, zero, h, cs);
    }
  }

  /** A file then holds the contents of the records; a device what they lay over what it held. */
  lemma Decoded(image: seq<byte>, dev: seq<byte>, isBlock: bool, zero: bool, h: ImageHeader, cs: seq<Chunk>)
    requires Consists(image, h, cs) && (isBlock ==> At(h.blocks, h.bs) <= |dev|)
    ensures Decode(image, dev, isBlock, zero) ==
      Ok(Outcome(Counted(cs, zero, h.bs), if isBlock then Overlaid(dev, cs, zero, h.bs) else Contents(cs, h.bs)))
  {
    hide DecodeChunks, Lined, ParseHeader, HasHeader, At, Overlaid, Contents;
    HeaderIff(image, h);
    LinedDecode(image, if isBlock then dev else [], cs, isBlock, zero, h.bs);
    FileContents(image, cs, zero, h.bs);
  }
}
