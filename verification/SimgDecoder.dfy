/** `write_simg.py`: an Android sparse image to a file or a block device. */
module SimgDecoder {
  import opened Bytes
  import opened ByteFile
  import opened SimgFormat

  datatype Problem =
    | NotABlockDevice | HeaderTooShort | BadMagic | BadVersion | BadHeaderSize | BadChunkHeaderSize
    | DeviceTooSmall | ChunkHeaderTooShort | BadRawSize | UnexpectedEnd | BadFillSize | MissingFill
    | BadDontCareSize | UnknownType | BlockCountMismatch | NoSpace | CannotTruncate

  datatype Result<T> = Ok(value: T) | Err(error: Problem)

  datatype ImageHeader = ImageHeader(bs: nat, blocks: nat, chunks: nat)

  const PIECE: nat := 1024 * 1024

  // ---- what the decoder does, as a function of the image and of what the device holds ----

  function ParseHeader(image: seq<byte>): Result<ImageHeader> {
    var h := ReadAt(image, 0, 28);
    if |h| < 28 then Err(HeaderTooShort)
    else if Field(h, 0, 4) != MAGIC then Err(BadMagic)
    else if Field(h, 4, 2) != 1 then Err(BadVersion)
    else if Field(h, 8, 2) != 28 then Err(BadHeaderSize)
    else if Field(h, 10, 2) != 12 then Err(BadChunkHeaderSize)
    else Ok(ImageHeader(Field(h, 12, 4), Field(h, 16, 4), Field(h, 20, 4)))
  }

  /** The image begins with a header of version 1 that says `h`. */
  ghost predicate HasHeader(image: seq<byte>, h: ImageHeader) {
    && |image| >= 28 && h.bs < Limit(4) && h.blocks < Limit(4) && h.chunks < Limit(4)
    && exists minor: nat, checksum: nat ::
      minor < Limit(2) && checksum < Limit(4) && image[..28] == AnyHeader(h.bs, h.blocks, h.chunks, minor, checksum)
  }

  lemma HeaderFront(minor: nat, back: seq<byte>, rest: seq<byte>)
    requires minor < Limit(2)
    ensures var h := LE(MAGIC, 4) + LE(1, 2) + LE(minor, 2) + LE(28, 2) + back + rest;
      && Field(h, 0, 4) == MAGIC && Field(h, 4, 2) == 1 && Field(h, 8, 2) == 28
  {
    Limits();
    var front := LE(MAGIC, 4) + LE(1, 2) + LE(minor, 2) + LE(28, 2);
    Fields4(LE(MAGIC, 4), LE(1, 2), LE(minor, 2), LE(28, 2));
    hide LE, Field;
    FrontField(front, back, rest, 0, MAGIC, 4);
    FrontField(front, back, rest, 4, 1, 2);
    FrontField(front, back, rest, 8, 28, 2);
  }

  lemma HeaderBack(front: seq<byte>, bs: nat, total: nat, chunks: nat, rest: seq<byte>)
    requires bs < Limit(4) && total < Limit(4) && chunks < Limit(4) && |front| == 10
    ensures var h := front + (LE(12, 2) + LE(bs, 4) + LE(total, 4) + LE(chunks, 4)) + rest;
      && Field(h, 10, 2) == 12 && Field(h, 12, 4) == bs && Field(h, 16, 4) == total && Field(h, 20, 4) == chunks
  {
    Limits();
    var back := LE(12, 2) + LE(bs, 4) + LE(total, 4) + LE(chunks, 4);
    Fields4(LE(12, 2), LE(bs, 4), LE(total, 4), LE(chunks, 4));
    hide LE, Field;
    BackField(front, back, rest, 0, 12, 2);
    BackField(front, back, rest, 2, bs, 4);
    BackField(front, back, rest, 6, total, 4);
    BackField(front, back, rest, 10, chunks, 4);
  }

  lemma HeaderFields(bs: nat, total: nat, chunks: nat, minor: nat, checksum: nat)
    requires bs < Limit(4) && total < Limit(4) && chunks < Limit(4) && minor < Limit(2) && checksum < Limit(4)
    ensures var h := AnyHeader(bs, total, chunks, minor, checksum);
      && Field(h, 0, 4) == MAGIC && Field(h, 4, 2) == 1 && Field(h, 8, 2) == 28 && Field(h, 10, 2) == 12
      && Field(h, 12, 4) == bs && Field(h, 16, 4) == total && Field(h, 20, 4) == chunks
  {
    HeaderFront(minor, LE(12, 2) + LE(bs, 4) + LE(total, 4) + LE(chunks, 4), LE(checksum, 4));
    HeaderBack(LE(MAGIC, 4) + LE(1, 2) + LE(minor, 2) + LE(28, 2), bs, total, chunks, LE(checksum, 4));
  }

  lemma FrontField(front: seq<byte>, back: seq<byte>, rest: seq<byte>, i: nat, n: nat, width: nat)
    requires i + width <= |front| && n < Limit(width) && front[i..i + width] == LE(n, width)
    ensures Field(front + back + rest, i, width) == n
  {
    SliceKeep(front, back, i, i + width);
    SliceKeep(front + back, rest, i, i + width);
    FieldOf(front + back + rest, i, n, width);
  }

  lemma BackField(front: seq<byte>, back: seq<byte>, rest: seq<byte>, i: nat, n: nat, width: nat)
    requires i + width <= |back| && n < Limit(width) && back[i..i + width] == LE(n, width)
    ensures Field(front + back + rest, |front| + i, width) == n
  {
    var j := |front| + i;
    SliceLast(front, back);
    SliceOfSlice(front + back, |front|, |back|, i, width);
    SliceKeep(front + back, rest, j, j + width);
    FieldOf(front + back + rest, j, n, width);
  }

  /** The bytes of a header that passes every test are a header again. */
  lemma FieldsHeader(b: seq<byte>)
    requires |b| == 28 && Field(b, 0, 4) == MAGIC && Field(b, 4, 2) == 1 && Field(b, 8, 2) == 28
    requires Field(b, 10, 2) == 12
    ensures var bs, total, chunks := Field(b, 12, 4), Field(b, 16, 4), Field(b, 20, 4);
      var minor, checksum := Field(b, 6, 2), Field(b, 24, 4);
      && bs < Limit(4) && total < Limit(4) && chunks < Limit(4) && minor < Limit(2) && checksum < Limit(4)
      && b == AnyHeader(bs, total, chunks, minor, checksum)
  {
    Limits();
    FromLERoundTrip(b[0..4]);
    FromLERoundTrip(b[4..6]);
    FromLERoundTrip(b[6..8]);
    FromLERoundTrip(b[8..10]);
    FromLERoundTrip(b[10..12]);
    FromLERoundTrip(b[12..16]);
    FromLERoundTrip(b[16..20]);
    FromLERoundTrip(b[20..24]);
    FromLERoundTrip(b[24..28]);
    hide LE, FromLE;
    NineSlices(b);
  }

  lemma NineSlices(b: seq<byte>)
    requires |b| == 28
    ensures b == (b[0..4] + b[4..6] + b[6..8] + b[8..10]) + (b[10..12] + b[12..16] + b[16..20] + b[20..24]) + b[24..28]
  {
    SliceJoin(b, 0, 4, 6);
    SliceJoin(b, 0, 6, 8);
    SliceJoin(b, 0, 8, 10);
    SliceJoin(b, 10, 12, 16);
    SliceJoin(b, 10, 16, 20);
    SliceJoin(b, 10, 20, 24);
    SliceJoin(b, 0, 10, 24);
    SliceJoin(b, 0, 24, 28);
    assert b[0..28] == b;
  }

  /** A header is accepted, and read as `h`, iff the image begins with one that says `h`. */
  lemma HeaderIff(image: seq<byte>, h: ImageHeader)
    ensures ParseHeader(image) == Ok(h) <==> HasHeader(image, h)
  {
    hide AnyHeader, Field;
    if |image| >= 28 {
      var b := image[..28];
      assert ReadAt(image, 0, 28) == b;
      if HasHeader(image, h) {
        var minor: nat, checksum: nat :| minor < Limit(2) && checksum < Limit(4)
          && b == AnyHeader(h.bs, h.blocks, h.chunks, minor, checksum);
        HeaderFields(h.bs, h.blocks, h.chunks, minor, checksum);
      }
      if ParseHeader(image) == Ok(h) { FieldsHeader(b); }
    }
  }

  function Repeat(b: seq<byte>, n: nat): (r: seq<byte>)
    ensures |r| == |b| * n
  {
    if n == 0 then [] else Repeat(b, n - 1) + b
  }

  /** What `blocks` fill blocks of a four-byte value come to. */
  function FillBytes(value: seq<byte>, bs: nat, blocks: nat): seq<byte> {
    Repeat(Repeat(value, bs / 4), blocks)
  }

  /** Where the decoder is: its place in the image, the block it has reached, how much it says it
      has written, and what the output holds. */
  datatype Spot = Spot(pos: nat, block: nat, written: nat, dev: seq<byte>)

  /** A device keeps its size. */
  predicate Fits(dev: seq<byte>, fixed: bool, offset: nat, d: seq<byte>) {
    !(fixed && d != [] && offset + |d| > |dev|)
  }

  /** Puts `d` where the record belongs and goes on behind the record. */
  function Put(s: Spot, fixed: bool, bs: nat, blocks: nat, d: seq<byte>, size: nat, counted: nat): Result<Spot> {
    var offset := At(s.block, bs);
    if !Fits(s.dev, fixed, offset, d) then Err(NoSpace)
    else Ok(Spot(s.pos + size, s.block + blocks, s.written + counted, Overwrite(s.dev, offset, d)))
  }

  function DecodeRaw(image: seq<byte>, s: Spot, fixed: bool, bs: nat, blocks: nat, total: nat): Result<Spot> {
    var n := At(blocks, bs);
    var d := ReadAt(image, s.pos + 12, n);
    if total != 12 + n then Err(BadRawSize)
    else if |d| != n then Err(UnexpectedEnd)
    else Put(s, fixed, bs, blocks, d, 12 + n, n)
  }

  function DecodeFill(image: seq<byte>, s: Spot, fixed: bool, bs: nat, blocks: nat, total: nat): Result<Spot> {
    var value := ReadAt(image, s.pos + 12, 4);
    if total != 16 then Err(BadFillSize)
    else if |value| != 4 then Err(MissingFill)
    else Put(s, fixed, bs, blocks, FillBytes(value, bs, blocks), 16, At(blocks, bs))
  }

  function DecodeDontCare(s: Spot, fixed: bool, zero: bool, bs: nat, blocks: nat, total: nat): Result<Spot> {
    if total != 12 then Err(BadDontCareSize)
    else if zero then Put(s, fixed, bs, blocks, FillBytes(LE(0, 4), bs, blocks), 12, At(blocks, bs))
    else Put(s, fixed, bs, blocks, [], 12, 0)
  }

  function DecodeChunk(image: seq<byte>, s: Spot, fixed: bool, zero: bool, bs: nat): Result<Spot> {
    var h := ReadAt(image, s.pos, 12);
    if |h| < 12 then Err(ChunkHeaderTooShort)
    else
      var kind, blocks, total := Field(h, 0, 2), Field(h, 4, 4), Field(h, 8, 4);
      if kind == RAW then DecodeRaw(image, s, fixed, bs, blocks, total)
      else if kind == FILL then DecodeFill(image, s, fixed, bs, blocks, total)
      else if kind == DONT_CARE then DecodeDontCare(s, fixed, zero, bs, blocks, total)
      else Err(UnknownType)
  }

  /** The first `k` records. */
  function DecodeChunks(image: seq<byte>, dev: seq<byte>, fixed: bool, zero: bool, bs: nat, k: nat): Result<Spot> {
    if k == 0 then Ok(Spot(28, 0, 0, dev))
    else
      var s := DecodeChunks(image, dev, fixed, zero, bs, k - 1);
      if s.Err? then s else DecodeChunk(image, s.value, fixed, zero, bs)
  }

  datatype Outcome = Outcome(written: nat, dev: seq<byte>)

  predicate TooSmall(h: ImageHeader, dev: seq<byte>) {
    |dev| < At(h.blocks, h.bs)
  }

  /** `dev` is what a device holds before; a file starts empty and gets the image's size. */
  function Decode(image: seq<byte>, dev: seq<byte>, isBlock: bool, zero: bool): Result<Outcome> {
    var h := ParseHeader(image);
    if h.Err? then Err(h.error)
    else
      var size := At(h.value.blocks, h.value.bs);
      if isBlock && TooSmall(h.value, dev) then Err(DeviceTooSmall)
      else
        var s := DecodeChunks(image, if isBlock then dev else [], isBlock, zero, h.value.bs, h.value.chunks);
        if s.Err? then Err(s.error)
        else if s.value.block != h.value.blocks then Err(BlockCountMismatch)
        else Ok(Outcome(s.value.written, if isBlock then s.value.dev else Window(s.value.dev, 0, size)))
  }

  // ---- the decoder ----

  method ReadHeader(src: File) returns (r: Result<ImageHeader>)
    requires src.pos == 0
    modifies src`pos
    ensures r == ParseHeader(src.bytes) && (r.Ok? ==> src.pos == 28)
    ensures forall h :: r == Ok(h) <==> HasHeader(src.bytes, h)
  {
    forall h: ImageHeader ensures ParseHeader(src.bytes) == Ok(h) <==> HasHeader(src.bytes, h) {
      HeaderIff(src.bytes, h);
    }
    hide HasHeader;
    var h := src.Read(28);
    if |h| < 28 { return Err(HeaderTooShort); }
    if Field(h, 0, 4) != MAGIC { return Err(BadMagic); }
    if Field(h, 4, 2) != 1 { return Err(BadVersion); }
    if Field(h, 8, 2) != 28 { return Err(BadHeaderSize); }
    if Field(h, 10, 2) != 12 { return Err(BadChunkHeaderSize); }
    r := Ok(ImageHeader(Field(h, 12, 4), Field(h, 16, 4), Field(h, 20, 4)));
  }

  /** `Overwrite` where nothing need be written is no write at all. */
  lemma OverwriteJoin(b: seq<byte>, pos: nat, d: seq<byte>, e: seq<byte>)
    ensures Overwrite(Overwrite(b, pos, d), pos + |d|, e) == Overwrite(b, pos, d + e)
  {
    hide Overwrite;
    var x, y := Overwrite(Overwrite(b, pos, d), pos + |d|, e), Overwrite(b, pos, d + e);
    if d == [] {
      assert d + e == e;
    } else if e == [] {
      assert d + e == d;
    } else {
      assert |x| == |y|;
      forall i | 0 <= i < |x| ensures x[i] == y[i] {}
    }
  }

  lemma ReadJoin(b: seq<byte>, pos: nat, done: nat, n: nat, total: nat)
    requires done + n <= total && (done > 0 ==> pos + done <= |b|)
    ensures |ReadAt(b, pos, done)| == done
    ensures |ReadAt(b, pos + done, n)| == n ==>
            ReadAt(b, pos, done + n) == ReadAt(b, pos, done) + ReadAt(b, pos + done, n)
    ensures |ReadAt(b, pos + done, n)| != n ==> |ReadAt(b, pos, total)| != total
  {}

  /** Writes a record's payload, a piece at a time. */
  method WriteRaw(src: File, dst: File, offset: nat, n: nat) returns (r: Result<nat>)
    requires src != dst && dst.Valid()
    modifies src`pos, dst
    ensures dst.Valid()
    ensures r.Ok? <==>
      && |ReadAt(src.bytes, old(src.pos), n)| == n
      && Fits(old(dst.bytes), dst.fixed, offset, ReadAt(src.bytes, old(src.pos), n))
    ensures r.Ok? ==>
      && r.value == n && src.pos == old(src.pos) + n
      && dst.bytes == Overwrite(old(dst.bytes), offset, ReadAt(src.bytes, old(src.pos), n))
    ensures r.Err? ==>
        if r.error == UnexpectedEnd then |ReadAt(src.bytes, old(src.pos), n)| != n else dst.fixed && r.error == NoSpace
  {
    hide Overwrite, ReadAt, Mark;
    ghost var start, was := src.pos, dst.bytes;
    dst.Seek(offset);
    var remaining := n;
    ReadNothing(src.bytes, start, was, offset);
    while remaining > 0
      invariant 0 <= remaining <= n && dst.Valid()
      invariant src.pos == start + n - remaining && dst.pos == offset + n - remaining
      invariant |ReadAt(src.bytes, start, n - remaining)| == n - remaining
      invariant n - remaining > 0 ==> src.pos <= |src.bytes|
      invariant dst.bytes == Overwrite(was, offset, ReadAt(src.bytes, start, n - remaining))
      invariant Fits(was, dst.fixed, offset, ReadAt(src.bytes, start, n - remaining))
    {
      var toRead := if PIECE < remaining then PIECE else remaining;
      ReadJoin(src.bytes, start, n - remaining, toRead, n);
      ghost var before := ReadAt(src.bytes, start, n - remaining);
      var d := src.Read(toRead);
      if |d| != toRead { return Err(UnexpectedEnd); }
      StillFits(was, dst.fixed, offset, before, d, n);
      OverwriteJoin(was, offset, before, d);
      var ok := dst.Write(d);
      if !ok { return Err(NoSpace); }
      ReadInside(src.bytes, src.pos - toRead, toRead);
      remaining := remaining - toRead;
    }
    r := Ok(n);
  }

  lemma ReadNothing(b: seq<byte>, pos: nat, was: seq<byte>, offset: nat)
    ensures ReadAt(b, pos, 0) == [] && Overwrite(was, offset, []) == was
  {}

  lemma ReadInside(b: seq<byte>, pos: nat, n: nat)
    requires n > 0 && |ReadAt(b, pos, n)| == n
    ensures pos + n <= |b|
  {}

  lemma StillFits(was: seq<byte>, fixed: bool, offset: nat, before: seq<byte>, d: seq<byte>, n: nat)
    requires d != [] && Fits(was, fixed, offset, before) && |before| + |d| <= n
    ensures Fits(was, fixed, offset, before + d) == Fits(Overwrite(was, offset, before), fixed, offset + |before|, d)
    ensures !Fits(was, fixed, offset, before + d) ==> forall e: seq<byte> :: |e| == n ==> !Fits(was, fixed, offset, e)
  {}

  lemma RepeatJoin(b: seq<byte>, n: nat)
    ensures Repeat(b, n + 1) == Repeat(b, n) + b && Repeat(b, 0) == [] && |Repeat(b, n)| == |b| * n
  {}

  /** Writes the same block over and over. */
  method WriteBlocks(dst: File, offset: nat, block: seq<byte>, blocks: nat) returns (ok: bool)
    requires dst.Valid()
    modifies dst
    ensures dst.Valid() && ok == Fits(old(dst.bytes), dst.fixed, offset, Repeat(block, blocks))
    ensures ok ==> dst.bytes == Overwrite(old(dst.bytes), offset, Repeat(block, blocks))
  {
    hide Overwrite, Mark, Repeat;
    ghost var was := dst.bytes;
    dst.Seek(offset);
    RepeatJoin(block, 0);
    for k := 0 to blocks
      invariant dst.Valid() && dst.pos == offset + |block| * k && |Repeat(block, k)| == |block| * k
      invariant Fits(was, dst.fixed, offset, Repeat(block, k))
      invariant dst.bytes == Overwrite(was, offset, Repeat(block, k))
    {
      RepeatJoin(block, k);
      RepeatGrows(block, k + 1, blocks);
      if block != [] { StillFits(was, dst.fixed, offset, Repeat(block, k), block, |Repeat(block, blocks)|); }
      OverwriteJoin(was, offset, Repeat(block, k), block);
      assert |block| * (k + 1) == |block| * k + |block|;
      assert block == [] ==> Repeat(block, k) + block == Repeat(block, k);
      ok := dst.Write(block);
      if !ok { return; }
    }
    ok := true;
  }

  lemma RepeatGrows(b: seq<byte>, m: nat, n: nat)
    requires m <= n
    ensures |b| * m <= |Repeat(b, n)| == |b| * n
  {
    var d := n - m;
    assert |b| * n == |b| * m + |b| * d;
  }

  /** A step of the decoder did what the function says.  Which of two failures a full device and a
      damaged image meet first is left open. */
  ghost predicate Did(r: Result<nat>, spec: Result<Spot>, fixed: bool, pos: nat, block: nat, written: nat,
                      dev: seq<byte>) {
    && r.Ok? == spec.Ok?
    && (r.Ok? ==> spec.value == Spot(pos, block, written + r.value, dev))
    && (r.Err? ==> r.error == spec.error || (fixed && r.error == NoSpace))
  }

  method WriteRawChunk(src: File, dst: File, blocks: nat, total: nat, block: nat, bs: nat, ghost written: nat)
    returns (r: Result<nat>)
    requires src != dst && dst.Valid() && src.pos >= 12
    modifies src`pos, dst
    ensures dst.Valid()
    ensures Did(r, DecodeRaw(src.bytes, Spot(old(src.pos) - 12, block, written, old(dst.bytes)), dst.fixed, bs, blocks,
                             total),
      dst.fixed, src.pos, block + blocks, written, dst.bytes)
  {
    hide Overwrite, ReadAt;
    var n := blocks * bs;
    if total != 12 + n { return Err(BadRawSize); }
    r := WriteRaw(src, dst, block * bs, n);
  }

  method WriteFillChunk(src: File, dst: File, blocks: nat, total: nat, block: nat, bs: nat, ghost written: nat)
    returns (r: Result<nat>)
    requires src != dst && dst.Valid() && src.pos >= 12
    modifies src`pos, dst
    ensures dst.Valid()
    ensures Did(r, DecodeFill(src.bytes, Spot(old(src.pos) - 12, block, written, old(dst.bytes)), dst.fixed, bs,
                              blocks, total),
      dst.fixed, src.pos, block + blocks, written, dst.bytes)
  {
    hide Overwrite, ReadAt, Repeat;
    if total != 16 { return Err(BadFillSize); }
    var value := src.Read(4);
    if |value| != 4 { return Err(MissingFill); }
    var ok := WriteBlocks(dst, block * bs, Repeat(value, bs / 4), blocks);
    if !ok { return Err(NoSpace); }
    r := Ok(blocks * bs);
  }

  method WriteDontCareChunk(src: File, dst: File, blocks: nat, total: nat, block: nat, bs: nat, zero: bool,
                            ghost written: nat) returns (r: Result<nat>)
    requires src != dst && dst.Valid() && src.pos >= 12
    modifies dst
    ensures dst.Valid()
    ensures Did(r, DecodeDontCare(Spot(src.pos - 12, block, written, old(dst.bytes)), dst.fixed, zero, bs, blocks,
                                  total),
      dst.fixed, src.pos, block + blocks, written, dst.bytes)
  {
    hide Overwrite, Repeat;
    if total != 12 { return Err(BadDontCareSize); }
    if !zero { return Ok(0); }
    Limits();
    var ok := WriteBlocks(dst, block * bs, Repeat(LE(0, 4), bs / 4), blocks);
    if !ok { return Err(NoSpace); }
    r := Ok(blocks * bs);
  }

  method WriteChunk(src: File, dst: File, block: nat, bs: nat, zero: bool, ghost written: nat)
    returns (r: Result<nat>, blocks: nat)
    requires src != dst && dst.Valid()
    modifies src`pos, dst
    ensures dst.Valid()
    ensures Did(r, DecodeChunk(src.bytes, Spot(old(src.pos), block, written, old(dst.bytes)), dst.fixed, zero, bs),
      dst.fixed, src.pos, block + blocks, written, dst.bytes)
  {
    hide DecodeRaw, DecodeFill, DecodeDontCare, FromLE;
    blocks := 0;
    var h := src.Read(12);
    if |h| < 12 { return Err(ChunkHeaderTooShort), 0; }
    var kind, size, total := Field(h, 0, 2), Field(h, 4, 4), Field(h, 8, 4);
    blocks := size;
    if kind == RAW {
      r := WriteRawChunk(src, dst, blocks, total, block, bs, written);
    } else if kind == FILL {
      r := WriteFillChunk(src, dst, blocks, total, block, bs, written);
    } else if kind == DONT_CARE {
      r := WriteDontCareChunk(src, dst, blocks, total, block, bs, zero, written);
    } else {
      r := Err(UnknownType);
    }
  }

  /** `dst` is a device of fixed size or an ordinary file; `isBlock` says which the caller takes it for. */
  method WriteSimg(src: File, dst: File, isBlock: bool, zero: bool) returns (r: Result<nat>)
    requires src != dst && dst.Valid() && src.pos == 0
    modifies src`pos, dst
    ensures isBlock && !dst.fixed ==> r == Err(NotABlockDevice) && dst.bytes == old(dst.bytes)
    ensures !isBlock && dst.fixed ==> r.Err?
    ensures isBlock && (ParseHeader(src.bytes).Err? || TooSmall(ParseHeader(src.bytes).value, old(dst.bytes))) ==>
            dst.bytes == old(dst.bytes)
    ensures isBlock == dst.fixed ==>
      var spec := Decode(src.bytes, old(dst.bytes), isBlock, zero);
      && r.Ok? == spec.Ok?
      && (r.Ok? ==> spec.value == Outcome(r.value, dst.bytes))
      && (r.Err? ==> r.error == spec.error || (isBlock && r.error == NoSpace))
  {
    hide DecodeChunk, ParseHeader, HasHeader;
    if isBlock && !dst.fixed { return Err(NotABlockDevice); }
    if !isBlock { dst.Truncated(); }
    ghost var before := dst.bytes;
    var h := ReadHeader(src);
    if h.Err? { return Err(h.error); }
    var bs, image := h.value.bs, h.value.blocks * h.value.bs;
    if isBlock && |dst.bytes| < image { return Err(DeviceTooSmall); }
    var written: nat, block: nat := 0, 0;
    for k := 0 to h.value.chunks
      invariant dst.Valid()
      invariant DecodeChunks(src.bytes, before, dst.fixed, zero, bs, k) == Ok(Spot(src.pos, block, written, dst.bytes))
    {
      var done, blocks := WriteChunk(src, dst, block, bs, zero, written);
      if done.Err? {
        StaysFailed(src.bytes, before, dst.fixed, zero, bs, k + 1, h.value.chunks);
        return done;
      }
      written, block := written + done.value, block + blocks;
    }
    if block != h.value.blocks { return Err(BlockCountMismatch); }
    if !isBlock {
      if dst.fixed { return Err(CannotTruncate); }
      dst.Resize(image);
    }
    r := Ok(written);
  }

  lemma {:induction false} StaysFailed(image: seq<byte>, dev: seq<byte>, fixed: bool, zero: bool, bs: nat, k: nat,
                                       n: nat)
    requires k <= n && DecodeChunks(image, dev, fixed, zero, bs, k).Err?
    ensures DecodeChunks(image, dev, fixed, zero, bs, n) == DecodeChunks(image, dev, fixed, zero, bs, k)
  {
    hide DecodeChunk;
    if k < n { StaysFailed(image, dev, fixed, zero, bs, k, n - 1); }
  }
}
