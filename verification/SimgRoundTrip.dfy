/** What `write_simg` makes of the output of `convert_to_simg`. */
module SimgRoundTrip {
  import opened Bytes
  import opened ByteFile
  import opened SimgFormat
  import opened SimgDecoder
  import Encoder = SimgEncoder

  // ---- headers read back ----

  lemma ChunkHeaderParses(t: nat, reserved: nat, blocks: nat, total: nat)
    requires t < Limit(2) && reserved < Limit(2) && blocks < Limit(4) && total < Limit(4)
    ensures var h := ChunkHeader(t, reserved, blocks, total);
      && Field(h, 0, 2) == t && Field(h, 4, 4) == blocks
      && Field(h, 8, 4) == total
  {
    Limits();
    Fields4(LE(t, 2), LE(reserved, 2), LE(blocks, 4), LE(total, 4));
    var h := ChunkHeader(t, reserved, blocks, total);
    hide LE, Field, ChunkHeader;
    FieldOf(h, 0, t, 2);
    FieldOf(h, 4, blocks, 4);
    FieldOf(h, 8, total, 4);
  }

  lemma HeaderParses(bs: nat, total: nat, chunks: nat, rest: seq<byte>)
    requires bs < Limit(4) && total < Limit(4) && chunks < Limit(4)
    ensures ParseHeader(Header(bs, total, chunks) + rest) == Ok(ImageHeader(bs, total, chunks))
  {
    Limits();
    var h := Header(bs, total, chunks);
    assert h == AnyHeader(bs, total, chunks, 0, 0);
    hide LE, Field, Header, AnyHeader, ParseHeader;
    assert (h + rest)[..28] == h;
    HeaderIff(h + rest, ImageHeader(bs, total, chunks));
  }

  // ---- where the records are ----

  lemma {:induction false} RecordIsAt(cs: seq<Chunk>, k: nat)
    requires AllFit(cs) && k < |cs|
    ensures AllFit(cs[..k]) && AllFit(cs[..k + 1])
    ensures Records(cs[..k + 1]) == Records(cs[..k]) + Record(cs[k])
    ensures HasAt(Records(cs), |Records(cs[..k])|, Record(cs[k]))
  {
    hide Record;
    var before := cs[..|cs| - 1];
    assert cs[..k + 1][..k] == cs[..k];
    if k < |before| {
      RecordIsAt(before, k);
      assert before[..k] == cs[..k];
    } else {
      assert cs[..k] == before && cs[..k + 1] == cs;
    }
  }

  lemma {:induction false} TellsAt(cs: seq<Chunk>, k: nat, bytes: seq<byte>, data: seq<bool>, bs: nat)
    requires Describes(cs, bytes, data, bs) && k < |cs|
    ensures Tells(cs[k], BlocksOf(cs[..k]), bytes, data, bs) == true
    ensures BlocksOf(cs[..k + 1]) == BlocksOf(cs[..k]) + cs[k].blocks <= BlocksOf(cs)
  {
    hide Tells, ReadBoundary;
    var before := cs[..|cs| - 1];
    assert cs[..k + 1][..k] == cs[..k];
    if k < |before| {
      TellsAt(before, k, bytes, data, bs);
      assert before[..k] == cs[..k] && before[..k + 1] == cs[..k + 1];
    } else {
      assert cs[..k] == before && cs[..k + 1] == cs;
    }
  }

  /** What a record says of one of its blocks: that it lies in a hole; or that it has data, and that is zeros; or that
      it has data, and some of that is not. */
  lemma BlockIsRight(cs: seq<Chunk>, k: nat, b: nat, bytes: seq<byte>, data: seq<bool>, bs: nat)
    requires bs > 0 && |bytes| == |data| && Describes(cs, bytes, data, bs) && k < |cs|
    requires BlocksOf(cs[..k]) <= b < BlocksOf(cs[..k + 1])
    ensures var w, from := Window(bytes, At(b, bs), bs), At(b - BlocksOf(cs[..k]), bs);
      match cs[k]
      case DontCare(_) => NoData(data, At(b, bs), At(b, bs) + bs)
      case Fill(_, value) => value == 0 && AllZero(w) && !NoData(data, At(b, bs), At(b, bs) + bs)
      case Raw(_, payload) =>
        && !AllZero(w) && !NoData(data, At(b, bs), At(b, bs) + bs)
        && from + bs <= |payload| && payload[from..from + bs] == w
  {
    hide Describes, KindOf, NoData, AllZero, BlocksOf, BlockHasData, At, Window, Tells;
    TellsAt(cs, k, bytes, data, bs);
    var m, c := BlocksOf(cs[..k]), cs[k];
    KindSays(bytes, data, bs, b);
    TellsOf(c, m, b, bytes, data, bs);
    if c.Raw? { RawBlock(c, m, b, bytes, bs); }
  }

  lemma TellsOf(c: Chunk, m: nat, b: nat, bytes: seq<byte>, data: seq<bool>, bs: nat)
    requires Tells(c, m, bytes, data, bs) && m <= b < m + c.blocks
    ensures KindOf(bytes, data, bs, b) == c.Kind() && (c.Fill? ==> c.value == 0)
    ensures c.Raw? ==> c.payload == Window(bytes, At(m, bs), At(c.blocks, bs))
  {
    hide KindOf, At;
  }

  lemma RawBlock(c: Chunk, m: nat, b: nat, bytes: seq<byte>, bs: nat)
    requires c.Raw? && m <= b < m + c.blocks && c.payload == Window(bytes, At(m, bs), At(c.blocks, bs))
    ensures var from := At(b - m, bs);
      from + bs <= |c.payload| && c.payload[from..from + bs] == Window(bytes, At(b, bs), bs)
  {
    AtAdd(b - m, 1, bs);
    AtAdd(m, b - m, bs);
    AtMono(b - m + 1, c.blocks, bs);
    OneBlock(bs);
    hide At;
    PartOfWindow(bytes, At(m, bs), At(c.blocks, bs), At(b - m, bs), bs);
  }

  lemma OneBlock(bs: nat)
    ensures At(1, bs) == bs
  {}

  lemma KindSays(bytes: seq<byte>, data: seq<bool>, bs: nat, b: nat)
    ensures match KindOf(bytes, data, bs, b)
      case Hole => NoData(data, At(b, bs), At(b, bs) + bs)
      case Zero => AllZero(Window(bytes, At(b, bs), bs)) && !NoData(data, At(b, bs), At(b, bs) + bs)
      case Plain => !AllZero(Window(bytes, At(b, bs), bs)) && !NoData(data, At(b, bs), At(b, bs) + bs)
  {
    HoleBlock(data, bs, b);
    hide BlockHasData, NoData, AllZero;
  }

  lemma PartOfWindow(bytes: seq<byte>, start: nat, size: nat, from: nat, n: nat)
    requires from + n <= size
    ensures Window(bytes, start, size)[from..from + n] == Window(bytes, start + from, n)
  {}

  // ---- one record ----

  /** How many bytes fill blocks come to: whole four-byte values only. */
  function FillSize(blocks: nat, bs: nat): nat { bs / 4 * 4 * blocks }

  /** What a record puts on the device. */
  function Laid(c: Chunk, zero: bool, bs: nat): seq<byte> {
    if c.Raw? then c.payload
    else if c.Fill? then seq(FillSize(c.blocks, bs), i requires 0 <= i => c.value / Power(i % 4) % 256)
    else if zero then Zeros(FillSize(c.blocks, bs))
    else []
  }

  lemma ModOff(i: nat, n: nat, k: nat)
    requires n > 0 && n * k <= i < n * k + n
    ensures i % n == i - n * k
  {
    DivIs(i, n, k, i - n * k);
    assert n * (i / n) + i % n == i;
  }

  lemma {:induction false} RepeatAt(b: seq<byte>, n: nat, i: nat)
    requires i < |b| * n
    ensures i % |b| < |b| && Repeat(b, n)[i] == b[i % |b|]
  {
    if i < |b| * (n - 1) {
      RepeatAt(b, n - 1, i);
    } else {
      assert |b| * n == |b| * (n - 1) + |b|;
      ModOff(i, |b|, n - 1);
    }
  }

  /** Byte `i` of fill blocks is byte `i % 4` of the value. */
  lemma FillIs(value: seq<byte>, bs: nat, blocks: nat)
    requires |value| == 4
    ensures |FillBytes(value, bs, blocks)| == FillSize(blocks, bs)
    ensures forall i: nat :: i < FillSize(blocks, bs) ==> FillBytes(value, bs, blocks)[i] == value[i % 4]
  {
    var block := Repeat(value, bs / 4);
    forall i: nat | i < FillSize(blocks, bs) ensures FillBytes(value, bs, blocks)[i] == value[i % 4] {
      RepeatAt(block, blocks, i);
      RepeatAt(value, bs / 4, i % |block|);
      ModOfMultiple(i, bs / 4);
    }
  }

  lemma ModOfMultiple(i: nat, k: nat)
    requires k > 0
    ensures i % (4 * k) % 4 == i % 4
  {
    var q, r := i / (4 * k), i % (4 * k);
    assert i == 4 * k * q + r;
    assert 4 * k * q == 4 * (k * q);
  }

  lemma FillLaid(c: Chunk, zero: bool, bs: nat)
    requires c.Fill? && c.value < Limit(4)
    ensures FillBytes(LE(c.value, 4), bs, c.blocks) == Laid(c, zero, bs)
  {
    var value := LE(c.value, 4);
    FillIs(value, bs, c.blocks);
    forall i: nat | i < FillSize(c.blocks, bs) ensures Laid(c, zero, bs)[i] == value[i % 4] {
      LEByte(c.value, 4, i % 4);
    }
  }

  lemma ZeroFill(bs: nat, blocks: nat)
    ensures 0 < Limit(4) && FillBytes(LE(0, 4), bs, blocks) == Zeros(FillSize(blocks, bs))
  {
    Limits();
    FillIs(LE(0, 4), bs, blocks);
    FourZeros();
  }

  lemma FourZeros()
    ensures 0 < Limit(4) && LE(0, 4) == Zeros(4)
  {
    Limits();
    assert LE(0, 1) == [0];
    assert LE(0, 2) == [0, 0];
    assert LE(0, 3) == [0, 0, 0];
  }

  /** With whole values in a block, the blocks are filled, and with 0 they are filled with zeros. */
  lemma LaidWhole(c: Chunk, zero: bool, bs: nat)
    requires bs % 4 == 0
    ensures FillSize(c.blocks, bs) == At(c.blocks, bs)
    ensures c.Fill? && c.value == 0 ==> Laid(c, zero, bs) == Zeros(At(c.blocks, bs))
  {
    assert bs / 4 * 4 == bs;
    if c.Fill? && c.value == 0 {
      forall i: nat | i < FillSize(c.blocks, bs) ensures Laid(c, zero, bs)[i] == 0 {
        DivIs(0, Power(i % 4), 0, 0);
      }
    }
  }

  /** Every check passes, and the record's bytes go where its blocks are. */
  lemma RecordDecodes(image: seq<byte>, s: Spot, c: Chunk, reserved: nat, fixed: bool, zero: bool, bs: nat)
    requires c.Fits() && reserved < Limit(2) && HasAt(image, s.pos, AnyRecord(c, reserved))
    requires c.Raw? ==> |c.payload| == At(c.blocks, bs)
    ensures DecodeChunk(image, s, fixed, zero, bs) ==
      Put(s, fixed, bs, c.blocks, Laid(c, zero, bs), c.TotalSize(),
          if c.DontCare? && !zero then 0 else At(c.blocks, bs))
  {
    hide Put, ChunkHeader, Field, FillBytes, Zeros, LE;
    Limits();
    var r := AnyRecord(c, reserved);
    var h := ChunkHeader(c.Type(), reserved, c.blocks, c.TotalSize());
    ChunkHeaderParses(c.Type(), reserved, c.blocks, c.TotalSize());
    assert r[..12] == h;
    assert ReadAt(image, s.pos, 12) == image[s.pos..s.pos + |r|][..12];
    if c.Fill? { FillLaid(c, zero, bs); }
    ZeroFill(bs, c.blocks);
    if !c.DontCare? {
      assert ReadAt(image, s.pos + 12, |r| - 12) == image[s.pos..s.pos + |r|][12..];
    }
  }

  // ---- what the output holds on the way ----

  /** Byte `i`, past the end a zero. */
  function ByteAt(b: seq<byte>, i: nat): byte {
    if i < |b| then b[i] else 0
  }

  /** The file as it is read: `dev` is what the output held before. */
  datatype Job = Job(bytes: seq<byte>, data: seq<bool>, bs: nat, dev: seq<byte>, zero: bool)
  {
    ghost predicate Valid() { bs > 0 && bs % 4 == 0 && Consistent(bytes, data) }

    /** Whether the decoder writes a block. */
    predicate Stored(b: nat) { zero || BlockHasData(data, bs, b) }

    /** What byte `i` of the image is to be in the end. */
    function Expected(i: nat): byte
      requires bs > 0
    {
      if Stored(BlockOf(i, bs)) then ByteAt(bytes, i) else ByteAt(dev, i)
    }

    /** The first `m` blocks are done, and nothing else has changed. */
    ghost predicate Progress(now: seq<byte>, m: nat)
      requires bs > 0
    {
      && |dev| <= |now| && (|now| <= |dev| || |now| <= At(m, bs))
      && forall i: nat :: ByteAt(now, i) == (if i < At(m, bs) then Expected(i) else ByteAt(dev, i))
    }

    function StoredBlocks(m: nat): nat {
      if m == 0 then 0 else StoredBlocks(m - 1) + (if Stored(m - 1) then 1 else 0)
    }

    lemma {:induction false} StoredRun(m: nat, n: nat, stored: bool)
      requires forall b :: m <= b < m + n ==> Stored(b) == stored
      ensures StoredBlocks(m + n) == StoredBlocks(m) + (if stored then n else 0)
    {
      hide Stored;
      if n > 0 { StoredRun(m, n - 1, stored); }
    }
  }

  /** What a record lays down is what its blocks are to hold. */
  lemma LaidIsExpected(j: Job, c: Chunk, m: nat, i: nat)
    requires j.Valid() && Tells(c, m, j.bytes, j.data, j.bs) && At(m, j.bs) <= i < At(m + c.blocks, j.bs)
    ensures j.Stored(BlockOf(i, j.bs)) == (c.DontCare? ==> j.zero)
    ensures At(m, j.bs) + At(c.blocks, j.bs) == At(m + c.blocks, j.bs)
    ensures j.Stored(BlockOf(i, j.bs)) ==>
      |Laid(c, j.zero, j.bs)| == At(c.blocks, j.bs) && Laid(c, j.zero, j.bs)[i - At(m, j.bs)] == j.Expected(i)
  {
    hide BlockHasData;
    var b := BlockOf(i, j.bs);
    BlockOfIn(i, m, m + c.blocks, j.bs);
    BlockOfIn(i, b, b + 1, j.bs);
    AtAdd(m, c.blocks, j.bs);
    AtAdd(b, 1, j.bs);
    assert KindOf(j.bytes, j.data, j.bs, b) == c.Kind();
    LaidWhole(c, j.zero, j.bs);
    if c.Fill? {
      assert Window(j.bytes, At(b, j.bs), j.bs)[i - At(b, j.bs)] == ByteAt(j.bytes, i);
    } else if c.DontCare? {
      HoleBlock(j.data, j.bs, b);
    }
  }

  lemma PutProgresses(j: Job, now: seq<byte>, c: Chunk, m: nat)
    requires j.Valid() && Tells(c, m, j.bytes, j.data, j.bs) && j.Progress(now, m)
    ensures j.Progress(Overwrite(now, At(m, j.bs), Laid(c, j.zero, j.bs)), m + c.blocks)
  {
    hide Tells, Overwrite, At, Laid;
    var bs, laid := j.bs, Laid(c, j.zero, j.bs);
    var next := Overwrite(now, At(m, bs), laid);
    AtMono(m, m + c.blocks, bs);
    LaidLength(j, c, m);
    forall i: nat ensures ByteAt(next, i) == (if i < At(m + c.blocks, bs) then j.Expected(i) else ByteAt(j.dev, i)) {
      if At(m, bs) <= i < At(m + c.blocks, bs) { LaidIsExpected(j, c, m, i); }
    }
  }

  lemma LaidLength(j: Job, c: Chunk, m: nat)
    requires j.Valid() && Tells(c, m, j.bytes, j.data, j.bs)
    ensures At(m + c.blocks, j.bs) == At(m, j.bs) + At(c.blocks, j.bs)
    ensures if c.DontCare? && !j.zero then Laid(c, j.zero, j.bs) == []
            else |Laid(c, j.zero, j.bs)| == At(c.blocks, j.bs) > 0
  {
    LaidWhole(c, j.zero, j.bs);
    AtAdd(m, c.blocks, j.bs);
    AtStrict(0, c.blocks, j.bs);
  }

  // ---- the whole image ----

  ghost predicate Reached(j: Job, cs: seq<Chunk>, k: nat, s: Spot)
    requires j.bs > 0 && k <= |cs| && AllFit(cs)
  {
    && s.pos == 28 + |Records(cs[..k])| && s.block == BlocksOf(cs[..k])
    && s.written == At(j.StoredBlocks(s.block), j.bs)
    && j.Progress(s.dev, s.block)
  }

  /** Laying the record down keeps the count and the contents right. */
  lemma PutReaches(j: Job, s: Spot, c: Chunk, fixed: bool, n: nat)
    requires j.Valid() && Tells(c, s.block, j.bytes, j.data, j.bs) == true && j.Progress(s.dev, s.block)
    requires s.block + c.blocks <= n && (fixed ==> At(n, j.bs) <= |j.dev|)
    requires s.written == At(j.StoredBlocks(s.block), j.bs)
    ensures var r := Put(s, fixed, j.bs, c.blocks, Laid(c, j.zero, j.bs), c.TotalSize(),
                         if c.DontCare? && !j.zero then 0 else At(c.blocks, j.bs));
      && r.Ok? && r.value.pos == s.pos + c.TotalSize() && r.value.block == s.block + c.blocks
      && r.value.written == At(j.StoredBlocks(r.value.block), j.bs)
      && j.Progress(r.value.dev, r.value.block) == true
  {
    hide BlockHasData, At, KindOf, ByteAt, Overwrite, Tells, Laid;
    LaidLength(j, c, s.block);
    PutProgresses(j, s.dev, c, s.block);
    AtMono(s.block + c.blocks, n, j.bs);
    StoredKind(j, c, s.block);
    AtAdd(j.StoredBlocks(s.block), c.blocks, j.bs);
  }

  lemma ChunkDecodes(j: Job, image: seq<byte>, cs: seq<Chunk>, k: nat, fixed: bool, s: Spot)
    requires j.Valid() && Encoder.IsImage(image, cs, j.bytes, j.data, j.bs) && k < |cs|
    requires fixed ==> At(BlocksOf(cs), j.bs) <= |j.dev|
    requires Reached(j, cs, k, s)
    ensures DecodeChunk(image, s, fixed, j.zero, j.bs).Ok?
    ensures Reached(j, cs, k + 1, DecodeChunk(image, s, fixed, j.zero, j.bs).value) == true
  {
    hide BlockHasData, Describes, DecodeChunk, Record, Header, At, KindOf, ByteAt, Overwrite, Put, Laid, Tells;
    var c := cs[k];
    TellsAt(cs, k, j.bytes, j.data, j.bs);
    RecordIsAt(cs, k);
    BehindHeader(image, Header(j.bs, BlocksOf(cs), |cs|), Records(cs), |Records(cs[..k])|, Record(c));
    TellsShape(c, s.block, j.bytes, j.data, j.bs);
    assert 0 < Limit(2) && Record(c) == AnyRecord(c, 0) by { RecordIs(c); }
    RecordDecodes(image, s, c, 0, fixed, j.zero, j.bs);
    PutReaches(j, s, c, fixed, BlocksOf(cs));
  }

  lemma RecordIs(c: Chunk)
    requires c.Fits()
    ensures 0 < Limit(2) && Record(c) == AnyRecord(c, 0)
  {}

  lemma TellsShape(c: Chunk, m: nat, bytes: seq<byte>, data: seq<bool>, bs: nat)
    requires Tells(c, m, bytes, data, bs)
    ensures (c.Raw? ==> |c.payload| == At(c.blocks, bs)) && (c.Fill? ==> c.value == 0)
  {}

  lemma BehindHeader(image: seq<byte>, h: seq<byte>, rs: seq<byte>, at: nat, r: seq<byte>)
    requires image == h + rs && |h| == 28 && HasAt(rs, at, r)
    ensures HasAt(image, 28 + at, r)
  {}

  lemma StoredKind(j: Job, c: Chunk, m: nat)
    requires Tells(c, m, j.bytes, j.data, j.bs)
    ensures j.StoredBlocks(m + c.blocks) == j.StoredBlocks(m) + (if c.DontCare? && !j.zero then 0 else c.blocks)
  {
    hide BlockHasData;
    forall b | m <= b < m + c.blocks ensures j.Stored(b) == (c.DontCare? ==> j.zero) {
      assert KindOf(j.bytes, j.data, j.bs, b) == c.Kind();
    }
    j.StoredRun(m, c.blocks, c.DontCare? ==> j.zero);
  }

  lemma {:induction false} ChunksDecode(j: Job, image: seq<byte>, cs: seq<Chunk>, k: nat, fixed: bool)
    requires j.Valid() && Encoder.IsImage(image, cs, j.bytes, j.data, j.bs) && k <= |cs|
    requires fixed ==> At(BlocksOf(cs), j.bs) <= |j.dev|
    ensures DecodeChunks(image, j.dev, fixed, j.zero, j.bs, k).Ok?
    ensures Reached(j, cs, k, DecodeChunks(image, j.dev, fixed, j.zero, j.bs, k).value) == true
  {
    hide DecodeChunk, Describes, BlockHasData, Record, Header;
    if k > 0 {
      ChunksDecode(j, image, cs, k - 1, fixed);
      ChunkDecodes(j, image, cs, k - 1, fixed, DecodeChunks(image, j.dev, fixed, j.zero, j.bs, k - 1).value);
    }
  }

  /** Written to a file: the source, padded with zeros to whole blocks, whatever the hole map was. */
  lemma RoundTripFile(image: seq<byte>, cs: seq<Chunk>, bytes: seq<byte>, data: seq<bool>, bs: nat, was: seq<byte>,
                      zero: bool)
    requires bs % 4 == 0 && Consistent(bytes, data) && Encoder.IsImage(image, cs, bytes, data, bs)
    ensures var n := TotalBlocks(|bytes|, bs);
      Decode(image, was, false, zero) ==
        Ok(Outcome(At(Job(bytes, data, bs, [], zero).StoredBlocks(n), bs), Window(bytes, 0, At(n, bs))))
  {
    hide DecodeChunks, Describes, BlockHasData, Header, ParseHeader;
    var j, n := Job(bytes, data, bs, [], zero), BlocksOf(cs);
    HeaderParses(bs, n, |cs|, Records(cs));
    ChunksDecode(j, image, cs, |cs|, false);
    assert cs[..|cs|] == cs;
    var s := DecodeChunks(image, [], false, zero, bs, |cs|).value;
    FileIsExpected(j, s.dev, n);
  }

  lemma FileIsExpected(j: Job, now: seq<byte>, n: nat)
    requires j.Valid() && j.dev == [] && j.Progress(now, n)
    ensures Window(now, 0, At(n, j.bs)) == Window(j.bytes, 0, At(n, j.bs))
  {
    hide BlockHasData;
    forall i | 0 <= i < At(n, j.bs) ensures ByteAt(now, i) == ByteAt(j.bytes, i) {
      UnstoredIsZero(j, i);
    }
    forall i | 0 <= i < At(n, j.bs) ensures Window(now, 0, At(n, j.bs))[i] == Window(j.bytes, 0, At(n, j.bs))[i] {
      assert ByteAt(now, i) == ByteAt(j.bytes, i);
    }
  }

  lemma UnstoredIsZero(j: Job, i: nat)
    requires j.Valid()
    ensures !BlockHasData(j.data, j.bs, BlockOf(i, j.bs)) ==> ByteAt(j.bytes, i) == 0
  {
    var b := BlockOf(i, j.bs);
    BlockOfIn(i, b, b + 1, j.bs);
    AtAdd(b, 1, j.bs);
    HoleBlock(j.data, j.bs, b);
  }

  /** Written to a device: too small a one is refused; on one that is large enough the image's blocks
      hold the source, only hole blocks keep what was there and only without zeroing, and nothing
      past the image changes. */
  lemma RoundTripDevice(image: seq<byte>, cs: seq<Chunk>, bytes: seq<byte>, data: seq<bool>, bs: nat, dev: seq<byte>,
                        zero: bool)
    requires bs % 4 == 0 && Consistent(bytes, data) && Encoder.IsImage(image, cs, bytes, data, bs)
    ensures var n := TotalBlocks(|bytes|, bs);
      var r := Decode(image, dev, true, zero);
      if |dev| < At(n, bs) then r == Err(DeviceTooSmall)
      else
        && r.Ok? && |r.value.dev| == |dev| && r.value.dev[At(n, bs)..] == dev[At(n, bs)..]
        && r.value.written == At(Job(bytes, data, bs, dev, zero).StoredBlocks(n), bs)
        && (forall i: nat :: i < At(n, bs) ==>
              r.value.dev[i] == if zero || BlockHasData(data, bs, BlockOf(i, bs)) then ByteAt(bytes, i) else dev[i])
  {
    hide DecodeChunks, Describes, BlockHasData, Header, ParseHeader;
    var j, n := Job(bytes, data, bs, dev, zero), BlocksOf(cs);
    HeaderParses(bs, n, |cs|, Records(cs));
    if |dev| >= At(n, bs) {
      ChunksDecode(j, image, cs, |cs|, true);
      assert cs[..|cs|] == cs;
      DeviceIsExpected(j, DecodeChunks(image, dev, true, zero, bs, |cs|).value.dev, n);
    }
  }

  lemma DeviceIsExpected(j: Job, now: seq<byte>, n: nat)
    requires j.Valid() && At(n, j.bs) <= |j.dev| && j.Progress(now, n)
    ensures |now| == |j.dev| && now[At(n, j.bs)..] == j.dev[At(n, j.bs)..]
    ensures forall i: nat :: i < At(n, j.bs) ==>
      now[i] == if j.zero || BlockHasData(j.data, j.bs, BlockOf(i, j.bs)) then ByteAt(j.bytes, i) else j.dev[i]
  {
    hide BlockHasData;
    forall i: nat | i < |now| ensures now[i] == if i < At(n, j.bs) then j.Expected(i) else j.dev[i] {
      assert now[i] == ByteAt(now, i);
    }
  }

  /** With zeroing a device holds just the padded source where the image is. */
  lemma ZeroedDevice(image: seq<byte>, cs: seq<Chunk>, bytes: seq<byte>, data: seq<bool>, bs: nat, dev: seq<byte>)
    requires bs % 4 == 0 && Consistent(bytes, data) && Encoder.IsImage(image, cs, bytes, data, bs)
    requires At(TotalBlocks(|bytes|, bs), bs) <= |dev|
    ensures var size := At(TotalBlocks(|bytes|, bs), bs);
      Decode(image, dev, true, true) == Ok(Outcome(size, Window(bytes, 0, size) + dev[size..]))
  {
    var n := TotalBlocks(|bytes|, bs);
    var size := At(n, bs);
    AllStored(Job(bytes, data, bs, dev, true), n);
    RoundTripDevice(image, cs, bytes, data, bs, dev, true);
    hide Decode, BlockHasData, Encoder.IsImage, At, Job.StoredBlocks, Window, TotalBlocks, Consistent;
    ZeroedBytes(Decode(image, dev, true, true).value.dev, bytes, dev, size);
  }

  lemma AllStored(j: Job, n: nat)
    requires j.zero
    ensures j.StoredBlocks(n) == n
  {
    j.StoredRun(0, n, true);
  }

  lemma ZeroedBytes(now: seq<byte>, bytes: seq<byte>, dev: seq<byte>, size: nat)
    requires size <= |now| == |dev| && now[size..] == dev[size..] && forall i: nat :: i < size ==>
             now[i] == ByteAt(bytes, i)
    ensures now == Window(bytes, 0, size) + dev[size..]
  {
    assert now == now[..size] + now[size..];
    assert now[..size] == Window(bytes, 0, size);
  }
}
