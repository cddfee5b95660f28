/** The Android sparse image format, version 1.0: records, their layout, and which list of records
    describes which file. */
module SimgFormat {
  import opened Bytes
  import opened ByteFile

  const MAGIC: nat := 0xED26FF3A
  const RAW: nat := 0xCAC1
  const FILL: nat := 0xCAC2
  const DONT_CARE: nat := 0xCAC3
  const READ_BLOCKS: nat := 32768

  /** The offset of a block. */
  function At(block: nat, bs: nat): nat { block * bs }

  lemma AtAdd(m: nat, n: nat, bs: nat)
    ensures At(m + n, bs) == At(m, bs) + At(n, bs)
  {}

  lemma AtMono(m: nat, n: nat, bs: nat)
    requires m <= n
    ensures At(m, bs) <= At(n, bs)
  {}

  lemma AtStrict(m: nat, n: nat, bs: nat)
    requires m < n
    ensures At(m, bs) + bs <= At(n, bs)
  {
    AtMono(m + 1, n, bs);
  }

  function BlockOf(i: nat, bs: nat): nat
    requires bs > 0
  {
    i / bs
  }

  lemma BlockOfIn(i: nat, m: nat, n: nat, bs: nat)
    requires bs > 0
    ensures m <= BlockOf(i, bs) < n <==> At(m, bs) <= i < At(n, bs)
  {
    var b := BlockOf(i, bs);
    assert At(b, bs) <= i < At(b, bs) + bs;
    if m <= b { AtMono(m, b, bs); } else { AtStrict(b, m, bs); }
    if b < n { AtStrict(b, n, bs); } else { AtMono(n, b, bs); }
  }

  function TotalBlocks(len: nat, bs: nat): (n: nat)
    requires bs > 0
    ensures len <= At(n, bs) && (n > 0 ==> At(n - 1, bs) < len)
  {
    TotalBlocksIs(len, bs);
    (len + bs - 1) / bs
  }

  lemma TotalBlocksIs(len: nat, bs: nat)
    requires bs > 0
    ensures var n := (len + bs - 1) / bs; len <= At(n, bs) && (n > 0 ==> At(n - 1, bs) < len)
  {
    var n := (len + bs - 1) / bs;
    var x := len + bs - 1;
    assert x == n * bs + x % bs;
    if n > 0 { assert At(n - 1, bs) + bs == At(n, bs); }
  }

  // ---- blocks of a file ----

  /** `block_has_data`: the last block may be short. */
  predicate BlockHasData(data: seq<bool>, bs: nat, b: nat) {
    var start := At(b, bs);
    if start >= |data| then false
    else
      var end := if start + bs < |data| then start + bs else |data|;
      var off := SeekData(data, start);
      off.Some? && off.value < end
  }

  lemma HoleBlock(data: seq<bool>, bs: nat, b: nat)
    ensures !BlockHasData(data, bs, b) <==> NoData(data, At(b, bs), At(b, bs) + bs)
  {
    var start := At(b, bs);
    if start < |data| {
      var off := SeekData(data, start);
      if off.Some? { assert data[off.value]; }
    }
  }

  predicate AllZero(b: seq<byte>) {
    forall i :: 0 <= i < |b| ==> b[i] == 0
  }

  /** How a block is stored: not at all, as zeros, or as it is. */
  datatype Kind = Hole | Zero | Plain

  function KindOf(bytes: seq<byte>, data: seq<bool>, bs: nat, b: nat): Kind {
    if !BlockHasData(data, bs, b) then Hole
    else if AllZero(Window(bytes, At(b, bs), bs)) then Zero else Plain
  }

  // ---- records ----

  datatype Chunk =
    | Raw(blocks: nat, payload: seq<byte>)
    | Fill(blocks: nat, value: nat)
    | DontCare(blocks: nat)
  {
    function Type(): nat { if Raw? then RAW else if Fill? then FILL else DONT_CARE }
    function TotalSize(): nat { if Raw? then 12 + |payload| else if Fill? then 16 else 12 }
    function Kind(): Kind { if Raw? then Plain else if Fill? then Zero else Hole }
    /** The fields of the record can hold its numbers. */
    predicate Fits() { blocks < Limit(4) && TotalSize() < Limit(4) && (Fill? ==> value < Limit(4)) }
  }

  function ChunkHeader(t: nat, reserved: nat, blocks: nat, total: nat): (b: seq<byte>)
    requires t < Limit(2) && reserved < Limit(2) && blocks < Limit(4) && total < Limit(4)
    ensures |b| == 12
  {
    Limits();
    LE(t, 2) + LE(reserved, 2) + LE(blocks, 4) + LE(total, 4)
  }

  /** A record with anything in its reserved field. */
  function AnyRecord(c: Chunk, reserved: nat): (b: seq<byte>)
    requires c.Fits() && reserved < Limit(2)
    ensures |b| == c.TotalSize()
  {
    Limits();
    ChunkHeader(c.Type(), reserved, c.blocks, c.TotalSize()) +
    (match c case Raw(_, payload) => payload case Fill(_, value) => LE(value, 4) case DontCare(_) => [])
  }

  /** The record the encoder writes. */
  function Record(c: Chunk): (b: seq<byte>)
    requires c.Fits()
    ensures |b| == c.TotalSize()
  {
    Limits();
    AnyRecord(c, 0)
  }

  predicate AllFit(cs: seq<Chunk>) {
    forall k :: 0 <= k < |cs| ==> cs[k].Fits()
  }

  function Records(cs: seq<Chunk>): seq<byte>
    requires AllFit(cs)
  {
    if cs == [] then [] else Records(cs[..|cs| - 1]) + Record(cs[|cs| - 1])
  }

  /** A header of any minor version, with any image checksum. */
  function AnyHeader(bs: nat, total: nat, chunks: nat, minor: nat, checksum: nat): (b: seq<byte>)
    requires bs < Limit(4) && total < Limit(4) && chunks < Limit(4) && minor < Limit(2) && checksum < Limit(4)
    ensures |b| == 28
  {
    Limits();
    (LE(MAGIC, 4) + LE(1, 2) + LE(minor, 2) + LE(28, 2)) + (LE(12, 2) + LE(bs, 4) + LE(total, 4) + LE(chunks, 4))
        + LE(checksum, 4)
  }

  /** The header the encoder writes. */
  function Header(bs: nat, total: nat, chunks: nat): (b: seq<byte>)
    requires bs < Limit(4) && total < Limit(4) && chunks < Limit(4)
    ensures |b| == 28
  {
    Limits();
    AnyHeader(bs, total, chunks, 0, 0)
  }

  function BlocksOf(cs: seq<Chunk>): nat {
    if cs == [] then 0 else BlocksOf(cs[..|cs| - 1]) + cs[|cs| - 1].blocks
  }

  lemma RecordsSnoc(cs: seq<Chunk>, c: Chunk)
    requires c.Fits() && AllFit(cs)
    ensures AllFit(cs + [c])
    ensures Records(cs + [c]) == Records(cs) + Record(c) && BlocksOf(cs + [c]) == BlocksOf(cs) + c.blocks
  {
    assert (cs + [c])[..|cs|] == cs;
  }

  // ---- which records describe a file ----

  /** Record `c`, standing for the blocks from `m` on, says what the file has there. */
  ghost predicate Tells(c: Chunk, m: nat, bytes: seq<byte>, data: seq<bool>, bs: nat) {
    && c.blocks > 0
    && (forall b :: m <= b < m + c.blocks ==> KindOf(bytes, data, bs, b) == c.Kind())
    && (c.Raw? ==> c.payload == Window(bytes, At(m, bs), At(c.blocks, bs)))
    && (c.Fill? ==> c.value == 0)
    && (!c.DontCare? ==> c.blocks <= READ_BLOCKS)
  }

  /** Block `m` is where the encoder, having begun to read at the start of a data extent, begins
      another read of `READ_BLOCKS` blocks. */
  ghost predicate ReadBoundary(m: nat, data: seq<bool>, bs: nat) {
    exists s: nat :: s < m && Begins(s, m, data, bs) && (m - s) % READ_BLOCKS == 0
  }

  ghost predicate Begins(s: nat, m: nat, data: seq<bool>, bs: nat) {
    (s > 0 ==> !BlockHasData(data, bs, s - 1)) && forall b :: s <= b < m ==> BlockHasData(data, bs, b)
  }

  /** The records describe the file's first blocks in order, and no record could have been merged
      with its neighbour other than across two reads. */
  ghost predicate Describes(cs: seq<Chunk>, bytes: seq<byte>, data: seq<bool>, bs: nat) {
    cs == [] ||
    var before, c := cs[..|cs| - 1], cs[|cs| - 1];
    && Describes(before, bytes, data, bs)
    && Tells(c, BlocksOf(before), bytes, data, bs)
    && (before != [] && before[|before| - 1].Kind() == c.Kind() ==> ReadBoundary(BlocksOf(before), data, bs))
  }

  lemma DescribesSnoc(cs: seq<Chunk>, c: Chunk, bytes: seq<byte>, data: seq<bool>, bs: nat)
    requires Describes(cs, bytes, data, bs) && Tells(c, BlocksOf(cs), bytes, data, bs)
    requires cs != [] && cs[|cs| - 1].Kind() == c.Kind() ==> ReadBoundary(BlocksOf(cs), data, bs)
    ensures Describes(cs + [c], bytes, data, bs)
  {
    hide Tells, ReadBoundary;
    assert (cs + [c])[..|cs|] == cs;
  }

  /** The last record has the kind of the last block described. */
  lemma LastKind(cs: seq<Chunk>, bytes: seq<byte>, data: seq<bool>, bs: nat)
    requires Describes(cs, bytes, data, bs) && cs != []
    ensures BlocksOf(cs) > 0 && KindOf(bytes, data, bs, BlocksOf(cs) - 1) == cs[|cs| - 1].Kind()
  {
    hide KindOf, ReadBoundary;
  }

  /** Every record stands for at least one block. */
  lemma {:induction false} BlocksAtLeast(cs: seq<Chunk>, bytes: seq<byte>, data: seq<bool>, bs: nat)
    requires Describes(cs, bytes, data, bs)
    ensures |cs| <= BlocksOf(cs)
  {
    if cs != [] { BlocksAtLeast(cs[..|cs| - 1], bytes, data, bs); }
  }
}
