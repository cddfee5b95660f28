/** `convert_to_simg`: a file with holes to an Android sparse image. */
module SimgEncoder {
  import opened Bytes
  import opened ByteFile
  import opened SimgFormat

  datatype Outcome = Converted | BlockTooSmall | BlockNotMultipleOf4 | FieldOverflow

  // ---- data extents, block by block ----

  datatype Extent = Extent(hasData: bool, start: nat, blocks: nat)
  {
    function End(): nat { start + blocks }
  }

  ghost predicate IsExtent(e: Extent, data: seq<bool>, bs: nat) {
    e.blocks > 0 && forall b :: e.start <= b < e.End() ==> BlockHasData(data, bs, b) == e.hasData
  }

  /** The extents cover the blocks up to `upTo` in order, each as long as it can be. */
  ghost predicate Extents(es: seq<Extent>, data: seq<bool>, bs: nat, upTo: nat) {
    if es == [] then upTo == 0
    else
      var before, e := es[..|es| - 1], es[|es| - 1];
      && e.End() == upTo && IsExtent(e, data, bs)
      && Extents(before, data, bs, e.start)
      && (before != [] ==> before[|before| - 1].hasData != e.hasData)
  }

  function EndOf(es: seq<Extent>): nat {
    if es == [] then 0 else es[|es| - 1].End()
  }

  lemma ExtentsSnoc(es: seq<Extent>, e: Extent, data: seq<bool>, bs: nat, upTo: nat)
    requires Extents(es, data, bs, upTo) == true && IsExtent(e, data, bs) == true && e.start == upTo
    requires es != [] ==> es[|es| - 1].hasData != e.hasData
    ensures Extents(es + [e], data, bs, e.End()) == true
  {
    hide IsExtent;
    assert (es + [e])[..|es|] == es;
  }

  method FindExtents(data: seq<bool>, bs: nat, total: nat) returns (es: seq<Extent>)
    ensures Extents(es, data, bs, total) == true
  {
    hide BlockHasData;
    es := [];
    var i := 0;
    while i < total
      invariant i <= total && Extents(es, data, bs, i) == true
      invariant es != [] && i < total ==> BlockHasData(data, bs, i) != es[|es| - 1].hasData
    {
      var hasData := BlockHasData(data, bs, i);
      var j := i + 1;
      while j < total && BlockHasData(data, bs, j) == hasData
        invariant i < j <= total
        invariant forall b :: i <= b < j ==> BlockHasData(data, bs, b) == hasData
      {
        j := j + 1;
      }
      var e := Extent(hasData, i, j - i);
      ExtentsSnoc(es, e, data, bs, i);
      es := es + [e];
      i := j;
    }
  }

  // ---- zero runs within one read ----

  datatype Run = Run(zero: bool, blocks: nat, payload: seq<byte>)

  function RunBlocks(runs: seq<Run>): nat {
    if runs == [] then 0 else RunBlocks(runs[..|runs| - 1]) + runs[|runs| - 1].blocks
  }

  ghost predicate IsRun(r: Run, q: nat, buf: seq<byte>, bs: nat) {
    && r.blocks > 0 && r.payload == Window(buf, At(q, bs), At(r.blocks, bs))
    && forall b :: q <= b < q + r.blocks ==> ZeroBlock(buf, b, bs) == r.zero
  }

  /** The runs cover the blocks of the buffer up to `upTo` in order, each as long as it can be. */
  ghost predicate Runs(runs: seq<Run>, buf: seq<byte>, bs: nat, upTo: nat) {
    if runs == [] then upTo == 0
    else
      var before, r := runs[..|runs| - 1], runs[|runs| - 1];
      && r.blocks <= upTo
      && Runs(before, buf, bs, upTo - r.blocks)
      && IsRun(r, upTo - r.blocks, buf, bs)
      && (before != [] ==> before[|before| - 1].zero != r.zero)
  }

  lemma RunsSnoc(runs: seq<Run>, r: Run, buf: seq<byte>, bs: nat, upTo: nat)
    requires Runs(runs, buf, bs, upTo) == true && IsRun(r, upTo, buf, bs) == true
    requires runs != [] ==> runs[|runs| - 1].zero != r.zero
    ensures Runs(runs + [r], buf, bs, upTo + r.blocks) == true
  {
    hide IsRun;
    assert (runs + [r])[..|runs|] == runs;
  }

  lemma {:induction false} RunsAt(runs: seq<Run>, k: nat, buf: seq<byte>, bs: nat, upTo: nat)
    requires Runs(runs, buf, bs, upTo) == true && k < |runs|
    ensures IsRun(runs[k], RunBlocks(runs[..k]), buf, bs) == true && RunBlocks(runs[..k + 1]) <= upTo == RunBlocks(runs)
    ensures k > 0 ==> runs[k - 1].zero != runs[k].zero
  {
    hide IsRun;
    var before, r := runs[..|runs| - 1], runs[|runs| - 1];
    if before != [] {
      RunsAt(before, if k < |before| then k else k - 1, buf, bs, upTo - r.blocks);
    }
    if k < |before| {
      assert before[..k] == runs[..k] && before[..k + 1] == runs[..k + 1];
    } else {
      assert runs[..k] == before && runs[..k + 1] == runs;
    }
  }

  lemma {:induction false} RunsTotal(runs: seq<Run>, buf: seq<byte>, bs: nat, upTo: nat)
    requires Runs(runs, buf, bs, upTo) == true
    ensures RunBlocks(runs) == upTo && RunBlocks(runs[..0]) == 0
  {
    hide IsRun;
    if runs != [] { RunsTotal(runs[..|runs| - 1], buf, bs, upTo - runs[|runs| - 1].blocks); }
  }

  method IsAllZeros(b: seq<byte>) returns (r: bool)
    ensures r == AllZero(b)
  {
    for i := 0 to |b|
      invariant forall k :: 0 <= k < i ==> b[k] == 0
    {
      if b[i] != 0 { return false; }
    }
    return true;
  }

  predicate ZeroBlock(buf: seq<byte>, b: nat, bs: nat) {
    AllZero(Window(buf, At(b, bs), bs))
  }

  /** Whether a block that lies in the buffer is zero. */
  method IsZeroBlock(buf: seq<byte>, b: nat, bs: nat, total: nat) returns (zero: bool)
    requires b < total && At(total, bs) == |buf|
    ensures zero == ZeroBlock(buf, b, bs)
  {
    var start := b * bs;
    AtStrict(b, total, bs);
    WindowIsSlice(buf, start, bs);
    zero := IsAllZeros(buf[start..start + bs]);
  }

  /** How many blocks from `block` on are like it. */
  method RunLength(buf: seq<byte>, block: nat, bs: nat, total: nat) returns (zero: bool, n: nat)
    requires block < total && At(total, bs) == |buf|
    ensures n >= 1 && block + n <= total
    ensures forall b :: block <= b < block + n ==> ZeroBlock(buf, b, bs) == zero
    ensures block + n < total ==> ZeroBlock(buf, block + n, bs) != zero
  {
    hide ZeroBlock;
    zero := IsZeroBlock(buf, block, bs, total);
    n := 1;
    while block + n < total
      invariant 1 <= n <= total - block
      invariant forall b :: block <= b < block + n ==> ZeroBlock(buf, b, bs) == zero
    {
      var nextZero := IsZeroBlock(buf, block + n, bs, total);
      if nextZero != zero { break; }
      n := n + 1;
    }
  }

  method AnalyzeBlockRuns(buf: seq<byte>, bs: nat) returns (runs: seq<Run>)
    requires bs > 0 && |buf| % bs == 0
    ensures Runs(runs, buf, bs, |buf| / bs)
  {
    hide ZeroBlock, IsRun;
    runs := [];
    var total := |buf| / bs;
    WholeBlocks(buf, bs);
    var block := 0;
    while block < total
      invariant block <= total && Runs(runs, buf, bs, block) == true
      invariant runs != [] && block < total ==> ZeroBlock(buf, block, bs) != runs[|runs| - 1].zero
    {
      var zero, n := RunLength(buf, block, bs, total);
      RunInBuffer(buf, block, zero, n, bs, total);
      var from, to := block * bs, block * bs + n * bs;
      var r := Run(zero, n, buf[from..to]);
      RunsSnoc(runs, r, buf, bs, block);
      runs := runs + [r];
      block := block + n;
    }
  }

  lemma WholeBlocks(buf: seq<byte>, bs: nat)
    requires bs > 0 && |buf| % bs == 0
    ensures At(|buf| / bs, bs) == |buf|
  {}

  lemma RunInBuffer(buf: seq<byte>, block: nat, zero: bool, n: nat, bs: nat, total: nat)
    requires n > 0 && forall b :: block <= b < block + n ==> ZeroBlock(buf, b, bs) == zero
    requires block + n <= total && At(total, bs) == |buf|
    ensures block * bs + n * bs <= |buf|
    ensures IsRun(Run(zero, n, buf[block * bs..block * bs + n * bs]), block, buf, bs) == true
  {
    hide ZeroBlock;
    AtMono(block + n, total, bs);
    AtAdd(block, n, bs);
    WindowIsSlice(buf, block * bs, n * bs);
  }

  lemma WindowIsSlice(buf: seq<byte>, start: nat, size: nat)
    requires start + size <= |buf|
    ensures Window(buf, start, size) == buf[start..start + size]
  {}

  // ---- writing ----

  /** The image so far: a header whose count is still 0, and the records `cs`. */
  ghost predicate Written(dst: File, bs: nat, total: nat, cs: seq<Chunk>, bytes: seq<byte>, data: seq<bool>)
    reads dst
  {
    && dst.Valid() && !dst.fixed
    && bs < Limit(4) && total < Limit(4) && AllFit(cs)
    && dst.bytes == Header(bs, total, 0) + Records(cs) && dst.pos == |dst.bytes|
    && Describes(cs, bytes, data, bs)
  }

  /** Record `c` may come next: it says what the file has there, and where it is like the record
      before, the encoder began another read. */
  ghost predicate MayFollow(cs: seq<Chunk>, c: Chunk, bytes: seq<byte>, data: seq<bool>, bs: nat) {
    && Tells(c, BlocksOf(cs), bytes, data, bs)
    && (cs != [] && cs[|cs| - 1].Kind() == c.Kind() ==> ReadBoundary(BlocksOf(cs), data, bs))
  }

  lemma Appends(b: seq<byte>, d: seq<byte>)
    ensures Overwrite(b, |b|, d) == b + d
  {}

  /** `dst.write` at the end of a growing file. */
  method Append(dst: File, d: seq<byte>)
    requires dst.Valid() && !dst.fixed && dst.pos == |dst.bytes|
    modifies dst
    ensures dst.Valid() && dst.bytes == old(dst.bytes) + d && dst.pos == |dst.bytes|
  {
    Appends(dst.bytes, d);
    var _ := dst.Write(d);
  }

  /** The two or three writes of one record; a field too narrow for its number raises instead. */
  method WriteRecord(dst: File, c: Chunk) returns (ok: bool)
    requires dst.Valid() && !dst.fixed && dst.pos == |dst.bytes|
    modifies dst
    ensures ok == c.Fits()
    ensures ok ==> dst.Valid() && dst.bytes == old(dst.bytes) + Record(c) && dst.pos == |dst.bytes|
  {
    hide ChunkHeader;
    Limits();
    if !c.Fits() { return false; }
    Append(dst, ChunkHeader(c.Type(), 0, c.blocks, c.TotalSize()));
    match c {
      case Raw(_, payload) => Append(dst, payload);
      case Fill(_, value) => Append(dst, LE(value, 4));
      case DontCare(_) =>
    }
    return true;
  }

  /** Writing a record that may follow keeps the image well formed. */
  lemma WrittenSnoc(before: seq<byte>, after: seq<byte>, bs: nat, total: nat, cs: seq<Chunk>, c: Chunk,
                    bytes: seq<byte>, data: seq<bool>)
    requires bs < Limit(4) && total < Limit(4) && AllFit(cs) && c.Fits()
    requires Describes(cs, bytes, data, bs) == true && MayFollow(cs, c, bytes, data, bs)
    requires before == Header(bs, total, 0) + Records(cs) && after == before + Record(c)
    ensures AllFit(cs + [c]) && after == Header(bs, total, 0) + Records(cs + [c])
    ensures Describes(cs + [c], bytes, data, bs) == true
  {
    hide Tells, Describes, ReadBoundary, Header, Record;
    RecordsSnoc(cs, c);
    DescribesSnoc(cs, c, bytes, data, bs);
  }

  /** Plain blocks that fall into one read and make more bytes than a record's size can say. */
  ghost predicate Oversized(bytes: seq<byte>, data: seq<bool>, bs: nat) {
    exists m: nat, n: nat ::
        n > 0 && PlainRun(m, n, bytes, data, bs) && OneRead(m, n, data, bs) && 12 + At(n, bs) >= Limit(4)
  }

  /** No read begins strictly within these blocks. */
  ghost predicate OneRead(m: nat, n: nat, data: seq<bool>, bs: nat) {
    forall b: nat :: m < b < m + n ==> !ReadBoundary(b, data, bs)
  }

  ghost predicate PlainRun(m: nat, n: nat, bytes: seq<byte>, data: seq<bool>, bs: nat) {
    forall b :: m <= b < m + n ==> KindOf(bytes, data, bs, b) == Plain
  }

  function ChunkOf(r: Run): Chunk {
    if r.zero then Fill(r.blocks, 0) else Raw(r.blocks, r.payload)
  }

  lemma UnfitIsOversized(c: Chunk, m: nat, total: nat, bytes: seq<byte>, data: seq<bool>, bs: nat)
    requires Tells(c, m, bytes, data, bs) && m + c.blocks <= total < Limit(4) && !c.Fits()
    requires c.Raw? ==> OneRead(m, c.blocks, data, bs)
    ensures Oversized(bytes, data, bs)
  {
    hide KindOf, ReadBoundary;
    Limits();
    assert c.Raw? && PlainRun(m, c.blocks, bytes, data, bs);
  }

  /** Where records describe the file and fit, no run is too large: the record of its last block
      would have to end before its first, with another read in between. */
  lemma {:induction false} FittingIsNotOversized(cs: seq<Chunk>, m: nat, n: nat, bytes: seq<byte>, data: seq<bool>,
                                                 bs: nat)
    requires Describes(cs, bytes, data, bs) && AllFit(cs)
    requires n > 0 && m + n <= BlocksOf(cs) && PlainRun(m, n, bytes, data, bs) && OneRead(m, n, data, bs)
    ensures 12 + At(n, bs) < Limit(4)
  {
    hide KindOf, ReadBoundary;
    var before, c := cs[..|cs| - 1], cs[|cs| - 1];
    var p := BlocksOf(before);
    if m + n <= p {
      FittingIsNotOversized(before, m, n, bytes, data, bs);
    } else {
      assert KindOf(bytes, data, bs, m + n - 1) == Plain;
      assert c.Raw?;
      if m < p {
        LastKind(before, bytes, data, bs);
      } else {
        AtMono(n, c.blocks, bs);
      }
    }
  }

  lemma FittingImage(cs: seq<Chunk>, bytes: seq<byte>, data: seq<bool>, bs: nat)
    requires bs > 0 && |bytes| == |data| && Describes(cs, bytes, data, bs) && AllFit(cs)
    requires BlocksOf(cs) == TotalBlocks(|bytes|, bs)
    ensures !Oversized(bytes, data, bs)
  {
    hide Describes, BlockHasData, KindOf, OneRead;
    forall m: nat, n: nat | n > 0 && PlainRun(m, n, bytes, data, bs) && OneRead(m, n, data, bs)
        ensures 12 + At(n, bs) < Limit(4) {
      PlainIsInside(m + n - 1, bytes, data, bs);
      FittingIsNotOversized(cs, m, n, bytes, data, bs);
    }
  }

  lemma PlainIsInside(b: nat, bytes: seq<byte>, data: seq<bool>, bs: nat)
    requires bs > 0 && |bytes| == |data| && (KindOf(bytes, data, bs, b) == Plain || b == 0)
    ensures KindOf(bytes, data, bs, b) == Plain ==> b < TotalBlocks(|bytes|, bs)
  {
    if b >= TotalBlocks(|bytes|, bs) { AtMono(TotalBlocks(|bytes|, bs), b, bs); }
  }

  method WriteNext(dst: File, c: Chunk, ghost bs: nat, ghost total: nat, ghost cs: seq<Chunk>, ghost bytes: seq<byte>,
                   ghost data: seq<bool>)
    returns (ok: bool)
    requires Written(dst, bs, total, cs, bytes, data) == true && MayFollow(cs, c, bytes, data, bs) == true
    requires BlocksOf(cs) + c.blocks <= total && (c.Raw? ==> OneRead(BlocksOf(cs), c.blocks, data, bs) == true)
    modifies dst
    ensures ok ==>
      && Written(dst, bs, total, cs + [c], bytes, data) == true
      && BlocksOf(cs + [c]) == BlocksOf(cs) + c.blocks
    ensures !ok ==> Oversized(bytes, data, bs) == true
  {
    hide Tells, Describes, ReadBoundary, Header, Record, Oversized;
    ghost var before := dst.bytes;
    ok := WriteRecord(dst, c);
    if ok {
      WrittenSnoc(before, dst.bytes, bs, total, cs, c, bytes, data);
      RecordsSnoc(cs, c);
    } else {
      UnfitIsOversized(c, BlocksOf(cs), total, bytes, data, bs);
    }
  }

  /** What a run found in a read says about the file. */
  lemma RunTells(r: Run, q: nat, buf: seq<byte>, m: nat, n: nat, bytes: seq<byte>, data: seq<bool>, bs: nat)
    requires IsRun(r, q, buf, bs) && q + r.blocks <= n <= READ_BLOCKS
    requires buf == Window(bytes, At(m, bs), At(n, bs))
    requires forall b :: m <= b < m + n ==> BlockHasData(data, bs, b)
    ensures Tells(ChunkOf(r), m + q, bytes, data, bs)
  {
    hide BlockHasData;
    AtAdd(m, q, bs);
    WindowOfWindow(bytes, At(m, bs), At(n, bs), At(q, bs), At(r.blocks, bs)) by {
      AtAdd(q, r.blocks, bs);
      AtMono(q + r.blocks, n, bs);
    }
    forall b | m + q <= b < m + q + r.blocks ensures KindOf(bytes, data, bs, b) == ChunkOf(r).Kind() {
      AtAdd(m, b - m, bs);
      AtStrict(b - m, n, bs);
      WindowOfWindow(bytes, At(m, bs), At(n, bs), At(b - m, bs), bs);
      assert ZeroBlock(buf, b - m, bs) == r.zero;
    }
  }

  lemma WindowOfWindow(bytes: seq<byte>, start: nat, size: nat, inner: nat, n: nat)
    requires inner + n <= size
    ensures Window(Window(bytes, start, size), inner, n) == Window(bytes, start + inner, n)
  {}

  /** The blocks from `m` on are what the encoder reads at once of the data extent from `s` on. */
  ghost predicate IsRead(s: nat, m: nat, n: nat, data: seq<bool>, bs: nat) {
    n <= READ_BLOCKS && Aligned(s, m) && Begins(s, m + n, data, bs)
  }

  predicate Aligned(s: nat, m: nat) {
    s <= m && (m - s) % READ_BLOCKS == 0
  }

  lemma AlignedNext(s: nat, m: nat)
    requires Aligned(s, m)
    ensures Aligned(s, m + READ_BLOCKS) == true
  {}

  lemma ReadBegins(s: nat, m: nat, n: nat, data: seq<bool>, bs: nat)
    requires IsRead(s, m, n, data, bs)
    ensures m == 0 || !BlockHasData(data, bs, m - 1) || ReadBoundary(m, data, bs)
    ensures OneRead(m, n, data, bs)
    ensures forall b :: m <= b < m + n ==> BlockHasData(data, bs, b)
  {
    hide BlockHasData;
    if m > s { assert Begins(s, m, data, bs); }
    forall b: nat, t: nat | m < b < m + n && t < b && Begins(t, b, data, bs) ensures (b - t) % READ_BLOCKS != 0 {
      assert t == s by { SameExtent(s, t, b, data, bs); }
      NotAMultiple(m - s, b - s, READ_BLOCKS);
    }
  }

  lemma SameExtent(s: nat, t: nat, b: nat, data: seq<bool>, bs: nat)
    requires s < b && t < b && Begins(s, b, data, bs) && Begins(t, b, data, bs)
    ensures s == t
  {
    hide BlockHasData;
    if s < t { DataBefore(s, t, b, data, bs); }
    if t < s { DataBefore(t, s, b, data, bs); }
  }

  lemma DataBefore(s: nat, t: nat, b: nat, data: seq<bool>, bs: nat)
    requires s < t < b && Begins(s, b, data, bs)
    ensures BlockHasData(data, bs, t - 1)
  {}

  lemma NotAMultiple(x: nat, y: nat, d: nat)
    requires d > 0 && x % d == 0 && x < y < x + d
    ensures y % d != 0
  {
    if y % d == 0 {
      var k := y / d - x / d;
      assert k * d == y - x;
      MultiplesApart(k, d);
    }
  }

  lemma OneReadWithin(m: nat, n: nat, p: nat, k: nat, data: seq<bool>, bs: nat)
    requires OneRead(m, n, data, bs) && m <= p && p + k <= m + n
    ensures OneRead(p, k, data, bs) == true
  {
    hide ReadBoundary;
  }

  /** One read of the data extent that begins at block `s`: the blocks from `m` on. */
  method WriteRead(dst: File, buf: seq<byte>, bs: nat, ghost s: nat, ghost m: nat, ghost n: nat, ghost total: nat,
                   ghost cs: seq<Chunk>, ghost bytes: seq<byte>, ghost data: seq<bool>)
    returns (ok: bool, count: nat, ghost out: seq<Chunk>)
    requires bs > 0 && Written(dst, bs, total, cs, bytes, data) == true && BlocksOf(cs) == m
    requires 0 < n <= READ_BLOCKS && m + n <= total && |buf| == At(n, bs) && buf == Window(bytes, At(m, bs), At(n, bs))
    requires IsRead(s, m, n, data, bs)
    modifies dst
    ensures ok ==> Written(dst, bs, total, out, bytes, data) == true && BlocksOf(out) == m + n && |out| == |cs| + count
    ensures !ok ==> Oversized(bytes, data, bs) == true
  {
    hide BlockHasData, ReadBoundary, Tells, Describes, Runs, KindOf, Written, Oversized, IsRun, BlocksOf;
    ReadBegins(s, m, n, data, bs);
    hide IsRead, OneRead;
    WholeRead(buf, n, bs);
    var runs := AnalyzeBlockRuns(buf, bs);
    RunsTotal(runs, buf, bs, n);
    count, out := 0, cs;
    for k := 0 to |runs|
      invariant Written(dst, bs, total, out, bytes, data) == true
      invariant BlocksOf(out) == m + RunBlocks(runs[..k]) && |out| == |cs| + count
      invariant k == 0 ==> out == cs
      invariant k > 0 ==> out != [] && out[|out| - 1] == ChunkOf(runs[k - 1])
    {
      RunsAt(runs, k, buf, bs, n);
      var c := ChunkOf(runs[k]);
      assert runs[..k + 1][..k] == runs[..k];
      RunTells(runs[k], RunBlocks(runs[..k]), buf, m, n, bytes, data, bs);
      OneReadWithin(m, n, m + RunBlocks(runs[..k]), c.blocks, data, bs);
      if k == 0 { FirstRunFollows(dst, total, cs, c, m, bytes, data, bs); }
      assert MayFollow(out, c, bytes, data, bs) == true;
      ok := WriteNext(dst, c, bs, total, out, bytes, data);
      if !ok {
        return;
      }
      out := out + [c];
      count := count + 1;
    }
    assert runs[..|runs|] == runs;
    ok := true;
  }

  lemma WholeRead(buf: seq<byte>, n: nat, bs: nat)
    requires bs > 0 && |buf| == At(n, bs)
    ensures |buf| % bs == 0 && |buf| / bs == n
  {
    MultipleMod(n, bs);
  }

  lemma FirstRunFollows(dst: File, total: nat, cs: seq<Chunk>, c: Chunk, m: nat, bytes: seq<byte>, data: seq<bool>,
                        bs: nat)
    requires Written(dst, bs, total, cs, bytes, data) && BlocksOf(cs) == m && Tells(c, m, bytes, data, bs)
    requires c.Kind() != Hole
    requires m == 0 || !BlockHasData(data, bs, m - 1) || ReadBoundary(m, data, bs)
    ensures MayFollow(cs, c, bytes, data, bs)
  {
    hide BlockHasData, ReadBoundary, Describes;
    if cs != [] { LastKind(cs, bytes, data, bs); }
  }

  // ---- the extents of a file, read by read ----

  function Padded(d: seq<byte>, size: nat): seq<byte> {
    if |d| < size then d + Zeros(size - |d|) else d
  }

  /** A read of whole blocks, padded, is the window of those blocks; only the last may be short. */
  lemma PaddedRead(bytes: seq<byte>, m: nat, n: nat, bs: nat, d: seq<byte>)
    requires bs > 0 && n > 0 && m + n <= TotalBlocks(|bytes|, bs)
    requires d == ReadAt(bytes, At(m, bs), At(n, bs))
    ensures Padded(d, At(n, bs)) == Window(bytes, At(m, bs), At(n, bs))
    ensures m + n < TotalBlocks(|bytes|, bs) ==> At(m, bs) + |d| == At(m + n, bs)
  {
    AtAdd(m, n, bs);
    AtMono(m, TotalBlocks(|bytes|, bs) - 1, bs);
    if m + n < TotalBlocks(|bytes|, bs) { AtMono(m + n, TotalBlocks(|bytes|, bs) - 1, bs); }
  }

  lemma ExtentRead(e: Extent, m: nat, n: nat, data: seq<bool>, bs: nat)
    requires IsExtent(e, data, bs) && e.hasData && (e.start > 0 ==> !BlockHasData(data, bs, e.start - 1))
    requires Aligned(e.start, m) && n <= READ_BLOCKS && m + n <= e.End()
    ensures IsRead(e.start, m, n, data, bs) == true
  {
    hide BlockHasData;
  }

  method WriteDataExtent(src: File, dst: File, e: Extent, bs: nat, ghost total: nat, ghost cs: seq<Chunk>)
    returns (ok: bool, count: nat, ghost out: seq<Chunk>)
    requires src.Valid() && src != dst && bs > 0 && total == TotalBlocks(|src.bytes|, bs)
    requires Written(dst, bs, total, cs, src.bytes, src.data) == true && BlocksOf(cs) == e.start
    requires IsExtent(e, src.data, bs) && e.hasData && e.End() <= total
    requires e.start > 0 ==> !BlockHasData(src.data, bs, e.start - 1)
    modifies src`pos, dst
    ensures ok ==>
      && Written(dst, bs, total, out, src.bytes, src.data) == true && BlocksOf(out) == e.End()
      && |out| == |cs| + count
    ensures !ok ==> Oversized(src.bytes, src.data, bs) == true
  {
    hide BlockHasData, ReadBoundary, Written, Oversized, BlocksOf, ReadAt, Padded, TotalBlocks, IsRead;
    assert Aligned(e.start, e.start) == true;
    src.Seek(e.start * bs);
    var remaining := e.blocks;
    count, out := 0, cs;
    ghost var m := e.start;
    while remaining > 0
      invariant 0 <= remaining <= e.blocks && m == e.End() - remaining
      invariant remaining > 0 ==> src.pos == At(m, bs) && Aligned(e.start, m) == true
      invariant Written(dst, bs, total, out, src.bytes, src.data) == true
      invariant BlocksOf(out) == m && |out| == |cs| + count
    {
      var n := if READ_BLOCKS < remaining then READ_BLOCKS else remaining;
      var d := src.Read(n * bs);
      PaddedRead(src.bytes, m, n, bs, d);
      AlignedNext(e.start, m);
      ExtentRead(e, m, n, src.data, bs);
      var more;
      ok, more, out := WriteRead(dst, Padded(d, n * bs), bs, e.start, m, n, total, out, src.bytes, src.data);
      if !ok {
        return;
      }
      count := count + more;
      remaining := remaining - n;
      m := m + n;
    }
    ok := true;
  }

  lemma HoleFollows(dst: File, total: nat, cs: seq<Chunk>, e: Extent, bytes: seq<byte>, data: seq<bool>, bs: nat)
    requires Written(dst, bs, total, cs, bytes, data) && BlocksOf(cs) == e.start
    requires IsExtent(e, data, bs) && !e.hasData
    requires e.start > 0 ==> BlockHasData(data, bs, e.start - 1)
    ensures MayFollow(cs, DontCare(e.blocks), bytes, data, bs)
  {
    hide BlockHasData, ReadBoundary, Describes;
    if cs != [] { LastKind(cs, bytes, data, bs); }
  }

  /** The image of a file: `cs` is what it holds, and its header counts them. */
  ghost predicate IsImage(image: seq<byte>, cs: seq<Chunk>, bytes: seq<byte>, data: seq<bool>, bs: nat) {
    && 0 < bs < Limit(4) && AllFit(cs)
    && Describes(cs, bytes, data, bs)
    && BlocksOf(cs) == TotalBlocks(|bytes|, bs) < Limit(4)
    && |cs| <= BlocksOf(cs)
    && image == Header(bs, BlocksOf(cs), |cs|) + Records(cs)
  }

  /** Whether the file can be converted at all. */
  ghost predicate Convertible(bytes: seq<byte>, data: seq<bool>, bs: int) {
    && 1024 <= bs < Limit(4) && bs % 4 == 0
    && TotalBlocks(|bytes|, bs) < Limit(4)
    && !Oversized(bytes, data, bs)
  }

  function ExtentStart(m: nat, data: seq<bool>, bs: nat): (s: nat)
    ensures s <= m && Begins(s, m, data, bs)
  {
    if m > 0 && BlockHasData(data, bs, m - 1) then ExtentStart(m - 1, data, bs) else m
  }

  /** Within `READ_BLOCKS` blocks of data another read begins. */
  lemma NextRead(m: nat, n: nat, data: seq<bool>, bs: nat)
    requires n > READ_BLOCKS && forall b :: m <= b < m + n ==> BlockHasData(data, bs, b)
    ensures !OneRead(m, n, data, bs)
  {
    hide BlockHasData;
    var s := ExtentStart(m, data, bs);
    var b := s + ((m - s) / READ_BLOCKS + 1) * READ_BLOCKS;
    MultipleMod((m - s) / READ_BLOCKS + 1, READ_BLOCKS);
    assert m < b <= m + READ_BLOCKS;
    assert Begins(s, b, data, bs);
    assert ReadBoundary(b, data, bs);
  }

  lemma SmallRun(m: nat, n: nat, bytes: seq<byte>, data: seq<bool>, bs: nat)
    requires 12 + At(READ_BLOCKS, bs) < Limit(4) && PlainRun(m, n, bytes, data, bs) && OneRead(m, n, data, bs)
    ensures 12 + At(n, bs) < Limit(4)
  {
    hide BlockHasData, OneRead;
    if n > READ_BLOCKS {
      PlainHasData(m, n, bytes, data, bs);
      NextRead(m, n, data, bs);
    } else {
      AtMono(n, READ_BLOCKS, bs);
    }
  }

  lemma PlainHasData(m: nat, n: nat, bytes: seq<byte>, data: seq<bool>, bs: nat)
    requires PlainRun(m, n, bytes, data, bs)
    ensures forall b :: m <= b < m + n ==> BlockHasData(data, bs, b)
  {
    hide BlockHasData;
    forall b | m <= b < m + n ensures BlockHasData(data, bs, b) {
      assert KindOf(bytes, data, bs, b) == Plain;
    }
  }

  /** Where a whole read fits into a record, every file is convertible. */
  lemma SmallBlocksConvert(bytes: seq<byte>, data: seq<bool>, bs: nat)
    requires |bytes| == |data| && 1024 <= bs && bs % 4 == 0
    requires 12 + At(READ_BLOCKS, bs) < Limit(4) && TotalBlocks(|bytes|, bs) < Limit(4)
    ensures Convertible(bytes, data, bs)
  {
    hide BlockHasData, OneRead, PlainRun;
    Limits();
    forall m: nat, n: nat | n > 0 && PlainRun(m, n, bytes, data, bs) && OneRead(m, n, data, bs)
        ensures 12 + At(n, bs) < Limit(4) {
      SmallRun(m, n, bytes, data, bs);
    }
  }

  method WritePlaceholder(dst: File, bs: nat, total: nat, ghost bytes: seq<byte>, ghost data: seq<bool>)
    requires dst.Valid() && !dst.fixed && dst.bytes == [] && dst.pos == 0 && bs < Limit(4) && total < Limit(4)
    modifies dst
    ensures Written(dst, bs, total, [], bytes, data) == true
  {
    Append(dst, Header(bs, total, 0));
  }

  /** Goes back to the header and writes it again, with the count. */
  method WriteCount(dst: File, bs: nat, total: nat, count: nat, ghost cs: seq<Chunk>, ghost bytes: seq<byte>,
                    ghost data: seq<bool>)
    requires Written(dst, bs, total, cs, bytes, data) && bs > 0
    requires BlocksOf(cs) == total == TotalBlocks(|bytes|, bs) && |cs| == count
    modifies dst
    ensures IsImage(dst.bytes, cs, bytes, data, bs) == true
  {
    hide Describes;
    BlocksAtLeast(cs, bytes, data, bs);
    dst.Seek(0);
    PatchHeader(bs, total, count, Records(cs));
    var _ := dst.Write(Header(bs, total, count));
  }

  lemma PatchHeader(bs: nat, total: nat, count: nat, records: seq<byte>)
    requires bs < Limit(4) && total < Limit(4) && count < Limit(4)
    ensures Overwrite(Header(bs, total, 0) + records, 0, Header(bs, total, count)) == Header(bs, total, count) + records
  {}

  method WriteExtents(src: File, dst: File, extents: seq<Extent>, bs: nat, ghost total: nat)
    returns (ok: bool, count: nat, ghost cs: seq<Chunk>)
    requires src.Valid() && src != dst && bs > 0 && total == TotalBlocks(|src.bytes|, bs)
    requires Extents(extents, src.data, bs, total) == true
    requires Written(dst, bs, total, [], src.bytes, src.data) == true
    modifies src`pos, dst
    ensures ok ==> Written(dst, bs, total, cs, src.bytes, src.data) == true && BlocksOf(cs) == total && |cs| == count
    ensures !ok ==> Oversized(src.bytes, src.data, bs) == true
  {
    hide BlockHasData, Written, Oversized;
    count, cs := 0, [];
    for k := 0 to |extents|
      invariant Written(dst, bs, total, cs, src.bytes, src.data) == true
      invariant BlocksOf(cs) == EndOf(extents[..k]) && |cs| == count
    {
      var e := extents[k];
      ExtentAt(extents, k, src.data, bs, total);
      if !e.hasData {
        HoleFollows(dst, total, cs, e, src.bytes, src.data, bs);
        ok := WriteNext(dst, DontCare(e.blocks), bs, total, cs, src.bytes, src.data);
        cs := cs + [DontCare(e.blocks)];
        count := count + 1;
      } else {
        var more;
        ok, more, cs := WriteDataExtent(src, dst, e, bs, total, cs);
        count := count + more;
      }
      if !ok {
        return;
      }
    }
    assert extents[..|extents|] == extents;
    StartsAtEnd(extents, src.data, bs, total);
    ok := true;
  }

  lemma {:induction false} ExtentAt(es: seq<Extent>, k: nat, data: seq<bool>, bs: nat, upTo: nat)
    requires Extents(es, data, bs, upTo) == true && k < |es|
    ensures IsExtent(es[k], data, bs) && es[k].start == EndOf(es[..k]) && EndOf(es[..k + 1]) == es[k].End() <= upTo
    ensures es[k].start > 0 ==> BlockHasData(data, bs, es[k].start - 1) != es[k].hasData
  {
    hide BlockHasData;
    var before := es[..|es| - 1];
    if k < |before| {
      ExtentAt(before, k, data, bs, es[|es| - 1].start);
      assert before[..k] == es[..k] && before[..k + 1] == es[..k + 1];
    } else {
      assert es[..k] == before && es[..k + 1] == es;
      StartsAtEnd(before, data, bs, es[k].start);
    }
  }

  lemma StartsAtEnd(es: seq<Extent>, data: seq<bool>, bs: nat, upTo: nat)
    requires Extents(es, data, bs, upTo)
    ensures EndOf(es) == upTo
    ensures upTo > 0 ==> es != [] && BlockHasData(data, bs, upTo - 1) == es[|es| - 1].hasData
  {
    hide BlockHasData;
  }

  method ConvertToSimg(src: File, dst: File, bs: int) returns (r: Outcome, ghost cs: seq<Chunk>)
    requires src.Valid() && src != dst && !dst.fixed
    modifies src`pos, dst
    ensures r == BlockTooSmall <==> bs < 1024
    ensures r == BlockNotMultipleOf4 <==> bs >= 1024 && bs % 4 != 0
    ensures r == Converted <==> Convertible(src.bytes, src.data, bs)
    ensures r == Converted ==> IsImage(dst.bytes, cs, src.bytes, src.data, bs) == true
  {
    hide BlockHasData, Written, BlocksOf, Describes, Extents, Oversized;
    cs := [];
    if bs < 1024 { return BlockTooSmall, cs; }
    if bs % 4 != 0 { return BlockNotMultipleOf4, cs; }
    var total := TotalBlocks(|src.bytes|, bs);
    var extents := FindExtents(src.data, bs, total);
    dst.Truncated();
    if bs >= Limit(4) || total >= Limit(4) { return FieldOverflow, cs; }
    WritePlaceholder(dst, bs, total, src.bytes, src.data);
    var ok, count;
    ok, count, cs := WriteExtents(src, dst, extents, bs, total);
    if !ok { return FieldOverflow, cs; }
    WriteCount(dst, bs, total, count, cs, src.bytes, src.data);
    FittingImage(cs, src.bytes, src.data, bs);
    return Converted, cs;
  }
}
