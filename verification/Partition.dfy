/** Cutting partitions out of a disk image that has holes: `truncate_partition_size` and
    `extract_part_of_file`. */
module Partition {
  import opened Bytes
  import opened ByteFile
  import opened Options

  function RoundUp(n: nat, block: nat): (r: nat)
    requires block > 0
    ensures n <= r < n + block && r % block == 0
  {
    RoundUpIs(n, block);
    (n + block - 1) / block * block
  }

  lemma RoundUpIs(n: nat, block: nat)
    requires block > 0
    ensures var r := (n + block - 1) / block * block; n <= r < n + block && r % block == 0
  {
    var m := n + block - 1;
    assert m == m / block * block + m % block;
    MultipleMod(m / block, block);
  }

  /** Whether the window from `start` has data at offset `i`. */
  predicate DataAt(data: seq<bool>, start: nat, i: nat) {
    start + i < |data| && data[start + i]
  }

  function Min(a: nat, b: nat): nat {
    if a < b then a else b
  }

  /** How much of the window must be kept.  What is cut off is hole, the last kept block is not. */
  method TruncatePartitionSize(src: File, start: nat, size: nat, block: nat) returns (r: nat)
    requires block > 0
    ensures r <= size && (r == size || r % block == 0)
    ensures r == 0 <==> size == 0 || NoData(src.data, start, start + size)
    ensures NoData(src.data, start + r, start + size)
    ensures r > 0 ==> exists i :: 0 <= i < r && i + block >= r && DataAt(src.data, start, i)
  {
    var end := start + size;
    var pos := start;
    var lastDataEnd: Option<nat> := None;
    while pos < end
      invariant start <= pos <= end
      invariant lastDataEnd.None? ==> NoData(src.data, start, pos)
      invariant lastDataEnd.Some? ==> lastDataEnd.value == pos && start < pos <= |src.data| && src.data[pos - 1]
    {
      var d := SeekData(src.data, pos);
      if d.None? || d.value >= end {
        assert NoData(src.data, pos, end);
        break;
      }
      var h := SeekHole(src.data, d.value);
      var holeStart := end;
      if h.Some? && h.value < end {
        holeStart := h.value;
      }
      lastDataEnd := Some(holeStart);
      if holeStart >= end {
        pos := end;
        break;
      }
      pos := holeStart;
    }
    if lastDataEnd.None? {
      return 0;
    }
    assert DataAt(src.data, start, lastDataEnd.value - 1 - start);
    if lastDataEnd.value < end {
      var newSize := lastDataEnd.value - start;
      r := Min(RoundUp(newSize, block), size);
    } else {
      r := size;
    }
  }

  // ---- extraction ----

  /** The data positions of a window, relative to its start. */
  function DataWindow(data: seq<bool>, start: nat, size: nat): (w: seq<bool>)
    ensures |w| == size && forall i :: 0 <= i < size ==> w[i] == DataAt(data, start, i)
  {
    seq(size, i requires 0 <= i => DataAt(data, start, i))
  }

  function CountData(data: seq<bool>, lo: nat, hi: nat): nat
    requires lo <= hi
    decreases hi - lo
  {
    if lo == hi then 0 else CountData(data, lo, hi - 1) + (if hi - 1 < |data| && data[hi - 1] then 1 else 0)
  }

  lemma {:induction false} CountNone(data: seq<bool>, lo: nat, mid: nat, hi: nat)
    requires lo <= mid <= hi && NoData(data, mid, hi)
    ensures CountData(data, lo, hi) == CountData(data, lo, mid)
  {
    if mid < hi { CountNone(data, lo, mid, hi - 1); }
  }

  lemma {:induction false} CountAll(data: seq<bool>, lo: nat, mid: nat, hi: nat)
    requires lo <= mid <= hi && AllData(data, mid, hi)
    ensures CountData(data, lo, hi) == CountData(data, lo, mid) + hi - mid
  {
    if mid < hi { CountAll(data, lo, mid, hi - 1); }
  }

  /** What the destination holds once the window has been copied up to `upTo`: it may be short, and
      where it is short, or has a hole, the window has no data. */
  ghost predicate CopiedUpTo(b: seq<byte>, d: seq<bool>, bytes: seq<byte>, data: seq<bool>, start: nat, upTo: nat) {
    && |b| == |d| && |b| <= upTo
    && (forall i :: 0 <= i < |b| ==>
        b[i] == (if start + i < |bytes| then bytes[start + i] else 0) && d[i] == DataAt(data, start, i))
    && NoData(data, start + |b|, start + upTo)
  }

  lemma CopySkips(b: seq<byte>, d: seq<bool>, bytes: seq<byte>, data: seq<bool>, start: nat, upTo: nat, next: nat)
    requires CopiedUpTo(b, d, bytes, data, start, upTo) && upTo <= next && NoData(data, start + upTo, start + next)
    ensures CopiedUpTo(b, d, bytes, data, start, next)
  {}

  lemma CopyWrites(b: seq<byte>, d: seq<bool>, bytes: seq<byte>, data: seq<bool>, start: nat, upTo: nat, n: nat)
    requires Consistent(bytes, data) && CopiedUpTo(b, d, bytes, data, start, upTo)
    requires n > 0 && AllData(data, start + upTo, start + upTo + n)
    ensures |ReadAt(bytes, start + upTo, n)| == n
    ensures CopiedUpTo(Overwrite(b, upTo, ReadAt(bytes, start + upTo, n)), Mark(d, upTo, n), bytes, data, start,
                         upTo + n) == true
  {
    var w, e := Overwrite(b, upTo, ReadAt(bytes, start + upTo, n)), Mark(d, upTo, n);
    hide Overwrite, Mark;
    forall i | 0 <= i < |w|
        ensures w[i] == (if start + i < |bytes| then bytes[start + i] else 0) && e[i] == DataAt(data, start, i) {}
  }

  lemma CopyEnds(b: seq<byte>, d: seq<bool>, bytes: seq<byte>, data: seq<bool>, start: nat, size: nat)
    requires Consistent(bytes, data) && CopiedUpTo(b, d, bytes, data, start, size)
    ensures Window(b, 0, size) == Window(bytes, start, size)
    ensures forall i :: 0 <= i < size ==> (i < |d| && d[i]) == DataAt(data, start, i)
  {}

  /** The inner loop: one data region, in chunks. */
  method CopyRegion(src: File, dst: File, start: nat, from: nat, to: nat, chunk: nat) returns (written: nat)
    requires src.Valid() && dst.Valid() && src != dst && chunk > 0 && !dst.fixed
    requires start <= from < to && AllData(src.data, from, to)
    requires CopiedUpTo(dst.bytes, dst.data, src.bytes, src.data, start, from - start) == true
    modifies src`pos, dst
    ensures dst.Valid() && CopiedUpTo(dst.bytes, dst.data, src.bytes, src.data, start, to - start) == true
    ensures written == to - from
  {
    hide CopiedUpTo, Overwrite, Mark, ReadAt;
    src.Seek(from);
    dst.Seek(from - start);
    written := 0;
    var remaining := to - from;
    while remaining > 0
      invariant 0 <= remaining <= to - from && dst.Valid()
      invariant src.pos == to - remaining && dst.pos == src.pos - start && written == src.pos - from
      invariant CopiedUpTo(dst.bytes, dst.data, src.bytes, src.data, start, dst.pos) == true
    {
      var toRead := Min(chunk, remaining);
      CopyWrites(dst.bytes, dst.data, src.bytes, src.data, start, dst.pos, toRead);
      var piece := src.Read(toRead);
      if piece == [] {
        break;
      }
      var _ := dst.Write(piece);
      written := written + |piece|;
      remaining := remaining - |piece|;
    }
  }

  /** Copies the window, writing its data and nothing else. */
  method ExtractPart(src: File, dst: File, start: nat, size: nat, chunk: nat) returns (written: nat)
    requires src.Valid() && src != dst && chunk > 0 && !dst.fixed
    modifies src`pos, dst
    ensures dst.Valid() && dst.bytes == Window(src.bytes, start, size) && dst.data == DataWindow(src.data, start, size)
    ensures written == CountData(src.data, start, start + size)
  {
    dst.Truncated();
    written := 0;
    var end := start + size;
    var pos := start;
    while pos < end
      invariant start <= pos <= end && dst.Valid()
      invariant CopiedUpTo(dst.bytes, dst.data, src.bytes, src.data, start, pos - start)
      invariant written == CountData(src.data, start, pos)
    {
      var d := SeekData(src.data, pos);
      if d.None? || d.value >= end {
        break;
      }
      var h := SeekHole(src.data, d.value);
      var holeStart := end;
      if h.Some? && h.value < end {
        holeStart := h.value;
      }
      CountNone(src.data, start, pos, d.value);
      CountAll(src.data, start, d.value, holeStart);
      CopySkips(dst.bytes, dst.data, src.bytes, src.data, start, pos - start, d.value - start);
      var n := CopyRegion(src, dst, start, d.value, holeStart, chunk);
      written := written + n;
      pos := holeStart;
    }
    CountNone(src.data, start, pos, end);
    CopySkips(dst.bytes, dst.data, src.bytes, src.data, start, pos - start, size);
    CopyEnds(dst.bytes, dst.data, src.bytes, src.data, start, size);
    if size > 0 {
      dst.Resize(size);
    }
    assert dst.data == DataWindow(src.data, start, size);
  }

  /** Extracting the truncated partition and extending it with a hole is extracting the whole one. */
  lemma TruncationLosesNothing(bytes: seq<byte>, data: seq<bool>, start: nat, size: nat, r: nat)
    requires Consistent(bytes, data) && r <= size && NoData(data, start + r, start + size)
    ensures Window(Window(bytes, start, r), 0, size) == Window(bytes, start, size)
    ensures DataWindow(DataWindow(data, start, r), 0, size) == DataWindow(data, start, size)
  {}
}
