/** Files with holes.  A file is its bytes and, for each, whether it lies in a data region; a hole
    reads as zeros.  Reads and writes are complete; `Seek` may go past the end. */
module ByteFile {
  import opened Bytes
  import opened Options

  // ---- SEEK_DATA and SEEK_HOLE, as the lseek() page of POSIX.1-2024 has them ----

  /** The first data position at or after `pos`; `None` is ENXIO. */
  function SeekData(data: seq<bool>, pos: nat): (r: Option<nat>)
    ensures r.Some? ==> pos <= r.value < |data| && data[r.value] && NoData(data, pos, r.value)
    ensures r.None? ==> NoData(data, pos, |data|)
    decreases |data| - pos
  {
    if pos >= |data| then None else if data[pos] then Some(pos) else SeekData(data, pos + 1)
  }

  /** The first hole position at or after `pos`, the end of the file counting as a hole. */
  function SeekHole(data: seq<bool>, pos: nat): (r: Option<nat>)
    ensures r.Some? ==> pos <= r.value <= |data| && AllData(data, pos, r.value) && (r.value < |data| ==> !data[r.value])
    ensures r.Some? && pos < |data| && data[pos] ==> pos < r.value
    ensures r.None? <==> pos >= |data|
    decreases |data| - pos
  {
    if pos >= |data| then None
    else if !data[pos] then Some(pos)
    else if pos + 1 == |data| then Some(pos + 1)
    else SeekHole(data, pos + 1)
  }

  predicate NoData(data: seq<bool>, lo: nat, hi: nat) {
    forall i :: lo <= i < hi && i < |data| ==> !data[i]
  }

  predicate AllData(data: seq<bool>, lo: nat, hi: nat) {
    hi <= |data| && forall i :: lo <= i < hi ==> data[i]
  }

  /** What is not data reads as zero. */
  predicate Consistent(bytes: seq<byte>, data: seq<bool>) {
    |bytes| == |data| && forall i :: 0 <= i < |bytes| && !data[i] ==> bytes[i] == 0
  }

  /** The result of writing `d` at `pos`: a gap before `pos` becomes a hole. */
  function Overwrite(b: seq<byte>, pos: nat, d: seq<byte>): (r: seq<byte>)
    ensures d == [] ==> r == b
    ensures d != [] ==> |r| == (if pos + |d| > |b| then pos + |d| else |b|)
    ensures d != [] ==> forall i :: 0 <= i < |r| ==>
        r[i] == (if pos <= i < pos + |d| then d[i - pos] else if i < |b| then b[i] else 0)
  {
    if d == [] then b
    else if pos > |b| then b + Zeros(pos - |b|) + d
    else b[..pos] + d + (if pos + |d| < |b| then b[pos + |d|..] else [])
  }

  function Mark(data: seq<bool>, pos: nat, n: nat): (r: seq<bool>)
    ensures n == 0 ==> r == data
    ensures n > 0 ==> |r| == (if pos + n > |data| then pos + n else |data|)
    ensures n > 0 ==> forall i :: 0 <= i < |r| ==> (r[i] <==> pos <= i < pos + n || (i < |data| && data[i]))
  {
    if n == 0 then data
    else
      seq(if pos + n > |data| then pos + n else |data|,
          i requires 0 <= i => pos <= i < pos + n || (i < |data| && data[i]))
  }

  /** What a read of `n` bytes at `pos` gives. */
  function ReadAt(b: seq<byte>, pos: nat, n: nat): (d: seq<byte>) {
    if pos >= |b| then [] else if pos + n <= |b| then b[pos..pos + n] else b[pos..]
  }

  class File {
    var bytes: seq<byte>
    var data: seq<bool>
    var pos: nat
    /** A block device keeps its size. */
    const fixed: bool

    ghost predicate Valid()
      reads this
    {
      Consistent(bytes, data)
    }

    /** A file just created, or truncated by `open(..., "wb")`. */
    constructor ()
      ensures Valid() && bytes == [] && data == [] && pos == 0 && !fixed
    {
      bytes, data, pos, fixed := [], [], 0, false;
    }

    /** Opening for writing, which empties a file but not a device. */
    method Truncated()
      requires fixed ==> Valid()
      modifies this
      ensures Valid() && pos == 0
      ensures if fixed then bytes == old(bytes) && data == old(data) else bytes == [] && data == []
    {
      pos := 0;
      if !fixed { bytes, data := [], []; }
    }

    method Seek(p: nat)
      modifies this`pos
      ensures pos == p
    {
      pos := p;
    }

    method Read(n: nat) returns (d: seq<byte>)
      modifies this`pos
      ensures d == ReadAt(bytes, old(pos), n) && pos == old(pos) + |d|
    {
      d := ReadAt(bytes, pos, n);
      pos := pos + |d|;
    }

    /** Fails, writing nothing, where a device would have to grow. */
    method Write(d: seq<byte>) returns (ok: bool)
      requires Valid()
      modifies this
      ensures Valid() && ok == !(fixed && d != [] && old(pos) + |d| > old(|bytes|))
      ensures ok ==>
        && bytes == Overwrite(old(bytes), old(pos), d) && data == Mark(old(data), old(pos), |d|)
        && pos == old(pos) + |d|
      ensures !ok ==> bytes == old(bytes) && data == old(data) && pos == old(pos)
    {
      ok := !(fixed && d != [] && pos + |d| > |bytes|);
      if ok {
        bytes, data, pos := Overwrite(bytes, pos, d), Mark(data, pos, |d|), pos + |d|;
      }
    }

    /** `ftruncate`: cuts off, or extends with a hole. */
    method Resize(size: nat)
      requires Valid()
      modifies this`bytes, this`data
      ensures Valid() && bytes == Window(old(bytes), 0, size)
      ensures |data| == size && forall i :: 0 <= i < size ==> data[i] == (i < |old(data)| && old(data)[i])
    {
      var d := data;
      data := seq(size, i requires 0 <= i => i < |d| && d[i]);
      bytes := Window(bytes, 0, size);
    }
  }
}
