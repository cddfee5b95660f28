/** The metadata area header of an LVM disk: a checksummed 512-byte sector with a null-terminated list
    of where metadata texts are. */
module LvmHeader {
  import opened Bytes
  import opened ByteFile

  const HEADER_SIZE: nat := 512

  datatype Head = Head(checksum: nat, magic: seq<byte>, version: nat, start: nat, size: nat)
  {
    predicate Fits() { checksum < Limit(4) && |magic| == 16 && version < Limit(4) && start < Limit(8)
                      && size < Limit(8) }
  }

  datatype Loc = Loc(offset: nat, size: nat, checksum: nat, flags: nat)
  {
    predicate Fits() { offset < Limit(8) && size < Limit(8) && checksum < Limit(4) && flags < Limit(4) }
  }

  /** A list that can be read back: it ends at the first zero offset. */
  predicate Listable(locs: seq<Loc>) {
    forall i :: 0 <= i < |locs| ==> locs[i].Fits() && locs[i].offset != 0
  }

  function PackHead(h: Head): (b: seq<byte>)
    requires h.Fits()
    ensures |b| == 40
  {
    LE(h.checksum, 4) + h.magic + LE(h.version, 4) + LE(h.start, 8) + LE(h.size, 8)
  }

  function UnpackHead(b: seq<byte>): (h: Head)
    requires |b| == 40
  {
    Head(Field(b, 0, 4), b[4..20], Field(b, 20, 4), Field(b, 24, 8), Field(b, 32, 8))
  }

  function PackLoc(l: Loc): (b: seq<byte>)
    requires l.Fits()
    ensures |b| == 24
  {
    LE(l.offset, 8) + LE(l.size, 8) + LE(l.checksum, 4) + LE(l.flags, 4)
  }

  function UnpackLoc(b: seq<byte>): Loc
    requires |b| == 24
  {
    Loc(Field(b, 0, 8), Field(b, 8, 8), Field(b, 16, 4), Field(b, 20, 4))
  }

  function PackLocs(locs: seq<Loc>): (b: seq<byte>)
    requires forall i :: 0 <= i < |locs| ==> locs[i].Fits()
    ensures |b| == 24 * |locs|
  {
    if locs == [] then [] else PackLocs(locs[..|locs| - 1]) + PackLoc(locs[|locs| - 1])
  }

  /** `read_array`. */
  function ReadLocs(b: seq<byte>, pos: nat): seq<Loc>
    decreases |b| - pos
  {
    var d := ReadAt(b, pos, 24);
    if |d| < 24 || UnpackLoc(d).offset == 0 then [] else [UnpackLoc(d)] + ReadLocs(b, pos + 24)
  }

  lemma HeadFields(h: Head)
    requires h.Fits()
    ensures var b := PackHead(h);
      && b[0..4] == LE(h.checksum, 4) && b[4..20] == h.magic && b[20..24] == LE(h.version, 4)
      && b[24..32] == LE(h.start, 8) && b[32..40] == LE(h.size, 8)
  {
    var c, v, s, z := LE(h.checksum, 4), LE(h.version, 4), LE(h.start, 8), LE(h.size, 8);
    hide LE;
    Fields4(c, h.magic, v, s);
    var front := c + h.magic + v + s;
    SliceKeep(front, z, 0, 4);
    SliceKeep(front, z, 4, 20);
    SliceKeep(front, z, 20, 24);
    SliceKeep(front, z, 24, 32);
    SliceLast(front, z);
  }

  lemma HeadRoundTrip(h: Head)
    requires h.Fits()
    ensures UnpackHead(PackHead(h)) == h
  {
    HeadFields(h);
    var b := PackHead(h);
    hide LE, Field, PackHead;
    FieldOf(b, 0, h.checksum, 4);
    FieldOf(b, 20, h.version, 4);
    FieldOf(b, 24, h.start, 8);
    FieldOf(b, 32, h.size, 8);
  }

  lemma LocFields(l: Loc)
    requires l.Fits()
    ensures var b := PackLoc(l);
      && b[0..8] == LE(l.offset, 8) && b[8..16] == LE(l.size, 8)
      && b[16..20] == LE(l.checksum, 4) && b[20..24] == LE(l.flags, 4)
  {
    Fields4(LE(l.offset, 8), LE(l.size, 8), LE(l.checksum, 4), LE(l.flags, 4));
    hide LE;
  }

  lemma LocRoundTrip(l: Loc)
    requires l.Fits()
    ensures UnpackLoc(PackLoc(l)) == l
  {
    LocFields(l);
    var b := PackLoc(l);
    hide LE, Field, PackLoc;
    FieldOf(b, 0, l.offset, 8);
    FieldOf(b, 8, l.size, 8);
    FieldOf(b, 16, l.checksum, 4);
    FieldOf(b, 20, l.flags, 4);
  }

  // ---- the sector ----

  /** What `write` puts on the disk, its checksum being `checksum`. */
  function Sector(h: Head, locs: seq<Loc>, checksum: nat): (b: seq<byte>)
    requires h.Fits() && checksum < Limit(4) && forall i :: 0 <= i < |locs| ==> locs[i].Fits()
    ensures |b| == if 40 + 24 * |locs| < HEADER_SIZE then HEADER_SIZE else 40 + 24 * |locs|
  {
    var b := PackHead(h.(checksum := checksum)) + PackLocs(locs);
    b + Zeros(if |b| < HEADER_SIZE then HEADER_SIZE - |b| else 0)
  }

  /** The checksum's own field is not part of what it covers. */
  lemma SectorTail(h: Head, locs: seq<Loc>, c: nat, d: nat)
    requires h.Fits() && c < Limit(4) && d < Limit(4) && forall i :: 0 <= i < |locs| ==> locs[i].Fits()
    ensures Sector(h, locs, c)[4..] == Sector(h, locs, d)[4..] && Field(Sector(h, locs, c), 0, 4) == c
  {
    hide LE, Field, PackLocs;
    var b := Sector(h, locs, c);
    assert b[0..4] == LE(c, 4);
    FieldOf(b, 0, c, 4);
    assert PackHead(h.(checksum := c))[4..] == PackHead(h.(checksum := d))[4..];
    assert b[4..] == PackHead(h.(checksum := c))[4..] + b[40..];
    assert Sector(h, locs, d)[4..] == PackHead(h.(checksum := d))[4..] + Sector(h, locs, d)[40..];
  }

  lemma {:induction false} LocIsAt(locs: seq<Loc>, k: nat)
    requires k < |locs| && forall i :: 0 <= i < |locs| ==> locs[i].Fits()
    ensures HasAt(PackLocs(locs), 24 * k, PackLoc(locs[k]))
  {
    hide PackLoc;
    if k < |locs| - 1 { LocIsAt(locs[..|locs| - 1], k); }
  }

  lemma HasWithin(b: seq<byte>, at: nat, d: seq<byte>, p: nat, e: seq<byte>)
    requires HasAt(b, at, d) && HasAt(d, p, e)
    ensures HasAt(b, at + p, e) && ReadAt(b, at + p, |e|) == e
  {
    var x := b[at + p..at + p + |e|];
    forall i | 0 <= i < |e| ensures x[i] == e[i] {
      assert b[at..at + |d|][p + i] == d[p + i] && d[p..p + |e|][i] == e[i];
    }
    assert x == e;
  }

  lemma SectorHasLoc(h: Head, locs: seq<Loc>, c: nat, k: nat)
    requires h.Fits() && c < Limit(4) && k < |locs| && forall i :: 0 <= i < |locs| ==> locs[i].Fits()
    ensures HasAt(Sector(h, locs, c), 40 + 24 * k, PackLoc(locs[k]))
  {
    hide PackHead, PackLocs, PackLoc;
    LocIsAt(locs, k);
    var head := PackHead(h.(checksum := c));
    assert HasAt(head + PackLocs(locs), 40, PackLocs(locs));
    assert HasAt(Sector(h, locs, c), 0, head + PackLocs(locs));
    HasWithin(head + PackLocs(locs), 40, PackLocs(locs), 24 * k, PackLoc(locs[k]));
    HasWithin(Sector(h, locs, c), 0, head + PackLocs(locs), 40 + 24 * k, PackLoc(locs[k]));
  }

  /** Nothing but a list that fits the sector can be read back from it. */
  lemma {:induction false} LocsReadBack(disk: seq<byte>, at: nat, h: Head, locs: seq<Loc>, c: nat, k: nat)
    requires h.Fits() && c < Limit(4) && Listable(locs) && 40 + 24 * |locs| <= HEADER_SIZE && k <= |locs|
    requires HasAt(disk, at, Sector(h, locs, c))
    ensures ReadLocs(disk, at + 40 + 24 * k) == locs[k..]
    decreases |locs| - k
  {
    hide PackHead, PackLocs, UnpackLoc, PackLoc;
    var sector := Sector(h, locs, c);
    if k < |locs| {
      LocRoundTrip(locs[k]);
      var p := 40 + 24 * k;
      SectorHasLoc(h, locs, c, k);
      HasWithin(disk, at, sector, p, PackLoc(locs[k]));
      LocsReadBack(disk, at, h, locs, c, k + 1);
      assert locs[k..] == [locs[k]] + locs[k + 1..];
    } else {
      NoMoreLocs(disk, at, h, locs, c);
    }
  }

  lemma NoMoreLocs(disk: seq<byte>, at: nat, h: Head, locs: seq<Loc>, c: nat)
    requires h.Fits() && c < Limit(4) && Listable(locs) && 40 + 24 * |locs| <= HEADER_SIZE
    requires HasAt(disk, at, Sector(h, locs, c))
    ensures ReadLocs(disk, at + 40 + 24 * |locs|) == []
  {
    hide PackHead, PackLocs;
    var sector, p := Sector(h, locs, c), 40 + 24 * |locs|;
    assert p + 8 <= HEADER_SIZE == |sector|;
    var d := ReadAt(disk, at + p, 24);
    if |d| == 24 {
      ZerosBehind(PackHead(h.(checksum := c)) + PackLocs(locs), HEADER_SIZE - p);
      ReadBegins(disk, at, sector, p);
      ZeroField(8);
    }
  }

  lemma ZerosBehind(b: seq<byte>, n: nat)
    requires n >= 8
    ensures (b + Zeros(n))[|b|..|b| + 8] == Zeros(8)
  {}

  lemma ReadBegins(disk: seq<byte>, at: nat, d: seq<byte>, p: nat)
    requires HasAt(disk, at, d) && p + 8 <= |d| && |ReadAt(disk, at + p, 24)| == 24
    ensures ReadAt(disk, at + p, 24)[0..8] == d[p..p + 8]
  {
    var r := ReadAt(disk, at + p, 24);
    forall i | 0 <= i < 8 ensures r[i] == d[p + i] {
      assert disk[at..at + |d|][p + i] == d[p + i];
    }
  }

  lemma {:induction false} ZeroField(n: nat)
    ensures FromLE(Zeros(n)) == 0
  {
    if n > 0 {
      assert Zeros(n)[1..] == Zeros(n - 1);
      ZeroField(n - 1);
    }
  }

  lemma HeadReadsBack(disk: seq<byte>, at: nat, h: Head, locs: seq<Loc>, c: nat)
    requires h.Fits() && c < Limit(4) && forall i :: 0 <= i < |locs| ==> locs[i].Fits()
    requires HasAt(disk, at, Sector(h, locs, c))
    ensures ReadAt(disk, at, 40) == PackHead(h.(checksum := c)) && UnpackHead(ReadAt(disk, at, 40)) == h.(checksum := c)
  {
    hide PackHead, UnpackHead, PackLocs;
    HeadRoundTrip(h.(checksum := c));
    var sector := Sector(h, locs, c);
    assert ReadAt(disk, at, 40) == disk[at..at + |sector|][..40];
  }
}
