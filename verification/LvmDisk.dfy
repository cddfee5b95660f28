/** Renaming a volume group on a disk: the metadata's tree, its text, and the header that says where
    the text is. */
module LvmDisk {
  import opened Bytes
  import opened ByteFile
  import opened LvmHeader
  import opened Options
  import Text = LvmText
  import Encoding = LvmEncoding
  import RoundTrips = LvmRoundTrip
  import Parser = LvmParser

  /** UTF-8 and CRC-32, as Python brings them. */
  datatype Codec = Codec(encode: string -> Option<seq<byte>>, decode: seq<byte> -> Option<string>,
                         crc: seq<byte> -> nat)
  {
    ghost predicate Valid() {
      && (forall s: string :: encode(s).Some? ==> decode(encode(s).value) == Some(s))
      && (forall b: seq<byte> :: crc(b) < Limit(4))
    }
  }

  datatype Failure = NoSuchKey | NotPrintable | NotEncodable | NotDecodable | NoLocation | BadText(error: Text.Error)
                     | NoSpace | TooLong

  datatype Status<T> = Done(value: T) | Failed(why: Failure)

  // ---- renaming ----

  predicate HasKey(d: Text.Tree, key: string) { Text.KeyAt(d, key) < |d| }

  function ValueOf(d: Text.Tree, key: string): Text.Value
    requires HasKey(d, key)
  {
    d[Text.KeyAt(d, key)].value
  }

  function Without(d: Text.Tree, key: string): (r: Text.Tree)
    ensures forall e :: e in r <==> e in d && e.key != key
  {
    if d == [] then [] else (if d[0].key == key then [] else [d[0]]) + Without(d[1..], key)
  }

  /** The section under its new name comes first; everything else but an entry that had the new name
      already follows in the old order. */
  function Renamed(d: Text.Tree, name: string, newName: string): Text.Tree
    requires HasKey(d, name)
  {
    [Text.Entry(newName, ValueOf(d, name))] + Without(Without(d, name), newName)
  }

  lemma {:induction false} WithoutAbsent(d: Text.Tree, key: string)
    requires forall e <- d :: e.key != key
    ensures Without(d, key) == d
  {
    if d != [] { WithoutAbsent(d[1..], key); }
  }

  lemma {:induction false} WithoutAt(d: Text.Tree, i: nat)
    requires Text.DistinctKeys(d) && i < |d|
    ensures Without(d, d[i].key) == d[..i] + d[i + 1..]
  {
    var key := d[i].key;
    if i == 0 {
      forall e | e in d[1..] ensures e.key != key {
        var j :| 0 <= j < |d[1..]| && d[1..][j] == e;
        assert d[j + 1] == e;
      }
      WithoutAbsent(d[1..], key);
    } else {
      WithoutAt(d[1..], i - 1);
      assert d[1..][i - 1] == d[i];
      TakeAndDrop(d, i);
    }
  }

  lemma TakeAndDrop(d: Text.Tree, i: nat)
    requires 0 < i < |d|
    ensures [d[0]] + (d[1..][..i - 1] + d[1..][i..]) == d[..i] + d[i + 1..]
  {}

  lemma {:induction false} WithoutKeepsOrder(d: Text.Tree, key: string)
    requires Text.DistinctKeys(d)
    ensures Text.DistinctKeys(Without(d, key))
  {
    if HasKey(d, key) { WithoutAt(d, Text.KeyAt(d, key)); } else { WithoutAbsent(d, key); }
  }

  /** Setting a key and moving it to the front. */
  lemma SetThenFirst(d: Text.Tree, key: string, value: Text.Value)
    requires Text.DistinctKeys(d)
    ensures var s := Text.SetItem(d, key, value);
      var j := Text.KeyAt(s, key);
      j < |s| && s[j] == Text.Entry(key, value) && s[..j] + s[j + 1..] == Without(d, key)
  {
    hide Without, Text.DistinctKeys, Text.KeyAt;
    var s := Text.SetItem(d, key, value);
    var i := Text.KeyAt(d, key);
    if i < |d| {
      WithoutAt(d, i);
      assert s[..i] == d[..i] && s[i + 1..] == d[i + 1..];
    } else {
      WithoutAbsent(d, key);
      assert s[..i] == d && s[i + 1..] == [];
    }
    KeyIsAt(s, i, key);
  }

  lemma KeyIsAt(d: Text.Tree, i: nat, key: string)
    requires i < |d| && d[i].key == key && forall j :: 0 <= j < i ==> d[j].key != key
    ensures Text.KeyAt(d, key) == i
  {
    assert Text.KeyAt(d, key) >= i;
  }

  lemma FirstDistinct(e: Text.Entry, rest: Text.Tree)
    requires Text.DistinctKeys(rest) && forall x <- rest :: x.key != e.key
    ensures Text.DistinctKeys([e] + rest)
  {
    forall j | 0 <= j < |rest| ensures rest[j].key != e.key { assert rest[j] in rest; }
  }

  class Metadata {
    var vgName: Option<string>
    var data: Text.Tree

    constructor (name: Option<string>, data: Text.Tree)
      ensures this.vgName == name && this.data == data
    {
      this.vgName, this.data := name, data;
    }

    /** The name kept beside the tree stays what it was. */
    method RenameVg(newName: string) returns (ok: bool)
      requires Text.DistinctKeys(data)
      modifies this`data
      ensures ok == (vgName.Some? && HasKey(old(data), vgName.value))
      ensures !ok ==> data == old(data)
      ensures ok ==> data == Renamed(old(data), vgName.value, newName) && Text.DistinctKeys(data)
    {
      hide Without, Text.SetItem, Text.KeyAt, Text.DistinctKeys;
      if vgName.None? || !HasKey(data, vgName.value) { return false; }
      var name := vgName.value;
      var i := Text.KeyAt(data, name);
      var section := data[i].value;
      WithoutAt(data, i);
      WithoutKeepsOrder(data, name);
      data := data[..i] + data[i + 1..];
      SetThenFirst(data, newName, section);
      WithoutKeepsOrder(data, newName);
      data := Text.SetItem(data, newName, section);
      var j := Text.KeyAt(data, newName);
      FirstDistinct(data[j], data[..j] + data[j + 1..]);
      data := [data[j]] + (data[..j] + data[j + 1..]);
      ok := true;
    }

    /** `encode`: the text, in UTF-8. */
    method Encode(codec: Codec) returns (r: Status<seq<byte>>)
      ensures r == EncodeTree(data, codec)
    {
      var text := Text.EncodeData(data);
      if text.None? { return Failed(NotPrintable); }
      var raw := codec.encode(text.value);
      r := if raw.None? then Failed(NotEncodable) else Done(raw.value);
    }
  }

  function EncodeTree(d: Text.Tree, codec: Codec): Status<seq<byte>> {
    var text := Text.EncodeData(d);
    if text.None? then Failed(NotPrintable)
    else
      var raw := codec.encode(text.value);
      if raw.None? then Failed(NotEncodable) else Done(raw.value)
  }

  function DecodeTree(raw: seq<byte>, codec: Codec): Status<Text.Named> {
    var text := codec.decode(raw);
    if text.None? then Failed(NotDecodable)
    else
      var r := Text.DecodeData(text.value);
      if r.Err? then Failed(BadText(r.error)) else Done(r.value)
  }

  /** The old name is gone, so renaming again by it fails. */
  lemma RenamedKeys(d: Text.Tree, name: string, newName: string)
    requires HasKey(d, name)
    ensures HasKey(Renamed(d, name, newName), name) <==> name == newName
  {
    var r := Renamed(d, name, newName);
    var i := Text.KeyAt(r, name);
    if i < |r| { assert r[i] in r; }
  }

  /** Renaming the first key to an unused name changes nothing else. */
  lemma RenamedFirst(e: Text.Entry, rest: Text.Tree, newName: string)
    requires Text.DistinctKeys([e] + rest) && newName !in (set x | x in rest :: x.key)
    ensures HasKey([e] + rest, e.key) && Renamed([e] + rest, e.key, newName) == [Text.Entry(newName, e.value)] + rest
  {
    var d := [e] + rest;
    KeyIsAt(d, 0, e.key);
    WithoutAt(d, 0);
    assert Without(d, e.key) == rest;
    forall x | x in rest ensures x.key != newName { assert x.key in (set y | y in rest :: y.key); }
    WithoutAbsent(rest, newName);
  }

  /** A renamed tree can still be written and read back. */
  lemma RenamedWF(d: Text.Tree, name: string, newName: string)
    requires Encoding.WFTree(d) && HasKey(d, name) && Encoding.GoodKey(newName)
    ensures Encoding.WFTree(Renamed(d, name, newName))
  {
    hide Encoding.GoodKey, Encoding.WF, Without;
    var r, rest := Renamed(d, name, newName), Without(Without(d, name), newName);
    WithoutKeepsOrder(d, name);
    WithoutKeepsOrder(Without(d, name), newName);
    forall i | 0 <= i < |r| ensures Encoding.GoodKey(r[i].key) && Encoding.WF(r[i].value) {
      if i > 0 {
        assert r[i] in rest && r[i] in d;
      }
    }
    FirstDistinct(r[0], rest);
  }

  // ---- the header and what it points to ----

  /** A header as it is read: `None` where the area is too short for one. */
  datatype Area = Area(head: Head, locs: seq<Loc>)
  {
    predicate Valid() { head.Fits() && Listable(locs) }
  }

  function AreaAt(disk: seq<byte>, pos: nat): Option<Area> {
    var b := ReadAt(disk, pos, 40);
    if |b| < 40 then None else Some(Area(UnpackHead(b), ReadLocs(disk, pos + 40)))
  }

  function TextAt(disk: seq<byte>, a: Area): seq<byte>
    requires a.locs != []
  {
    ReadAt(disk, a.head.start + a.locs[0].offset, a.locs[0].size)
  }

  /** The header that belongs to a new text; its checksum covers all of the sector but itself. */
  function Pointing(a: Area, raw: seq<byte>, codec: Codec): (r: Area)
    requires a.locs != [] && a.Valid() && codec.crc(raw) < Limit(4) && |raw| < Limit(8)
    requires forall b: seq<byte> :: codec.crc(b) < Limit(4)
    ensures r.Valid() && |r.locs| == |a.locs|
  {
    var locs := a.locs[0 := a.locs[0].(size := |raw|, checksum := codec.crc(raw))];
    Area(a.head.(checksum := codec.crc(Sector(a.head, locs, 0)[4..])), locs)
  }

  /** `b` is the header `a` with another text behind its first location: all else in it is as it was. */
  ghost predicate Repointed(a: Area, b: Area, raw: seq<byte>, codec: Codec) {
    && b.head.magic == a.head.magic && b.head.version == a.head.version
    && b.head.start == a.head.start && b.head.size == a.head.size
    && |b.locs| == |a.locs| > 0 && b.locs[0].offset == a.locs[0].offset && b.locs[0].flags == a.locs[0].flags
    && b.locs[0].size == |raw| && b.locs[0].checksum == codec.crc(raw)
    && forall i :: 1 <= i < |a.locs| ==> b.locs[i] == a.locs[i]
  }

  /** The disk with the text and then the header on it. */
  function Flushed(disk: seq<byte>, a: Area, raw: seq<byte>, codec: Codec): seq<byte>
    requires a.locs != [] && a.Valid() && codec.crc(raw) < Limit(4) && |raw| < Limit(8)
    requires forall b: seq<byte> :: codec.crc(b) < Limit(4)
  {
    var p := Pointing(a, raw, codec);
    Overwrite(Overwrite(disk, a.head.start + a.locs[0].offset, raw), a.head.start,
              Sector(p.head, p.locs, p.head.checksum))
  }

  class MDAHeader {
    var data: Head
    var rawLocns: seq<Loc>

    function Here(): Area
      reads this
    {
      Area(data, rawLocns)
    }

    constructor (a: Area)
      ensures Here() == a
    {
      data, rawLocns := a.head, a.locs;
    }

    /** The header alone, with a fresh checksum. */
    method Write(fp: File, codec: Codec) returns (ok: bool)
      requires fp.Valid() && Here().Valid() && codec.Valid()
      modifies this`data, fp
      ensures fp.Valid() && data == old(data).(checksum := codec.crc(Sector(old(data), rawLocns, 0)[4..]))
      ensures ok ==> fp.bytes == Overwrite(old(fp.bytes), data.start, Sector(data, rawLocns, data.checksum))
      ensures !fp.fixed ==> ok
    {
      hide Overwrite, Mark;
      var packed := PackHead(data) + PackLocs(rawLocns);
      var sector := packed + Zeros(if |packed| < HEADER_SIZE then HEADER_SIZE - |packed| else 0);
      assert sector == Sector(data, rawLocns, data.checksum) by { assert data.(checksum := data.checksum) == data; }
      SectorTail(data, rawLocns, data.checksum, 0);
      data := data.(checksum := codec.crc(sector[4..]));
      SectorPatched(old(data), rawLocns, data.checksum);
      sector := PackHead(data) + sector[40..];
      fp.Seek(data.start);
      ok := fp.Write(sector);
    }

    /** Writes the text where the first location says, then the header with its new size and
        checksum. */
    method WriteMetadata(fp: File, md: Metadata, codec: Codec) returns (r: Status<()>)
      requires fp.Valid() && Here().Valid() && codec.Valid()
      modifies this, fp
      ensures fp.Valid()
      ensures var raw := EncodeTree(md.data, codec);
        if raw.Failed? then r == Failed(raw.why) && fp.bytes == old(fp.bytes) && Here() == old(Here())
        else if old(rawLocns) == [] then r == Failed(NoLocation) && fp.bytes == old(fp.bytes)
        else if |raw.value| >= Limit(8) then r == Failed(TooLong)
        else
          && (r.Done? ==>
                && fp.bytes == Flushed(old(fp.bytes), old(Here()), raw.value, codec)
                && Here() == Pointing(old(Here()), raw.value, codec)
                && Repointed(old(Here()), Here(), raw.value, codec))
          && (r.Failed? ==> fp.fixed && r.why == NoSpace)
    {
      hide Overwrite, Mark, Sector;
      var e := md.Encode(codec);
      if e.Failed? { return Failed(e.why); }
      var raw := e.value;
      if rawLocns == [] { return Failed(NoLocation); }
      fp.Seek(data.start + rawLocns[0].offset);
      var ok := fp.Write(raw);
      if |raw| >= Limit(8) { return Failed(TooLong); }
      if !ok { return Failed(NoSpace); }
      rawLocns := rawLocns[0 := rawLocns[0].(size := |raw|, checksum := codec.crc(raw))];
      ok := Write(fp, codec);
      r := if ok then Done(()) else Failed(NoSpace);
    }

    /** Reads the text the first location points to, and parses it. */
    method ReadMetadata(fp: File, codec: Codec) returns (r: Status<Text.Named>)
      modifies fp`pos
      ensures r == if rawLocns == [] then Failed(NoLocation) else DecodeTree(TextAt(fp.bytes, Here()), codec)
    {
      if rawLocns == [] { return Failed(NoLocation); }
      fp.Seek(data.start + rawLocns[0].offset);
      var raw := fp.Read(rawLocns[0].size);
      var text := codec.decode(raw);
      if text.None? { return Failed(NotDecodable); }
      var decoder := new Parser.Decoder(text.value);
      var md := decoder.Decode();
      r := if md.Failed? then Failed(BadText(md.error)) else Done(md.value);
    }
  }

  lemma SectorPatched(h: Head, locs: seq<Loc>, c: nat)
    requires h.Fits() && c < Limit(4) && forall i :: 0 <= i < |locs| ==> locs[i].Fits()
    ensures PackHead(h.(checksum := c)) + Sector(h, locs, h.checksum)[40..] == Sector(h.(checksum := c), locs, c)
  {
    hide PackHead, PackLocs;
    assert h.(checksum := c).(checksum := c) == h.(checksum := c);
  }

  // ---- what is read after a flush ----

  /** The sector leaves room for the end of the list, and the text lies behind it. */
  predicate Separate(a: Area) {
    a.locs != [] && 40 + 24 * |a.locs| <= HEADER_SIZE && a.locs[0].offset >= HEADER_SIZE
  }

  /** Only the sector at `at` and `n` bytes from `from` on may have changed. */
  ghost predicate KeepsOutside(disk: seq<byte>, b: seq<byte>, at: nat, from: nat, n: nat) {
    |disk| <= |b| && forall i :: 0 <= i < |disk| ==>
        at <= i < at + HEADER_SIZE || from <= i < from + n || b[i] == disk[i]
  }

  lemma FlushedHas(disk: seq<byte>, at: nat, from: nat, raw: seq<byte>, sector: seq<byte>)
    requires |sector| == HEADER_SIZE && from >= at + HEADER_SIZE
    ensures var b := Overwrite(Overwrite(disk, from, raw), at, sector);
      && HasAt(b, at, sector) && ReadAt(b, from, |raw|) == raw
      && KeepsOutside(disk, b, at, from, |raw|)
  {
    hide Overwrite;
    var c := Overwrite(disk, from, raw);
    var b := Overwrite(c, at, sector);
    assert b[at..at + |sector|] == sector;
    if raw != [] { assert b[from..from + |raw|] == raw; }
  }

  /** Reading a flushed disk finds the header that was written, the text that was written, and both
      checksums right; every other byte is as it was. */
  lemma FlushReadsBack(disk: seq<byte>, a: Area, raw: seq<byte>, codec: Codec)
    requires a.Valid() && codec.Valid() && Separate(a) && |raw| < Limit(8)
    ensures var b, p := Flushed(disk, a, raw, codec), Pointing(a, raw, codec);
      && AreaAt(b, a.head.start) == Some(p) && TextAt(b, p) == raw
      && p.locs[0].size == |raw| && p.locs[0].checksum == codec.crc(raw)
      && a.head.start + HEADER_SIZE <= |b|
      && Field(b, a.head.start, 4) == codec.crc(b[a.head.start + 4..a.head.start + HEADER_SIZE])
      && KeepsOutside(disk, b, a.head.start, a.head.start + a.locs[0].offset, |raw|)
  {
    hide Overwrite, Sector, ReadLocs, UnpackHead, LE, FromLE;
    var at, p := a.head.start, Pointing(a, raw, codec);
    var b, c := Flushed(disk, a, raw, codec), p.head.checksum;
    var sector := Sector(p.head, p.locs, c);
    FlushedHas(disk, at, at + a.locs[0].offset, raw, sector);
    HeadReadsBack(b, at, p.head, p.locs, c);
    assert p.head.(checksum := c) == p.head;
    LocsReadBack(b, at, p.head, p.locs, c, 0);
    assert p.locs[0..] == p.locs;
    SectorTail(p.head, p.locs, c, 0);
    SectorOf(a.head, p.head, p.locs);
    assert b[at..at + 4] == sector[0..4] && b[at + 4..at + HEADER_SIZE] == sector[4..];
  }

  /** What is read after a flush is the header as it was but for the size and the checksum of the text. */
  lemma FlushKeeps(disk: seq<byte>, a: Area, raw: seq<byte>, codec: Codec)
    requires a.Valid() && codec.Valid() && Separate(a) && |raw| < Limit(8)
    ensures var b := Flushed(disk, a, raw, codec);
      AreaAt(b, a.head.start).Some? && Repointed(a, AreaAt(b, a.head.start).value, raw, codec)
  {
    FlushReadsBack(disk, a, raw, codec);
    hide AreaAt, Flushed, Sector;
  }

  lemma SectorOf(h: Head, k: Head, locs: seq<Loc>)
    requires h.Fits() && k.Fits() && h.(checksum := 0) == k.(checksum := 0) && forall i :: 0 <= i < |locs| ==>
             locs[i].Fits()
    ensures Sector(h, locs, 0) == Sector(k, locs, 0)
  {}

  /** After a rename and a flush the disk's metadata has the new name first, over the old section,
      and everything else as before. */
  lemma RenameAndFlush(disk: seq<byte>, a: Area, e: Text.Entry, rest: Text.Tree, newName: string, codec: Codec)
    requires a.Valid() && codec.Valid() && Separate(a)
    requires Encoding.WFTree([e] + rest) && Encoding.GoodKey(newName) && newName !in (set x | x in rest :: x.key)
    requires HasKey([e] + rest, e.key)
    requires var raw := EncodeTree(Renamed([e] + rest, e.key, newName), codec); raw.Done? && |raw.value| < Limit(8)
    ensures var raw := EncodeTree(Renamed([e] + rest, e.key, newName), codec).value;
      var b := Flushed(disk, a, raw, codec);
      && AreaAt(b, a.head.start).Some? && AreaAt(b, a.head.start).value.locs != []
      && DecodeTree(TextAt(b, AreaAt(b, a.head.start).value), codec) ==
           Done(Text.Named(Some(newName), [Text.Entry(newName, e.value)] + rest))
  {
    hide Flushed, Pointing, AreaAt, TextAt, Encoding.WFTree, Text.DecodeData, Text.EncodeDict, Encoding.GoodKey,
        Text.PrintableTree;
    assert Text.DistinctKeys([e] + rest) by { WFDistinct([e] + rest); }
    RenamedFirst(e, rest, newName);
    RenamedWF([e] + rest, e.key, newName);
    var d := [Text.Entry(newName, e.value)] + rest;
    var raw := EncodeTree(d, codec).value;
    FlushReadsBack(disk, a, raw, codec);
    RoundTrips.RoundTrip(d);
  }

  lemma WFDistinct(d: Text.Tree)
    requires Encoding.WFTree(d)
    ensures Text.DistinctKeys(d)
  {}
}
