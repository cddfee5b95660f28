/** One partition on its way out of a disk image: truncated, extracted, converted. */
module PartitionExport {
  import opened Bytes
  import opened ByteFile
  import opened Partition
  import SimgFormat
  import Encoder = SimgEncoder
  import Decoder = SimgDecoder
  import SimgRoundTrip

  const BLOCK: nat := 4096
  const CHUNK: nat := 1024 * 1024

  datatype Exported = Skipped | Raw(file: File) | Sparse(file: File) | Failed

  /** Keeping `kept` bytes of the partition loses nothing. */
  ghost predicate Keeps(data: seq<bool>, start: nat, size: nat, kept: nat) {
    && kept <= size && (kept == size || kept % BLOCK == 0)
    && NoData(data, start + kept, start + size)
  }

  /** The last block that is kept holds data: no smaller number of whole blocks would do. */
  ghost predicate KeepsNoMore(data: seq<bool>, start: nat, kept: nat) {
    exists i: nat :: i < kept <= i + BLOCK && DataAt(data, start, i)
  }

  /** The loop body of `export_disk_image_file`; `truncate` and `sparse` come from the partition's
      name and type and the format asked for. */
  method ExportPartition(image: File, start: nat, size: nat, truncate: bool, sparse: bool)
    returns (r: Exported, ghost kept: nat, ghost cs: seq<SimgFormat.Chunk>)
    requires image.Valid()
    modifies image`pos
    ensures Keeps(image.data, start, size, kept) && (!truncate ==> kept == size)
    ensures truncate && r != Skipped ==> KeepsNoMore(image.data, start, kept)
    ensures r == Skipped <==> truncate && (size == 0 || NoData(image.data, start, start + size))
    ensures r.Raw? ==>
      && !sparse && r.file.bytes == Window(image.bytes, start, kept)
      && r.file.data == DataWindow(image.data, start, kept)
    ensures r.Sparse? ==>
      && sparse
      && Encoder.IsImage(r.file.bytes, cs, Window(image.bytes, start, kept), DataWindow(image.data, start, kept),
                         BLOCK) == true
    ensures r == Failed ==>
      && sparse
      && !Encoder.Convertible(Window(image.bytes, start, kept), DataWindow(image.data, start, kept), BLOCK)
  {
    hide SimgFormat.Describes, Encoder.IsImage, Encoder.Oversized, SimgFormat.BlockHasData;
    cs, kept := [], size;
    var keep := size;
    if truncate {
      keep := TruncatePartitionSize(image, start, size, BLOCK);
      kept := keep;
      if keep == 0 { return Skipped, kept, cs; }
    }
    var part := new File();
    var _ := ExtractPart(image, part, start, keep, CHUNK);
    if !sparse { return Raw(part), kept, cs; }
    var out := new File();
    var done;
    done, cs := Encoder.ConvertToSimg(part, out, BLOCK);
    r := if done == Encoder.Converted then Sparse(out) else Failed;
  }

  lemma WindowKeeps(bytes: seq<byte>, data: seq<bool>, start: nat, size: nat, kept: nat, n: nat)
    requires Consistent(bytes, data) && Keeps(data, start, size, kept)
    ensures Window(Window(bytes, start, kept), 0, n) == Window(Window(bytes, start, size), 0, n)
    ensures Consistent(Window(bytes, start, kept), DataWindow(data, start, kept))
  {}

  /** Writing an exported sparse partition to a file gives the whole partition back, up to the last
      whole block that holds any of its data, followed by nothing but zeros. */
  lemma ExportedPartitionIsWhole(bytes: seq<byte>, data: seq<bool>, start: nat, size: nat, kept: nat,
      image: seq<byte>, cs: seq<SimgFormat.Chunk>, was: seq<byte>, zero: bool)
    requires Consistent(bytes, data) && Keeps(data, start, size, kept)
    requires Encoder.IsImage(image, cs, Window(bytes, start, kept), DataWindow(data, start, kept), BLOCK) == true
    ensures var n := SimgFormat.At(SimgFormat.TotalBlocks(kept, BLOCK), BLOCK);
      && kept <= n
      && Decoder.Decode(image, was, false, zero).Ok?
      && Decoder.Decode(image, was, false, zero).value.dev == Window(Window(bytes, start, size), 0, n)
  {
    hide Decoder.Decode, Encoder.IsImage;
    var n := SimgFormat.At(SimgFormat.TotalBlocks(kept, BLOCK), BLOCK);
    WindowKeeps(bytes, data, start, size, kept, n);
    SimgRoundTrip.RoundTripFile(image, cs, Window(bytes, start, kept), DataWindow(data, start, kept), BLOCK, was, zero);
  }
}
