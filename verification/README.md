# A verified model of the image builder's protocols and codecs

The project models the parts of the automotive image builder in which a mistake is hard to see from one
function, and proves what they keep, for every input, run or interleaving:

- **The shared cache** (`CacheSize`, `CacheProgress`, `CacheEntries`, `CacheSafety`, `CacheGuarantees`,
  `CacheOutcomes`, `CacheAccounting`, `CacheRuns`, `CacheCrash`, `CacheDrift`, `LruEviction`). Any number of processes
  share one directory and coordinate only through locks on files that may have been replaced since they were opened.
  Two transition systems, one system call per step, with crashes: the size counter, shown to behave like an atomic
  counter, and the object directory, in which an update of the counter is therefore one step. Safety is shown by rely
  and guarantee: each call is checked against what the holder of any lock may rely on.
- **The sparse image pipeline** (`ByteFile`, `Partition`, `SimgFormat`, `SimgEncoder`, `SimgDecoder`, `SimgRoundTrip`,
  `SimgAccepts`, `PartitionExport`). A file is its bytes and the set of its data positions. Truncation, extraction,
  the encoder and the decoder are loops over such files; each is tied to what it promises, and the round trip is shown
  for every hole map that agrees with the contents.
- **LVM metadata** (`LvmText`, `LvmParser`, `LvmTokens`, `LvmEncoding`, `LvmRoundTrip`, `LvmExactness`, `LvmComments`,
  `LvmFailures`, `LvmHeader`, `LvmDisk`). The substitutions, the split, the recursive-descent parser over one shared
  token list, the printer, the checksummed header, renaming a volume group and writing it back. Which trees survive
  being printed and parsed is stated exactly.
- **Brace expansion** (`BraceExpand`, `BracePatterns`, `BraceSyntax`, `BraceTermination`), the **dependency graph** of
  the bill of materials (`Sbom`), the **property allowlist** (`PropertyAllowlist`, `PropertyPaths`) and the **merge of
  defines** into two dictionaries that share lists (`DefineMerge`).

`Bytes`, `Strings` and `Options` hold what several of these share.

Functions written as recursion are functions here. Code that updates variables, files, lists or objects in place
is methods with loops, over `ByteFile.File`, `LvmParser.Decoder`, `LvmDisk.Metadata`, `LvmDisk.MDAHeader`,
`LruEviction.Cache`, `PropertyAllowlist.Validator` and `DefineMerge.Merger`. Each is proved against a
specification about which the theorems are.

## Where the code and its own comments differ

The model follows the code.

- fscache.py:806-809 says that no lookup considers an entry without its info file, but `load` (fscache.py:1038-1067)
  never looks at the info file. `CacheCrash.CrashBreaksReaders` is a run in which a reader is handed an entry whose
  evictor died; `CacheGuarantees.ReaderSeesWinner` says exactly when that can happen.
- fscache.py:752 promises that negative updates always succeed. With a maximum that never changes they do
  (`CacheSize.NoLostUpdates`), because the size then never exceeds it.
- Accounting adds the size of `data/` (fscache.py:946), eviction subtracts that of the whole entry (fscache.py:1152).
  `CacheAccounting.AccountingIsExact` says by how much the size is then off; `CacheDrift.DriftBreaksTheLimit` is a
  run, without any crash, in which the two differ once and the cache then holds more than its limit.
- After a lost rename the anonymous entry stays on disk, de-accounted (fscache.py:995, 1006).
- `_remove_lru` catches only `BlockingIOError` (fscache.py:1158): an entry that has vanished, or one renamed into the
  directory just emptied, ends the whole `store`.
- fscache.py:1160 speaks of "at least" the required size; the comparison is strict.
- `truncate_partition_size` (aib/utils.py:431-434) need not return a block multiple: it may return the size itself.
- aib/utils.py:542 asks for more than 1024 bytes a block and accepts 1024.
- `Metadata.rename_vg` (lvm2.py:393-400) never updates the name it renames from, so a second rename fails.
- Tokens that end inside a quoted string make `parse_str` (lvm2.py:444-451) loop for ever
  (`LvmFailures.NeverEndsIff`); a closing brace that closes nothing makes the parser leave tokens unread
  (`LvmFailures.LeftOverIff`); the printer has no case for the floats the parser reads.
- `brace_expand` (lorax.py:307-318) recurses for ever exactly where, behind the first closing brace that closes
  nothing, another brace opens, and a comma stands behind it or, outside of all groups, before it
  (`BraceTermination.NeverEndsIff`).
- aib/osbuild.py:242 builds a new list so that none shared with `defines` is changed, but a list that stands under
  two keys of `defines`, as an anchor in a define file makes it, is still extended for both (aib/osbuild.py:249).
  `DefineMerge.SharingIff` says exactly when that happens.
- Allowing a list property does not allow what its elements hold (aib/policy.py:452-455;
  `PropertyAllowlist.ElementCovered`), and allowing more can lead to more errors (aib/policy.py:437-447);
  `PropertyAllowlist.CountIff` says exactly for which allowlists.

## Model

| member | source | states |
|---|---|---|
| CacheSize.StepInv | mpp/aibosbuild/util/fscache.py:375-534 | every system call and every crash of every process keeps the invariant of the counter's directory, locks and private files |
| CacheSize.NoLostUpdates | mpp/aibosbuild/util/fscache.py:741-779 | in every reachable state, crashes included, the file at the counter's path is complete and holds exactly the accepted updates, each once, in the order of their renames; a call returned True iff it is among them; the limit holds; only a positive update is refused |
| CacheSize.OneWriter | mpp/aibosbuild/util/fscache.py:375-440 | at most one process is between seeing that its locked file is the one the path names and its rename |
| CacheSize.NeverStuck | mpp/aibosbuild/util/fscache.py:378-426 | after validation the counter can be read, a private file about to be renamed is still there, and the path always names a file |
| CacheSize.AtomicUpdate | mpp/aibosbuild/util/fscache.py:761-779 | refinement: each system call leaves the counter alone or is the whole effect of one call of the acting process, clamped at 0 and admitted by the limit |
| CacheSize.RefusalIsRight | mpp/aibosbuild/util/fscache.py:769-774 | an update is refused only where at that moment the current value plus the amount exceeds the limit |
| CacheProgress.LocksAreHeld | mpp/aibosbuild/util/fscache.py:375-440 | in every reachable state an inode is locked through a descriptor iff that is of a running process which stands between locking that inode and giving it back |
| CacheProgress.NoLockIsLeft | mpp/aibosbuild/util/fscache.py:437-440 | once every call has returned, or has yet to lock, no lock is left |
| CacheProgress.NoDeadlock | mpp/aibosbuild/util/fscache.py:378-426 | every process can go on, or has the counter open and waits for the lock of another process, which can |
| CacheProgress.LockComesBack | mpp/aibosbuild/util/fscache.py:378-440 | the holder of a lock can always go on, and each of its steps, of which there are at most eleven, brings it nearer to giving the lock back |
| CacheProgress.NoLitter | mpp/aibosbuild/util/fscache.py:523-534 | without crashes every private file is that of a process that is going to remove its name |
| CacheSafety.PlanOfOk | mpp/aibosbuild/util/fscache.py:919-1012 | every action of store, load and eviction issues a system call that keeps the rules of the protocol, and re-establishes what its own process knows |
| CacheSafety.MovesDisk | mpp/aibosbuild/util/fscache.py:781-837 | no action disturbs what the holder of another lock relies on: a lock of either kind on a linked lock file freezes the directory and its name |
| CacheSafety.StepInv | mpp/aibosbuild/util/fscache.py:881-1161 | every step of any process, and every crash, keeps the invariant of entries, names, locks and info files |
| CacheSafety.RunInv | mpp/aibosbuild/util/fscache.py:881-1161 | the invariant holds in every state of every run of any number of processes |
| CacheGuarantees.ReaderFrozen | mpp/aibosbuild/util/fscache.py:1038-1067 | while a process is inside load(name) no step or crash of another changes the entry or moves its name |
| CacheGuarantees.ReaderSeesOneEntry | mpp/aibosbuild/util/fscache.py:1014-1067 | from entering to leaving, over any run, a reader sees one and the same entry |
| CacheGuarantees.ReaderSeesWinner | mpp/aibosbuild/util/fscache.py:806-809 | a reader sees an entry stored under its name and, unless an evictor of it died, exactly what that store wrote; the entry lacks its info file, which load does not consult, iff such an evictor died |
| CacheGuarantees.CrashFreeReaders | mpp/aibosbuild/util/fscache.py:1038-1067 | reader safety: in a crash-free run whoever is inside load(name) has an entry stored under that name, with exactly the data that store wrote |
| CacheGuarantees.EntryStaysUntilEvicted | mpp/aibosbuild/util/fscache.py:976-1010 | a visible entry is touched by nothing but its own eviction: by no winning or losing store, no cleanup, no other evictor's rmdir and no crash |
| CacheGuarantees.OneWinner | mpp/aibosbuild/util/fscache.py:970-1003 | along any run the first of all racing stores to win a name keeps it, with the same contents, until it is evicted |
| CacheGuarantees.NewEntryIsWinner | mpp/aibosbuild/util/fscache.py:970-995 | a name comes to mean another entry only when a store of that name renames its complete, accounted entry onto nothing or onto an emptied directory |
| CacheGuarantees.NeverStuck | mpp/aibosbuild/util/fscache.py:919-1012 | no process ever blocks, and only an eviction that loses its victim, to another eviction or to a store that takes its place, meets an error nobody catches |
| CacheOutcomes.LocksAreHeld | mpp/aibosbuild/util/fscache.py:919-1045 | in every reachable state a process holds the lock of its own entry, and that of its victim, just while it deals with them |
| CacheOutcomes.StoreEnds | mpp/aibosbuild/util/fscache.py:993-1012 | a store ends with its random name gone, or, where another has won the name, with its info file unlinked and its amount taken back |
| CacheOutcomes.StoreDecides | mpp/aibosbuild/util/fscache.py:948-968 | a store evicts only for an entry that could fit and does not, accounts it only where it fits, and gives it up only where it can never fit, does not fit after the eviction, or the caller or the eviction has failed |
| CacheOutcomes.CallsName | mpp/aibosbuild/util/fscache.py:881-1037 | store and load are about the name they are given |
| CacheOutcomes.StoreStays | mpp/aibosbuild/util/fscache.py:919-1012 | from its call to its end a store is about one name, one entry and one amount |
| CacheOutcomes.LoadEnds | mpp/aibosbuild/util/fscache.py:1034-1054 | a load misses only where there is no lock file or somebody has it locked for writing, and otherwise goes on with the name it was called with |
| CacheOutcomes.EvictionGoesOn | mpp/aibosbuild/util/fscache.py:1120-1161 | the list is walked in order, a victim locked by another is passed over, the loop stops iff twice the amount has been freed, and the store then tries again |
| CacheOutcomes.EvictionAsks | mpp/aibosbuild/util/fscache.py:964-964 | an eviction is asked for just the amount of the entry that is to be stored |
| CacheAccounting.AccountingIsExact | mpp/aibosbuild/util/fscache.py:943-1154 | in every reachable state the size respects the limit, and is the committed sum plus reservations in flight plus what crashes orphaned plus the drift, that is what evictions have deducted too little |
| CacheAccounting.DriftIs | mpp/aibosbuild/util/fscache.py:1152-1154 | the drift is 0 while every eviction has measured what its entry accounted, and at most 0 while each has measured at least that |
| CacheAccounting.EvictionFreeIsExact | mpp/aibosbuild/util/fscache.py:952-1003 | in runs without evictions there is no drift, and without crashes nothing is orphaned |
| CacheCrash.CrashBreaksReaders | mpp/aibosbuild/util/fscache.py:1140-1153 | a reachable state in which a reader is inside an entry that lacks data, after a crash in the removal of it |
| CacheDrift.DriftBreaksTheLimit | mpp/aibosbuild/util/fscache.py:946-1154 | a run without a crash in which one eviction deducts more than was accounted, and at the end of which the size is below what the entries account, and that is above the limit |
| LruEviction.Cache.LastUsedObjs | mpp/aibosbuild/util/fscache.py:1084-1098 | lists every entry of the listing that has a lock file, once and with its access time, in ascending order and ties as listed, and skips every other name |
| LruEviction.Cache.RemoveLru | mpp/aibosbuild/util/fscache.py:1120-1161 | removes exactly the unlocked entries of a prefix of that list, stops at the first eviction that reaches twice the request or at the end, and answers whether more than the request was freed |
| LruEviction.OldestFirst | mpp/aibosbuild/util/fscache.py:1106-1124 | nothing that is evicted was used later than anything evictable that is kept |
| ByteFile.SeekData | aib/utils.py:443-446 | the first data position at or after a position, as lseek has it |
| ByteFile.SeekHole | aib/utils.py:451-456 | the first hole position, the end of the file counting as one; past a data position it moves on |
| Partition.RoundUp | aib/utils.py:474-475 | the least block multiple that is not below n |
| Partition.TruncatePartitionSize | aib/utils.py:430-471 | the result is 0 iff the window has no data; it is at most the size, a block multiple or the size, cuts off only holes, and its last block holds data |
| Partition.ExtractPart | aib/utils.py:480-533 | the destination is the window of the source with zeros past its end, its data exactly the source's data there, and the result counts the data bytes |
| Partition.TruncationLosesNothing | aib/osbuild.py:587-597 | extracting what truncation keeps and extending it with a hole is extracting everything |
| SimgEncoder.FindExtents | aib/utils.py:556-587 | the data and hole extents cover the blocks in order, and each is as long as it can be |
| SimgEncoder.AnalyzeBlockRuns | aib/utils.py:589-627 | the zero and plain runs cover a buffer in order with their payloads, and each is as long as it can be |
| SimgEncoder.ConvertToSimg | aib/utils.py:536-710 | succeeds iff the block size is at least 1024, a multiple of 4 and below 2^32, there are fewer than 2^32 blocks, and no plain run within one read is too large for its 32-bit size; the image then has records that describe the file, fit their fields, sum up to all blocks and are counted by the header |
| SimgEncoder.FittingImage | aib/utils.py:681-692 | an image whose records fit shows that no run within one read was too large |
| SimgEncoder.SmallBlocksConvert | aib/utils.py:658-692 | if 12 plus 32768 blocks of bytes is below 2^32, every file with fewer than 2^32 blocks can be converted |
| SimgFormat.BlocksAtLeast | aib/utils.py:646-710 | there are no more records than blocks |
| SimgRoundTrip.BlockIsRight | aib/utils.py:646-692 | a block is in no data iff its record stores nothing, has data that is all zeros iff its record is a fill of 0, and else stands in the payload as it is |
| SimgDecoder.ReadHeader | contrib/write_simg.py:96-133 | a header is read, with just these three fields, iff the image begins with the 28 bytes of a version 1 header that states them |
| SimgDecoder.HeaderIff | contrib/write_simg.py:96-133 | the chain of tests lets through exactly the images that begin with a header as it is laid out, and takes from it the fields laid out in it |
| SimgDecoder.WriteRaw | contrib/write_simg.py:143-155 | copying a payload in pieces of 1 MiB is one write of it, or a short image or a full device |
| SimgDecoder.WriteBlocks | contrib/write_simg.py:170-174 | writing a block over and over is one write of its repetition |
| SimgDecoder.WriteSimg | contrib/write_simg.py:206-284 | the output, the count and the error are those of the decoding function; a device is left alone if the header is bad or it is too small |
| SimgRoundTrip.RecordDecodes | contrib/write_simg.py:136-203 | a record as it is laid out, with anything in its reserved field and any fill value, passes every check and puts its own bytes at its blocks |
| SimgRoundTrip.FillIs | contrib/write_simg.py:158-180 | byte i of fill blocks is byte i modulo 4 of the value |
| SimgAccepts.AcceptsIff | contrib/write_simg.py:206-284 | an image, whoever wrote it, is taken iff it consists of a header, as many whole records behind one another as that says, and as many blocks as that says, and a device is large enough |
| SimgAccepts.Decoded | contrib/write_simg.py:206-284 | a file then holds the payloads, repeated values and zeros of the records in order, a device what they lay over what it held, and the count is that of the blocks written |
| SimgRoundTrip.RoundTripFile | contrib/write_simg.py:206-284 | decoding an encoded file to a file gives the source, zero-padded to whole blocks, for every hole map that agrees with the contents |
| SimgRoundTrip.RoundTripDevice | contrib/write_simg.py:206-278 | on a device exactly the hole blocks keep their old bytes, and only without zeroing; nothing past the image changes; too small a device is refused; the count is that of the stored blocks |
| SimgRoundTrip.ZeroedDevice | contrib/write_simg.py:190-194 | with zeroing the device holds the padded source followed by what it held |
| PartitionExport.ExportPartition | aib/osbuild.py:578-598 | a partition is skipped iff truncated and without data; else its raw file or sparse image is that of a window that loses nothing, and whose last block holds data if it was truncated |
| PartitionExport.ExportedPartitionIsWhole | aib/osbuild.py:587-598 | writing an exported sparse partition to a file gives back the whole partition up to its last kept block |
| LvmParser.Decoder.NextToken | mpp/aibosbuild/util/lvm2.py:439-442 | takes the first token off the shared list |
| LvmParser.Decoder.ParseSection | mpp/aibosbuild/util/lvm2.py:475-482 | leaves the same tokens and builds the same dictionary as the parsing function; terminates |
| LvmParser.Decoder.Decode | mpp/aibosbuild/util/lvm2.py:494-497 | the first token is the name and the first key; result and tokens left are those of the function |
| LvmText.SetItemIs | mpp/aibosbuild/util/lvm2.py:479 | a key that is there keeps its place and takes the new value, a new key goes last, and nothing else changes |
| LvmTokens.SplitDropNul | mpp/aibosbuild/util/lvm2.py:422-430 | collapsing white space before dropping a final NUL changes no token |
| LvmTokens.ExpandSpecial | mpp/aibosbuild/util/lvm2.py:416-427 | brackets and quotes are padded, equals signs and commas removed |
| LvmTokens.CleanSplits | mpp/aibosbuild/util/lvm2.py:416-430 | a clean word, brackets and quotes padded, is its own single token |
| LvmEncoding.EncodedTokens | mpp/aibosbuild/util/lvm2.py:502-526 | the text printed for a well-formed tree has exactly the tree's tokens |
| LvmRoundTrip.IntRoundTrip | mpp/aibosbuild/util/lvm2.py:515 | int reads back every integer str prints |
| LvmRoundTrip.NumeralIs | mpp/aibosbuild/util/lvm2.py:453-463 | the value of a numeral is positional, and underscores count for nothing |
| LvmRoundTrip.NumeralIff | mpp/aibosbuild/util/lvm2.py:453-463 | a numeral is groups of digits with single underscores between them |
| LvmRoundTrip.SignedIs | mpp/aibosbuild/util/lvm2.py:453-463 | a sign in front of a numeral |
| LvmEncoding.PrintedLikeThis | mpp/aibosbuild/util/lvm2.py:502-526 | what the printed text of a section with a string, an integer and a list looks like |
| LvmRoundTrip.ParseDict | mpp/aibosbuild/util/lvm2.py:475-492 | reading a tree's tokens adds its entries, in order, to those read before |
| LvmRoundTrip.RoundTrip | mpp/aibosbuild/util/lvm2.py:414-526 | a well-formed tree comes back the same, in the same order, its first key as the name, and every token is consumed |
| LvmComments.StripOne | mpp/aibosbuild/util/lvm2.py:414-427 | a comment goes with its newline, and all behind it stays |
| LvmComments.StripNone | mpp/aibosbuild/util/lvm2.py:414-427 | a comment on a last line without a newline stays |
| LvmComments.SameTokens | mpp/aibosbuild/util/lvm2.py:414-430 | comments put in anywhere, and other white space, change no token of a text |
| LvmComments.CommentedRoundTrip | mpp/aibosbuild/util/lvm2.py:414-526 | a well-formed tree comes back from its printed text with any comments put in |
| LvmExactness.SurvivesIff | mpp/aibosbuild/util/lvm2.py:414-526 | a tree survives printing and parsing iff it is well formed, a condition on its keys, words and list elements |
| LvmExactness.ValueIsSound | mpp/aibosbuild/util/lvm2.py:484-492 | whatever the parser makes of clean tokens is well formed but for floats |
| LvmFailures.DecodeReads | mpp/aibosbuild/util/lvm2.py:432-497 | whether decoding succeeds, how it fails and what it leaves unread is what a reader finds who goes over the tokens once and counts open sections |
| LvmFailures.LeftOverIff | mpp/aibosbuild/util/lvm2.py:475-482 | tokens are left over iff that reader meets a closing brace with no section open and tokens behind it |
| LvmFailures.Dropped | mpp/aibosbuild/util/lvm2.py:475-482 | the tokens before that brace make up the same dictionary by themselves |
| LvmFailures.StrayBrace | mpp/aibosbuild/util/lvm2.py:494-497 | such a text: everything behind the stray brace is dropped |
| LvmFailures.NeverEndsIff | mpp/aibosbuild/util/lvm2.py:414-497 | decoding never ends iff the tokens end inside a string |
| LvmFailures.StrEndsIff | mpp/aibosbuild/util/lvm2.py:444-451 | reading a quoted string ends iff a closing quote is among the tokens left |
| LvmFailures.UnclosedQuote | mpp/aibosbuild/util/lvm2.py:444-451 | a text on which decoding never ends |
| LvmHeader.HeadRoundTrip | mpp/aibosbuild/util/lvm2.py:284-290 | unpacking a packed header gives it back |
| LvmHeader.HeadFields | mpp/aibosbuild/util/lvm2.py:284-290 | where each field of a header stands |
| LvmHeader.LocFields | mpp/aibosbuild/util/lvm2.py:262-268 | where each field of a location stands |
| Bytes.LEByte | contrib/write_simg.py:96-112 | in a field the least significant byte comes first |
| LvmHeader.LocsReadBack | mpp/aibosbuild/util/lvm2.py:272-280 | the list of locations read from a written sector is the list written, if it fits and no offset is 0 |
| LvmHeader.SectorTail | mpp/aibosbuild/util/lvm2.py:362-367 | the checksum's value changes nothing of what it covers, and stands in the first four bytes |
| LvmDisk.Metadata.RenameVg | mpp/aibosbuild/util/lvm2.py:393-400 | the section stands first under its new name and all else follows in order; an unknown name fails and changes nothing; the remembered name stays |
| LvmDisk.RenamedFirst | mpp/aibosbuild/util/lvm2.py:393-400 | renaming the first key to an unused name changes nothing else |
| LvmDisk.RenamedKeys | mpp/aibosbuild/util/lvm2.py:393-400 | afterwards the old name is there iff it is the new one, so a second rename fails |
| LvmDisk.RenamedWF | mpp/aibosbuild/util/lvm2.py:393-400 | a renamed well-formed tree is well formed |
| LvmDisk.MDAHeader.Write | mpp/aibosbuild/util/lvm2.py:348-371 | puts the sector on the disk with a checksum of its remaining bytes |
| LvmDisk.MDAHeader.WriteMetadata | mpp/aibosbuild/util/lvm2.py:336-346 | writes text and then header, in which only the size and the checksum of the first location, and its own checksum, are new; every failure is told apart |
| LvmDisk.MDAHeader.ReadMetadata | mpp/aibosbuild/util/lvm2.py:328-334 | parses the text that the first location points to |
| LvmDisk.FlushReadsBack | mpp/aibosbuild/util/lvm2.py:322-371 | after a flush the header read is the one written, the text is the one written, both checksums are right, and all other bytes are unchanged |
| LvmDisk.FlushKeeps | mpp/aibosbuild/util/lvm2.py:336-371 | the header read after a flush has its magic, version, start and size, the offset and the flags of its first location, and all other locations as they were; size and checksum are those of the text |
| LvmDisk.RenameAndFlush | mpp/aibosbuild/util/lvm2.py:322-400 | after rename and flush the disk's metadata has the new name first, over the old section, and everything else as before |
| BraceExpand.BraceExpand | mpp/aibosbuild/util/lorax.py:307-318 | the loop over the choices computes the recursive function, or says that it would not end |
| BraceExpand.StuckForever | mpp/aibosbuild/util/lorax.py:312-316 | a text that is to be expanded, but in which no brace opens before the first that closes, leads to another such text with every choice, because rfind gives -1 and the slices overlap |
| BraceTermination.NeverEndsIff | mpp/aibosbuild/util/lorax.py:307-318 | for every text: the recursion never ends iff behind the first closing brace that closes nothing another brace opens, and a comma stands behind it or, outside of all groups, before it |
| BraceTermination.StrayExamples | mpp/aibosbuild/util/lorax.py:307-318 | a text on which it never ends, and one with a stray closing brace on which it does |
| BracePatterns.ExpandIsRight | mpp/aibosbuild/util/lorax.py:307-318 | for every pattern with at least two alternatives a group, nested or not, the expansions are the pattern's lines, as many as the product of the numbers of alternatives, without braces |
| BraceSyntax.PatternIff | mpp/aibosbuild/util/lorax.py:307-318 | the texts of these patterns are exactly those in which, read from left to right, every closing brace closes a group, every group is closed, and every group has a comma of its own |
| BraceTermination.ClosedExpands | mpp/aibosbuild/util/lorax.py:307-318 | the recursion ends on every text without a stray closing brace |
| Sbom.Collect | mpp/sbom.py:97-119 | emits every package as it is but for its epoch, and maps every provided name to the last package that provides it |
| Sbom.VersionIs | mpp/sbom.py:98-101 | the version is what stands between the first colon and the second, or all of it where there is no colon |
| Sbom.VersionUnique | mpp/sbom.py:98-101 | there is one such version |
| Sbom.IdIs | mpp/sbom.py:71-74 | an identifier ends in the digest without its prefix, behind the name |
| Sbom.PlaceholderIs | mpp/sbom.py:133-147 | a placeholder has the hash of the requirement, its name with dashes for slashes, and no requirements |
| Sbom.ProvidersIs | mpp/sbom.py:118-119 | a requirement is found iff some package provides it, and then in the last that does |
| Sbom.FromPkgs | mpp/sbom.py:90-171 | the document has the packages, each with its epoch removed, then one placeholder for each distinct unresolved requirement in the order met, and for each package one relation for each distinct target; the loop over the growing list ends |
| Sbom.MissingIs | mpp/sbom.py:132-148 | the placeholders are for exactly the requirements that nothing provides, each once |
| Sbom.Closed | mpp/sbom.py:153-160 | both ends of every relation are identifiers of emitted packages |
| Sbom.TargetIs | mpp/sbom.py:124-149 | a requirement resolves to the last package that provides it or else to its placeholder |
| Sbom.PlaceholdersApart | mpp/sbom.py:71-74 | placeholders of requirements with different hashes have different identifiers |
| PropertyAllowlist.Validator.CheckProperties | aib/policy.py:416-455 | the recursion over the shared error list appends just the paths of the walk |
| PropertyAllowlist.WalkExact | aib/policy.py:410-458 | nothing is reported iff every property is covered or is a dictionary with something allowed in it |
| PropertyPaths.PropertiesAre | aib/policy.py:416-455 | the properties checked are just those that can be reached by keys and list indices, each with the path of its address |
| PropertyPaths.CoveredIff | aib/policy.py:424-428 | for keys without dots: a property is covered iff it or something that it is in is allowed |
| PropertyPaths.BelowIff | aib/policy.py:437-442 | for keys without dots: a dictionary has something allowed in it iff its keys begin those of something allowed |
| PropertyAllowlist.Monotone | aib/policy.py:424-442 | a larger allowlist accepts whatever a smaller one accepts |
| PropertyAllowlist.ReportsAreRight | aib/policy.py:430-447 | every reported path is that of a property that is not permitted |
| PropertyAllowlist.CountIff | aib/policy.py:424-447 | for any two allowlists, one within the other: the larger never leads to more errors, whatever the manifest, iff it makes the check look into no dictionary that the smaller one reports as a whole |
| PropertyAllowlist.CountIsMonotone | aib/policy.py:424-447 | for one manifest: there are no more errors if no dictionary opened that way has more than one in it |
| PropertyAllowlist.NewReports | aib/policy.py:430-447 | whatever the larger allowlist reports, the smaller one reports too, or it reports a dictionary around it |
| PropertyAllowlist.CountIsNotMonotone | aib/policy.py:437-447 | a manifest in which allowing more leads to two errors for one |
| PropertyAllowlist.ElementCovered | aib/policy.py:424-455 | a property of a list element is covered iff something above the list or something about that element is allowed, never by allowing the list |
| PropertyAllowlist.ListElementsAreNotCovered | aib/policy.py:452-455 | a manifest whose list is allowed and whose element is reported |
| DefineMerge.MergeIsRight | aib/osbuild.py:216-249 | a key the user set ends equal in both dictionaries, as set plus what was added since; a key only extended is base plus additions and additions; nothing is added twice |
| DefineMerge.FailsIff | aib/osbuild.py:238-249 | the merge fails iff an extension meets a key that holds no list |
| DefineMerge.SharedKey | aib/osbuild.py:238-249 | with lists shared in any way, a key comes to something else than the options say, and longer, iff an extension of another key with the same list added something; in the user's dictionary, before the key was itself extended |
| DefineMerge.SharingIff | aib/osbuild.py:238-249 | both dictionaries come to what the options say one after the other iff no extension that adds something is of a key whose list stands under another key too; whether the merge fails never depends on sharing |
| DefineMerge.Merger.Define | aib/osbuild.py:219-232 | both dictionaries get one object, which other keys may have too, and stand for what the value-level step says |
| DefineMerge.Merger.Extend | aib/osbuild.py:238-249 | a new list in one dictionary and a list grown in place in the other, for whatever else it stands for, come to the step that knows which lists are shared |
| DefineMerge.MergeDefines | aib/osbuild.py:216-249 | the loops over all options, for inputs that share lists in any way: they fail iff the value-level steps fail, and else come to these iff no extension that adds something is of a key whose list, after all settings, stands under another key |
| DefineMerge.SharedListLeaks | aib/osbuild.py:224-249 | a run of these loops on any two keys of a define file with one list: extending the first also extends what the second shows, in both dictionaries |

## Left out

- SimgEncoder.ConvertToSimg: after a failure the contents of the output are not stated.
- SimgDecoder.WriteSimg: after a failure the contents of the output are not stated, nor which of two failures a full device and a damaged image would show first, because buffered writes leave that open.
- LvmExactness.SurvivesIff: is about trees as the parser builds them, with strings for keys and integers, floats, strings, lists and dictionaries for values.
- LvmDisk.RenameAndFlush: asks for the text to lie behind the header's sector, for no more than 19 locations, and for a UTF-8 codec and a CRC given as parameters.
- LvmText.ParseType: takes every token with a point for a float, because which of them `float` would refuse does not matter to a printer that has no floats; digits other than ASCII and numerals of more than 4300 digits are not modelled.
- LruEviction.Cache.RemoveLru: is for one process alone; with others the list it walks and the access times it compares are left arbitrary in `CacheEntries`.
- Sbom.PlaceholdersApart: takes the hash as a parameter and asks that it tell the requirements apart.
- DefineMerge.MergeDefines: asks that the lists of `--extend-define` stand nowhere else, as each option is parsed by itself.
- Cache: measured sizes are arbitrary amounts; random names are unique and differ from callers' names; the private lock file of a new entry, which nobody else can see, is created in one step.
- Cache: NFS's ESTALE, boot ids, tracing, `stage`, changing the maximum, and errors other than those the protocol itself can meet.
- Files: partial reads and writes, and errors of `lseek` other than the end of the file.
- The rest of the image export: `sfdisk`, `mv`, `qemu-img`, and which partition names and types ask for truncation or a sparse image.
- `DiskLocN`, `PVHeader` and the label search on an LVM disk; several metadata areas are flushed one after the other by the same call.
- `brace_expand_line`, which concatenates the expansions of its items.
- The fields of a package that are only copied into the document, and its text form.
- The other policy checks, and the defines that are set before the user's.
