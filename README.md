# CIFAR-10 siamese pair converter: a Dafny model

This project models the core of `convert_cifar_siamese_data`, the Caffe
example tool that turns the CIFAR-10 binary batches into a paired-sample
record store for siamese training. The train split is five batch files of
10000 records and the test split one. Each record is one label byte and a
3072-byte 32x32x3 image. For every anchor index `i` of a split the tool
draws `identity_pair = rand() % 2`. When it is 1 the target label is the
anchor's own label. When it is 0 a different label is drawn by rejection
from the ascending label set. A partner image with the target label is then
drawn by rejection over all image indices. The tool builds the 6144-byte
pixel buffer (anchor, then partner), sets the reused `Datum`, and stages
`Put(format_int(i, 5), datum)`.

The source holds the split routine twice: once for train (lines 75-134)
and once for test (lines 163-210). The copies differ only in their array
names and sizes. The model has the routine once: `Encoder.ConvertSplit`,
parametrised by the split's files. `Encoder.ConvertDataset` runs it for
train and then for test.

Modules, one per component:

- `CifarFormat` (`cifar_format.dfy`): the constants and the record layout.
  It holds `read_image` over an input stream with `std::istream::read`
  semantics: a short read copies what remains and sets a sticky fail
  state.
- `Loader` (`loader.dfy`): the nested file/item loops that fill the
  value-initialised image and label vectors. Item `itemid` of file
  `fileid` goes to slot `10000 * fileid + itemid`.
- `LabelSet` (`label_set.dfy`): the `std::set<int>` of labels, kept as a
  strictly increasing sequence. `std::advance(begin, k)` is element `k`.
- `Sampler` (`sampler.dfy`): the two rejection loops and the per-index
  draw order. Every `std::rand()` call takes the next element of an
  explicit draw sequence. A loop that runs out of draws returns
  `OutOfDraws`.
- `Encoder` (`encoder.dfy`): the reused `Datum` (a class), the transaction
  (a class holding its staged puts in order), the per-index loop, one
  split, and the whole conversion.

Three points where the tool's evident intent and its code part ways; the
model follows the code:

- A pair record is meant to carry the whole 6144-byte pair. Line 128
  passes length 3072 to `set_data`, so the stored payload is the anchor
  image alone, although `channels` is 6. `IsPairRecord` states this.
- The tool is meant to stop on a short input file. The code never checks
  short reads. A record past the end of its file gets whatever the stream
  leaves: zero bytes, and an indeterminate label, given here as the
  parameter `unread`. `ItemLabel` and `ItemImage` state this. For files
  that hold all their records, `Loader.WholeSplitSlots` states that the
  slots are exactly the file bytes.
- The sampler relies on a label set with at least two members. The code
  does not check it. With a single label, `random_label_except` never
  returns. `Sampler.AcceptedLabelNeedsAlternative` states that a label can
  only be accepted when an alternative exists.

## Model

| member | source | states |
|---|---|---|
| `CifarFormat.SignedChar` | examples/siamese/convert_cifar_siamese_data.cpp:34-36 | the label byte read into a signed `char` and widened to `int` lies in -128..127, is negative exactly for bytes of 128 and up, and is congruent to the byte modulo 256 |
| `CifarFormat.InputFile.Read` | examples/siamese/convert_cifar_siamese_data.cpp:35-37 | `read(buf, n)` on a good stream copies the next min(n, remaining) bytes and advances by that many; on a failed stream it copies nothing; the stream stays good only if all n bytes were read |
| `CifarFormat.ReadImage` | examples/siamese/convert_cifar_siamese_data.cpp:33-39 | one call reads one label byte as a signed char (or leaves the indeterminate value when no byte is left), then overwrites the front of the buffer with up to 3072 following bytes and keeps the rest; the stream stays good exactly when all 1 + 3072 bytes were there |
| `CifarFormat.ItemLabel` | examples/siamese/convert_cifar_siamese_data.cpp:33-36 | the label stored by the t-th read of a file is in -128..127 and, when the file reaches byte t*3073, is congruent modulo 256 to that byte |
| `CifarFormat.ItemImage` | examples/siamese/convert_cifar_siamese_data.cpp:37 | the image stored by the t-th read is bytes t*3073+1 .. t*3073+3073 of the file when the record is complete, and all zeros when the file ends before the record |
| `CifarFormat.ReadItem` | examples/siamese/convert_cifar_siamese_data.cpp:90-94 | after t reads the stream is either good at offset t*3073 or failed at the end of a file shorter than t records; the next read stores exactly `ItemLabel`/`ItemImage` of item t and moves the stream to the state after t+1 reads |
| `CifarFormat.WholeFileItems` | examples/siamese/convert_cifar_siamese_data.cpp:33-39 | in a file holding all 10000 records, item t is the signed value of byte t*3073 and the 3072 bytes after it, unchanged |
| `Loader.SlotOfItem` | examples/siamese/convert_cifar_siamese_data.cpp:91 | slot `10000*fileid + itemid` divides back into `fileid` and `itemid`, so no two (file, item) pairs share a slot |
| `Loader.SlotHoldsItem` | examples/siamese/convert_cifar_siamese_data.cpp:90-93 | slot `10000*fileid + itemid` lies inside the split and holds item `itemid` of file `fileid` |
| `Loader.WholeSplitSlots` | examples/siamese/convert_cifar_siamese_data.cpp:81-95 | when every file is complete, slot idx holds the signed label byte and the 3072 raw bytes of record idx mod 10000 of file idx div 10000 |
| `Loader.LoadSplit` | examples/siamese/convert_cifar_siamese_data.cpp:78-95 | the loader allocates 10000 slots per file and fills every slot exactly once, file order then item order: slot idx holds item idx mod 10000 of file idx div 10000, and equally slot 10000*fileid + itemid holds item itemid of file fileid (the loop invariant keeps every image slot not yet reached at its zero initial value) |
| `LabelSet.Insert` | examples/siamese/convert_cifar_siamese_data.cpp:96 | inserting into an ascending duplicate-free set keeps it ascending and duplicate-free, adds exactly the new label, and grows it by one only when the label was absent |
| `LabelSet.BuildLabelSet` | examples/siamese/convert_cifar_siamese_data.cpp:96 | the set built from the label vector is ascending and duplicate-free, holds exactly the labels that occur, is no longer than the vector, and is non-empty when the vector is |
| `LabelSet.LabelSetUnique` | examples/siamese/convert_cifar_siamese_data.cpp:96 | the label set of a label vector is unique: two ascending duplicate-free sequences holding exactly the labels that occur are equal |
| `Sampler.RandomLabelExcept` | examples/siamese/convert_cifar_siamese_data.cpp:106-112 | a returned label is a member of the set different from the excluded one; it is the (draw mod size)-th element for the last draw consumed; every earlier draw named the excluded label; when the draws run out, every draw named it |
| `Sampler.AcceptedLabelNeedsAlternative` | examples/siamese/convert_cifar_siamese_data.cpp:106-112 | a candidate can only be accepted when the set has at least two labels or the excluded label is not in it |
| `Sampler.RandomImageWithLabel` | examples/siamese/convert_cifar_siamese_data.cpp:113-120 | a returned image is `images[j]` with `labels[j]` equal to the asked label, for j = last draw mod n (j may be the anchor's index); every earlier index drawn had another label; when the draws run out, none matched |
| `Sampler.SamplePair` | examples/siamese/convert_cifar_siamese_data.cpp:104-122 | draws are consumed in code order: the first gives `identity_pair` = draw mod 2; label draws follow only when it is 0; then the image draws, the last naming the partner index. Identity 1 means the target is the anchor's label; identity 0 means it is the first drawn set member different from it. The partner carries the target label. The iteration runs out of draws exactly when `PairDrawsExhausted` holds: no draws, or every label draw names the anchor's label, or every image draw misses the target |
| `Sampler.PairDrawsDeterministic` | examples/siamese/convert_cifar_siamese_data.cpp:104-122 | the draws one iteration consumes are determined: no two different prefixes of a draw sequence both complete the iteration for the same anchor, and their label phases end at the same draw |
| `Sampler.PairExcludesExhausted` | examples/siamese/convert_cifar_siamese_data.cpp:104-122 | draws with a prefix that completes an anchor's iteration are never draws on which that iteration runs out, so `SamplePair` returns a pair or `OutOfDraws` but never has a choice |
| `Sampler.Candidate` | examples/siamese/convert_cifar_siamese_data.cpp:108-109 | advancing the set's begin iterator by draw mod size gives a member of the label set |
| `Encoder.Transaction.Put` | examples/siamese/convert_cifar_siamese_data.cpp:132 | a put appends exactly one (key, value) pair to the staged sequence and changes nothing else |
| `Encoder.PixelsBuffer` | examples/siamese/convert_cifar_siamese_data.cpp:124-125 | the pixel buffer is 6144 bytes: its first 3072 are the anchor image and its last 3072 the partner image |
| `Encoder.EncodeSplit` | examples/siamese/convert_cifar_siamese_data.cpp:98-133 | puts are appended after those already staged, one per anchor index in increasing order, each as `StagedAt` and `SplitStaged` describe: key `format_int(k, 5)`, channels 6, height 32, width 32, data equal to anchor image k, label equal to the `identity_pair` draw (1 means the partner's label equals the anchor's, 0 that it differs), partner the image the iteration's last draw names. Anchor k's iteration starts where anchor k-1's ended; a finished split reports exactly the draws it used; a split that stops at anchor i has staged exactly 0..i-1 and its remaining draws satisfy `PairDrawsExhausted` for anchor i |
| `Encoder.SplitStagedDeterministic` | examples/siamese/convert_cifar_siamese_data.cpp:98-133 | the images, labels and draws determine a split's staging entirely: any two runs satisfying `SplitStaged` end with the same outcome, stage the same puts, in the same order, and use the same partners and draw positions |
| `Encoder.ConvertSplit` | examples/siamese/convert_cifar_siamese_data.cpp:75-134 | one whole split (load, label set, encode): the puts appended to the transaction are `SplitStaged` over the label and image vectors loaded from the split's files, with the label set of those labels, drawn from the draws given |
| `Encoder.ConvertDataset` | examples/siamese/convert_cifar_siamese_data.cpp:44-213 | train then test, each staged in its own transaction. The train puts are `SplitStaged` over the five train files from the start of the draws. The test split runs exactly when the train split finished, and its puts are `SplitStaged` over the test file from the draw where the train split stopped. `completed` holds exactly when both splits finished, and then there are 50000 train and 10000 test records. Test record k is item k of the test file. Keys within a split are pairwise distinct |

## Left out

- Opening the input files and the `CHECK(data_file)` checks (lines 86-88, 144-145): input files are given as byte sequences, so a file always opens.
- The key-value store: `db::GetDB`, `Open`, `NewTransaction`, `Commit` and `Close` (lines 44-46, 136-137, 140-142, 212-213) are external storage calls. A transaction is its sequence of staged puts, and `ConvertDataset` returns those sequences in place of committing them.
- `Datum::SerializeToString` and its `CHECK` (lines 130-131) belong to the protobuf library. The staged value is the snapshot of the `Datum` fields the tool sets; the wire format and its round trip are not modelled, nor are the `Datum` fields the tool never sets.
- `std::rand` itself: its values are the supplied draw sequence. Its distribution, its period and its `RAND_MAX` bound are not modelled.
- `caffe::format_int` (caffe/util/format.hpp is not part of this model): a key is the symbolic call `FormatInt(i, 5)`. Keys of different indices therefore differ, but their text, zero padding and lexicographic order are not modelled.
- Termination of the two retry loops: the source loops forever when no candidate can be accepted. The model stops with `OutOfDraws` when the supplied draws are used up, and a split then ends with `DrawsExhausted`. The real program has no such outcome.
- `CifarFormat.ReadImage`: the buffer is passed by value and the new contents are returned, where the source writes through a pointer into the vector's element. A single value `unread` stands for the indeterminate `char` of every label read that finds no byte.
- The signedness of `char` is implementation-defined. The model takes it to be signed, as on x86 and x86-64 Linux. On ARM Linux, where `char` is unsigned, the label would be the byte itself; for the CIFAR-10 labels 0..9 both give the same value.
- The `#if 0` blocks (lines 49-73, 146-161), logging, and `main`'s argument handling (lines 216-236) are command-line and logging plumbing.
