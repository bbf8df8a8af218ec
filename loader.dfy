/**
 * The in-memory loading loops of `convert_dataset`: the items of a split
 * are read file after file, item after item, into two vectors that start
 * out value-initialised (zero images, zero labels). The train split reads
 * five batch files, the test split one.
 */
module Loader {
  import opened CifarFormat

  /** Item `itemid` of file `fileid` lands in slot `BatchSize * fileid + itemid`, and that slot belongs to no other item. */
  lemma SlotOfItem(fileid: nat, itemid: nat)
    requires itemid < BatchSize
    ensures (BatchSize * fileid + itemid) / BatchSize == fileid
    ensures (BatchSize * fileid + itemid) % BatchSize == itemid
  {
  }

  /** The label in slot `idx` of a split read from `files`. */
  function SplitLabel(files: seq<seq<byte>>, idx: nat, unread: int8): (l: int)
    requires idx < |files| * BatchSize
    ensures -128 <= l < 128
  {
    ItemLabel(files[idx / BatchSize], idx % BatchSize, unread)
  }

  /** The image in slot `idx` of a split read from `files`. */
  function SplitImage(files: seq<seq<byte>>, idx: nat): (img: Image)
    requires idx < |files| * BatchSize
    ensures |files[idx / BatchSize]| <= (idx % BatchSize) * RecordBytes ==> img == Zeros(ImageBytes)
  {
    ItemImage(files[idx / BatchSize], idx % BatchSize)
  }

  /** The label vector of a split read from `files`, slot by slot. */
  function SplitLabels(files: seq<seq<byte>>, unread: int8): (ls: seq<int>)
  {
    seq(|files| * BatchSize, idx requires 0 <= idx < |files| * BatchSize => SplitLabel(files, idx, unread))
  }

  /** The image vector of a split read from `files`, slot by slot. */
  function SplitImages(files: seq<seq<byte>>): (ims: seq<Image>)
  {
    seq(|files| * BatchSize, idx requires 0 <= idx < |files| * BatchSize => SplitImage(files, idx))
  }

  /** Slot `BatchSize * fileid + itemid` of a split holds item `itemid` of file `fileid`. */
  lemma SlotHoldsItem(files: seq<seq<byte>>, fileid: nat, itemid: nat, unread: int8)
    requires fileid < |files| && itemid < BatchSize
    ensures BatchSize * fileid + itemid < |files| * BatchSize
    ensures SplitLabel(files, BatchSize * fileid + itemid, unread) == ItemLabel(files[fileid], itemid, unread)
    ensures SplitImage(files, BatchSize * fileid + itemid) == ItemImage(files[fileid], itemid)
  {
    SlotOfItem(fileid, itemid);
    assert BatchSize * fileid + BatchSize <= BatchSize * |files|;
  }

  /**
   * When every file of a split holds all its records, slot `idx` is the
   * signed label byte and the 3072 image bytes of record `idx % BatchSize`
   * of file `idx / BatchSize`, byte for byte.
   */
  lemma WholeSplitSlots(files: seq<seq<byte>>, idx: nat, unread: int8)
    requires forall f :: 0 <= f < |files| ==> |files[f]| >= BatchSize * RecordBytes
    requires idx < |files| * BatchSize
    ensures var fileid, itemid := idx / BatchSize, idx % BatchSize;
            fileid < |files| &&
            SplitLabel(files, idx, unread) == SignedChar(files[fileid][itemid * RecordBytes]) &&
            SplitImage(files, idx) == files[fileid][itemid * RecordBytes + 1..(itemid + 1) * RecordBytes]
  {
    WholeFileItems(files[idx / BatchSize], unread, idx % BatchSize);
  }

  /**
   * Loads a split made of `files` (each a batch of `BatchSize` records).
   * `unread` is the indeterminate label of a record whose label byte lies
   * past the end of its file.
   */
  method LoadSplit(files: seq<seq<byte>>, unread: int8) returns (images: array<Image>, labels: array<int>)
    ensures fresh(images) && fresh(labels)
    ensures images.Length == labels.Length == |files| * BatchSize
    ensures forall idx :: 0 <= idx < labels.Length ==>
              labels[idx] == SplitLabel(files, idx, unread) && images[idx] == SplitImage(files, idx)
    ensures forall fileid, itemid :: 0 <= fileid < |files| && 0 <= itemid < BatchSize ==>
              labels[BatchSize * fileid + itemid] == ItemLabel(files[fileid], itemid, unread) &&
              images[BatchSize * fileid + itemid] == ItemImage(files[fileid], itemid)
    ensures labels[..] == SplitLabels(files, unread) && images[..] == SplitImages(files)
  {
    var n := |files| * BatchSize;
    images := new Image[n](_ => Zeros(ImageBytes));
    labels := new int[n](_ => 0);
    var fileid := 0;
    while fileid < |files|
      invariant 0 <= fileid <= |files|
      invariant BatchSize * fileid <= n
      invariant forall idx :: 0 <= idx < BatchSize * fileid ==>
                  labels[idx] == SplitLabel(files, idx, unread) && images[idx] == SplitImage(files, idx)
      invariant forall idx :: BatchSize * fileid <= idx < n ==> images[idx] == Zeros(ImageBytes)
    {
      var dataFile := new InputFile(files[fileid]);
      var itemid := 0;
      while itemid < BatchSize
        invariant 0 <= itemid <= BatchSize
        invariant StreamAfter(dataFile, files[fileid], itemid)
        invariant forall idx :: 0 <= idx < BatchSize * fileid + itemid ==>
                    labels[idx] == SplitLabel(files, idx, unread) && images[idx] == SplitImage(files, idx)
        invariant forall idx :: BatchSize * fileid + itemid <= idx < n ==> images[idx] == Zeros(ImageBytes)
      {
        var bufferIndex := BatchSize * fileid + itemid;
        SlotHoldsItem(files, fileid, itemid, unread);
        var lbl, image := ReadItem(dataFile, itemid, images[bufferIndex], unread);
        labels[bufferIndex] := lbl;
        images[bufferIndex] := image;
        itemid := itemid + 1;
      }
      fileid := fileid + 1;
    }
    forall fileid, itemid | 0 <= fileid < |files| && 0 <= itemid < BatchSize
      ensures BatchSize * fileid + itemid < n
      ensures labels[BatchSize * fileid + itemid] == ItemLabel(files[fileid], itemid, unread)
      ensures images[BatchSize * fileid + itemid] == ItemImage(files[fileid], itemid)
    {
      SlotHoldsItem(files, fileid, itemid, unread);
    }
  }
}
