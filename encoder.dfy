/**
 * Record construction and staging in `convert_dataset`: for every anchor
 * index a pair is drawn, its pixel buffer is built, the reused `Datum` is
 * updated and one `Put` is staged in the split's transaction. The two
 * splits differ only in their files and sizes; `ConvertSplit` is the one
 * routine both run, and `ConvertDataset` runs it for train, then test.
 */
module Encoder {
  import opened CifarFormat
  import opened LabelSet
  import opened Sampler
  import opened Loader

  /** The width passed to `caffe::format_int` for record keys. */
  const KeyWidth: nat := 5
  /** `datum.set_channels(6)`: two stacked 3-channel images. */
  const PairChannels: int := 6

  /**
   * The key `caffe::format_int(value, width)`. Its text is not modelled;
   * a key stands for the call itself, so keys of different indices differ.
   */
  datatype Key = FormatInt(value: int, width: nat)

  /** The fields of a `Datum` that the converter sets, as one serialised value. */
  datatype DatumValue = DatumValue(channels: int, height: int, width: int, lbl: int, data: seq<byte>)

  /** One `txn->Put(key, value)`. */
  datatype StagedPut = StagedPut(key: Key, value: DatumValue)

  /** The reused protobuf `Datum`; a fresh one has every field at its default. */
  class Datum {
    var channels: int
    var height: int
    var width: int
    var lbl: int          // the protobuf field `label`
    var data: seq<byte>

    constructor ()
      ensures channels == 0 && height == 0 && width == 0 && lbl == 0 && data == []
    {
      channels, height, width, lbl, data := 0, 0, 0, 0, [];
    }

    /** What `SerializeToString` captures of the current field values. */
    function Value(): (v: DatumValue)
      reads this
    {
      DatumValue(channels, height, width, lbl, data)
    }
  }

  /** A transaction of the key-value store: the puts staged so far, in order. */
  class Transaction {
    var staged: seq<StagedPut>

    constructor ()
      ensures staged == []
    {
      staged := [];
    }

    method Put(key: Key, value: DatumValue)
      modifies this
      ensures staged == old(staged) + [StagedPut(key, value)]
    {
      staged := staged + [StagedPut(key, value)];
    }
  }

  /**
   * `pixels_buffer`: the anchor's bytes followed by the partner's, so that
   * the first 3072 bytes are the anchor and the rest the partner.
   */
  function PixelsBuffer(anchor: Image, partner: Image): (buf: seq<byte>)
    ensures |buf| == 2 * ImageBytes
    ensures buf[..ImageBytes] == anchor && buf[ImageBytes..] == partner
  {
    anchor + partner
  }

  /**
   * What the put staged for anchor `k` holds: key `format_int(k, 5)`, a
   * 6x32x32 Datum whose label is 0 or 1 and whose data is the anchor image
   * alone (`set_data` is given 3072 bytes of the 6144-byte buffer); label 1
   * means the partner has the anchor's label, 0 that it has another.
   */
  ghost predicate IsPairRecord(p: StagedPut, k: nat, anchor: Image, anchorLabel: int, partnerLabel: int)
  {
    p.key == FormatInt(k, KeyWidth) &&
    p.value == DatumValue(PairChannels, ImageSize, ImageSize, p.value.lbl, anchor) &&
    (p.value.lbl == 0 || p.value.lbl == 1) &&
    (p.value.lbl == 1 ==> partnerLabel == anchorLabel) &&
    (p.value.lbl == 0 ==> partnerLabel != anchorLabel)
  }

  /** How a split's loop ended: all indices staged using `used` draws, or the draws ran out at anchor `index`. */
  datatype Outcome = Done(used: nat) | DrawsExhausted(index: nat)

  /** The number of puts a split of `n` anchors stages before it ends with `outcome`. */
  function StagedCount(outcome: Outcome, n: nat): (c: nat)
  {
    if outcome.Done? then n else outcome.index
  }

  /**
   * How a split's records follow from the draws: the label set used, the
   * position in the draws where each anchor's iteration starts (one more
   * entry than there are records), and the partner index of each record.
   */
  datatype SplitTrace = SplitTrace(labelSet: seq<int>, starts: seq<nat>, partners: seq<nat>)

  /**
   * The put `p` staged for anchor `k` from the draws `draws[start..next]`:
   * those draws are exactly one iteration for `k`, the record's label is
   * the `identity_pair` draw, and the partner is the image the last draw
   * names.
   */
  ghost predicate StagedAt(images: seq<Image>, labels: seq<int>, labelSet: seq<int>, draws: seq<nat>,
                           k: nat, p: StagedPut, start: nat, next: nat, partner: nat)
  {
    |images| == |labels| && k < |images| && start < next <= |draws| && partner < |images| &&
    IsPairRecord(p, k, images[k], labels[k], labels[partner]) &&
    PairDraws(images, labels, labelSet, k, draws[start..next]) &&
    p.value.lbl == draws[start] % 2 &&
    partner == draws[next - 1] % |images|
  }

  /** The first `count` puts of a split, each drawn right after the previous one's draws. */
  ghost predicate StagedPrefix(images: seq<Image>, labels: seq<int>, labelSet: seq<int>, draws: seq<nat>,
                               count: nat, staged: seq<StagedPut>, starts: seq<nat>, partners: seq<nat>)
  {
    count <= |images| && |staged| == count && |partners| == count && |starts| == count + 1 &&
    starts[0] == 0 && starts[count] <= |draws| &&
    forall k :: 0 <= k < count ==>
      StagedAt(images, labels, labelSet, draws, k, staged[k], starts[k], starts[k + 1], partners[k])
  }

  /**
   * The puts `staged` of one split over `images` and `labels` that ended
   * with `outcome`: one record per anchor in index order, each from the
   * draws that follow the previous one's. A finished split used exactly
   * the draws of its records; a split that ran out at `index` has a tail
   * of draws on which anchor `index`'s iteration does not finish.
   */
  ghost predicate SplitStaged(images: seq<Image>, labels: seq<int>, draws: seq<nat>, outcome: Outcome,
                              staged: seq<StagedPut>, trace: SplitTrace)
  {
    |images| == |labels| && IsLabelSetOf(trace.labelSet, labels) &&
    (outcome.DrawsExhausted? ==> outcome.index < |images|) &&
    StagedPrefix(images, labels, trace.labelSet, draws, StagedCount(outcome, |images|), staged, trace.starts, trace.partners) &&
    (outcome.Done? ==> outcome.used == trace.starts[|images|]) &&
    (outcome.DrawsExhausted? ==>
       PairDrawsExhausted(images, labels, trace.labelSet, outcome.index, draws[trace.starts[outcome.index]..]))
  }

  /** One more record drawn right after the first `count` extends the prefix. */
  lemma ExtendStagedPrefix(images: seq<Image>, labels: seq<int>, labelSet: seq<int>, draws: seq<nat>,
                           count: nat, staged: seq<StagedPut>, starts: seq<nat>, partners: seq<nat>,
                           p: StagedPut, next: nat, partner: nat)
    requires StagedPrefix(images, labels, labelSet, draws, count, staged, starts, partners)
    requires StagedAt(images, labels, labelSet, draws, count, p, starts[count], next, partner)
    ensures StagedPrefix(images, labels, labelSet, draws, count + 1, staged + [p], starts + [next], partners + [partner])
  {
    var staged', starts', partners' := staged + [p], starts + [next], partners + [partner];
    forall k | 0 <= k < count + 1
      ensures StagedAt(images, labels, labelSet, draws, k, staged'[k], starts'[k], starts'[k + 1], partners'[k])
    {
      if k < count {
        assert staged'[k] == staged[k] && starts'[k] == starts[k] && starts'[k + 1] == starts[k + 1] && partners'[k] == partners[k];
      }
    }
  }

  /** Two prefixes of puts drawn from the same draws start each anchor's iteration at the same position. */
  lemma {:induction false} StartsAgree(images: seq<Image>, labels: seq<int>, labelSet: seq<int>, draws: seq<nat>,
                                       c1: nat, staged1: seq<StagedPut>, starts1: seq<nat>, partners1: seq<nat>,
                                       c2: nat, staged2: seq<StagedPut>, starts2: seq<nat>, partners2: seq<nat>, k: nat)
    requires StagedPrefix(images, labels, labelSet, draws, c1, staged1, starts1, partners1)
    requires StagedPrefix(images, labels, labelSet, draws, c2, staged2, starts2, partners2)
    requires k <= c1 && k <= c2
    ensures starts1[k] == starts2[k]
    decreases k
  {
    if k > 0 {
      StartsAgree(images, labels, labelSet, draws, c1, staged1, starts1, partners1, c2, staged2, starts2, partners2, k - 1);
      var a := starts1[k - 1];
      assert StagedAt(images, labels, labelSet, draws, k - 1, staged1[k - 1], a, starts1[k], partners1[k - 1]);
      assert StagedAt(images, labels, labelSet, draws, k - 1, staged2[k - 1], a, starts2[k], partners2[k - 1]);
      var d := draws[a..];
      var u1, u2 := starts1[k] - a, starts2[k] - a;
      assert d[..u1] == draws[a..starts1[k]];
      assert d[..u2] == draws[a..starts2[k]];
      var s1: nat :| PairDrawsAt(images, labels, labelSet, k - 1, d[..u1], s1);
      var s2: nat :| PairDrawsAt(images, labels, labelSet, k - 1, d[..u2], s2);
      PairDrawsDeterministic(images, labels, labelSet, k - 1, d, u1, u2, s1, s2);
    }
  }

  /** A split that ran out of draws at some anchor has no prefix of puts, drawn from the same draws, that gets past it. */
  lemma NoPrefixPastExhaustion(images: seq<Image>, labels: seq<int>, draws: seq<nat>, outcome: Outcome,
                                                  staged: seq<StagedPut>, trace: SplitTrace,
                                                  c: nat, staged': seq<StagedPut>, starts': seq<nat>, partners': seq<nat>)
    requires SplitStaged(images, labels, draws, outcome, staged, trace)
    requires StagedPrefix(images, labels, trace.labelSet, draws, c, staged', starts', partners')
    ensures c <= StagedCount(outcome, |images|)
  {
    var count := StagedCount(outcome, |images|);
    if count < c {
      StartsAgree(images, labels, trace.labelSet, draws, count, staged, trace.starts, trace.partners,
                  c, staged', starts', partners', count);
      var a := starts'[count];
      assert StagedAt(images, labels, trace.labelSet, draws, count, staged'[count], a, starts'[count + 1], partners'[count]);
      var d := draws[a..];
      var u := starts'[count + 1] - a;
      assert d[..u] == draws[a..starts'[count + 1]];
      var s: nat :| PairDrawsAt(images, labels, trace.labelSet, count, d[..u], s);
      PairExcludesExhausted(images, labels, trace.labelSet, count, d, u, s);
    }
  }

  /**
   * The draws determine a split entirely: two runs over the same images,
   * labels and draws that both satisfy `SplitStaged` end with the same
   * outcome, stage the same puts and trace the same draws.
   */
  lemma SplitStagedDeterministic(images: seq<Image>, labels: seq<int>, draws: seq<nat>,
                                                    o1: Outcome, staged1: seq<StagedPut>, t1: SplitTrace,
                                                    o2: Outcome, staged2: seq<StagedPut>, t2: SplitTrace)
    requires SplitStaged(images, labels, draws, o1, staged1, t1)
    requires SplitStaged(images, labels, draws, o2, staged2, t2)
    ensures o1 == o2 && staged1 == staged2 && t1 == t2
  {
    LabelSetUnique(t1.labelSet, t2.labelSet, labels);
    var labelSet := t1.labelSet;
    var c1, c2 := StagedCount(o1, |images|), StagedCount(o2, |images|);
    NoPrefixPastExhaustion(images, labels, draws, o1, staged1, t1, c2, staged2, t2.starts, t2.partners);
    NoPrefixPastExhaustion(images, labels, draws, o2, staged2, t2, c1, staged1, t1.starts, t1.partners);
    forall k | 0 <= k <= c1
      ensures t1.starts[k] == t2.starts[k]
    {
      StartsAgree(images, labels, labelSet, draws, c1, staged1, t1.starts, t1.partners,
                  c2, staged2, t2.starts, t2.partners, k);
    }
    assert t1.starts == t2.starts;
    forall k | 0 <= k < c1
      ensures staged1[k] == staged2[k] && t1.partners[k] == t2.partners[k]
    {
      assert StagedAt(images, labels, labelSet, draws, k, staged1[k], t1.starts[k], t1.starts[k + 1], t1.partners[k]);
      assert StagedAt(images, labels, labelSet, draws, k, staged2[k], t2.starts[k], t2.starts[k + 1], t2.partners[k]);
    }
    assert staged1 == staged2 && t1.partners == t2.partners;
  }

  /**
   * The per-index loop: stages one put per anchor index, in increasing
   * order, each as `IsPairRecord` describes and drawn as `SplitStaged`
   * states, after the puts already in `txn`.
   */
  method EncodeSplit(images: seq<Image>, labels: seq<int>, labelSet: seq<int>, draws: seq<nat>, txn: Transaction)
    returns (outcome: Outcome, ghost trace: SplitTrace)
    requires |images| == |labels|
    requires IsLabelSetOf(labelSet, labels)
    modifies txn
    ensures trace.labelSet == labelSet
    ensures |old(txn.staged)| <= |txn.staged| && txn.staged[..|old(txn.staged)|] == old(txn.staged)
    ensures SplitStaged(images, labels, draws, outcome, txn.staged[|old(txn.staged)|..], trace)
  {
    var datum := new Datum();
    datum.channels := PairChannels;
    datum.height := ImageSize;
    datum.width := ImageSize;
    ghost var base := |txn.staged|;
    ghost var starts: seq<nat> := [0];
    ghost var partners: seq<nat> := [];
    var i, pos := 0, 0;
    while i < |images|
      invariant 0 <= i <= |images| && 0 <= pos <= |draws|
      invariant datum.channels == PairChannels && datum.height == ImageSize && datum.width == ImageSize
      invariant base <= |txn.staged| && txn.staged[..base] == old(txn.staged)
      invariant StagedPrefix(images, labels, labelSet, draws, i, txn.staged[base..], starts, partners)
      invariant starts[i] == pos
    {
      var pair, partner, imageStart := SamplePair(images, labels, labelSet, i, draws[pos..]);
      if pair.OutOfDraws? {
        return DrawsExhausted(i), SplitTrace(labelSet, starts, partners);
      }
      var pixels := PixelsBuffer(images[i], pair.value.partner);
      datum.lbl := pair.value.identity;
      datum.data := pixels[..ImageBytes];
      ghost var before := txn.staged;
      txn.Put(FormatInt(i, KeyWidth), datum.Value());
      ghost var p := StagedPut(FormatInt(i, KeyWidth), datum.Value());
      assert txn.staged[base..] == before[base..] + [p];
      assert draws[pos..][..pair.used] == draws[pos..pos + pair.used];
      assert draws[pos..][pair.used - 1] == draws[pos + pair.used - 1];
      assert PairDraws(images, labels, labelSet, i, draws[pos..pos + pair.used]);
      ExtendStagedPrefix(images, labels, labelSet, draws, i, before[base..], starts, partners, p, pos + pair.used, partner);
      starts := starts + [pos + pair.used];
      partners := partners + [partner];
      pos := pos + pair.used;
      i := i + 1;
    }
    outcome := Done(pos);
    trace := SplitTrace(labelSet, starts, partners);
  }

  /**
   * One split, as either block of `convert_dataset` runs it: load the
   * files, derive the label set, stage the pair records.
   */
  method ConvertSplit(files: seq<seq<byte>>, unread: int8, draws: seq<nat>, txn: Transaction)
    returns (outcome: Outcome, ghost trace: SplitTrace)
    modifies txn
    ensures |old(txn.staged)| <= |txn.staged| && txn.staged[..|old(txn.staged)|] == old(txn.staged)
    ensures SplitStaged(SplitImages(files), SplitLabels(files, unread), draws, outcome,
                        txn.staged[|old(txn.staged)|..], trace)
  {
    var images, labels := LoadSplit(files, unread);
    var labelSet := BuildLabelSet(labels[..]);
    outcome, trace := EncodeSplit(images[..], labels[..], labelSet, draws, txn);
  }

  /** Whether the test split ran, and how it ended. */
  datatype SplitRun = NotRun | Ran(outcome: Outcome)

  /**
   * `convert_dataset`: the train split (five batch files), then the test
   * split (one file), each staged in its own fresh transaction; the test
   * split continues the same stream of draws where the train split left
   * it. The test split runs only when the train split finished, and
   * `completed` holds exactly when both finished.
   */
  method ConvertDataset(trainFiles: seq<seq<byte>>, testFile: seq<byte>, unread: int8, draws: seq<nat>)
    returns (train: seq<StagedPut>, test: seq<StagedPut>, trainOutcome: Outcome, testRun: SplitRun,
             completed: bool, ghost trainTrace: SplitTrace, ghost testTrace: SplitTrace)
    requires |trainFiles| == TrainBatches
    ensures SplitStaged(SplitImages(trainFiles), SplitLabels(trainFiles, unread), draws, trainOutcome, train, trainTrace)
    ensures testRun.Ran? <==> trainOutcome.Done?
    ensures testRun.NotRun? ==> test == []
    ensures testRun.Ran? ==>
              trainOutcome.used <= |draws| &&
              SplitStaged(SplitImages([testFile]), SplitLabels([testFile], unread), draws[trainOutcome.used..],
                          testRun.outcome, test, testTrace)
    ensures completed <==> trainOutcome.Done? && testRun.Ran? && testRun.outcome.Done?
    ensures completed ==> |train| == TrainBatches * BatchSize && |test| == BatchSize
    ensures |train| <= TrainBatches * BatchSize && |test| <= BatchSize
    ensures |test| > 0 ==> |train| == TrainBatches * BatchSize
    ensures testRun.Ran? ==>
              forall k :: 0 <= k < |test| ==>
                testTrace.partners[k] < BatchSize &&
                IsPairRecord(test[k], k, ItemImage(testFile, k),
                             ItemLabel(testFile, k, unread), ItemLabel(testFile, testTrace.partners[k], unread))
    ensures forall a, b :: 0 <= a < b < |train| ==> train[a].key != train[b].key
    ensures forall a, b :: 0 <= a < b < |test| ==> test[a].key != test[b].key
  {
    var trainTxn := new Transaction();
    trainOutcome, trainTrace := ConvertSplit(trainFiles, unread, draws, trainTxn);
    train := trainTxn.staged;
    assert train == trainTxn.staged[0..];
    test, testRun, completed := [], NotRun, false;
    testTrace := SplitTrace([], [0], []);
    if trainOutcome.Done? {
      var testTxn := new Transaction();
      var testOutcome;
      testOutcome, testTrace := ConvertSplit([testFile], unread, draws[trainOutcome.used..], testTxn);
      test := testTxn.staged;
      assert test == testTxn.staged[0..];
      testRun := Ran(testOutcome);
      completed := testOutcome.Done?;
      forall k | 0 <= k < |test|
        ensures testTrace.partners[k] < BatchSize
        ensures IsPairRecord(test[k], k, ItemImage(testFile, k),
                             ItemLabel(testFile, k, unread), ItemLabel(testFile, testTrace.partners[k], unread))
      {
        assert StagedAt(SplitImages([testFile]), SplitLabels([testFile], unread), testTrace.labelSet,
                        draws[trainOutcome.used..], k, test[k], testTrace.starts[k], testTrace.starts[k + 1],
                        testTrace.partners[k]);
        SlotHoldsItem([testFile], 0, k, unread);
        SlotHoldsItem([testFile], 0, testTrace.partners[k], unread);
      }
    }
    forall a, b | 0 <= a < b < |train|
      ensures train[a].key != train[b].key
    {
      assert StagedAt(SplitImages(trainFiles), SplitLabels(trainFiles, unread), trainTrace.labelSet, draws,
                      a, train[a], trainTrace.starts[a], trainTrace.starts[a + 1], trainTrace.partners[a]);
      assert StagedAt(SplitImages(trainFiles), SplitLabels(trainFiles, unread), trainTrace.labelSet, draws,
                      b, train[b], trainTrace.starts[b], trainTrace.starts[b + 1], trainTrace.partners[b]);
    }
  }
}
