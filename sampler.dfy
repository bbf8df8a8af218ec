/**
 * The pair sampler of `convert_dataset`. Every call of `std::rand()` is
 * replaced by the next element of an explicit sequence of non-negative
 * draws, consumed in the order the code makes the calls. The two lambdas
 * are retry loops that never give up; here they stop with `OutOfDraws`
 * when the supplied draws are used up.
 */
module Sampler {
  import opened CifarFormat
  import opened LabelSet

  /** The value a retry loop returned and how many draws it consumed, or the draws ran out first. */
  datatype Sampled<T> = Sampled(value: T, used: nat) | OutOfDraws

  /** `std::advance(labels.begin(), draw % labels.size())`: the candidate label of one draw. */
  function Candidate(labelSet: seq<int>, draw: nat): (c: int)
    requires |labelSet| > 0
    ensures c in labelSet
  {
    labelSet[draw % |labelSet|]
  }

  /**
   * `random_label_except`: draws candidates from the label set until one
   * differs from `except`. The result is the first such candidate; every
   * earlier draw named `except` itself.
   */
  method RandomLabelExcept(labelSet: seq<int>, except: int, draws: seq<nat>) returns (r: Sampled<int>)
    requires |labelSet| > 0
    ensures r.Sampled? ==>
              0 < r.used <= |draws| &&
              r.value == Candidate(labelSet, draws[r.used - 1]) &&
              r.value in labelSet && r.value != except
    ensures r.Sampled? ==> forall j :: 0 <= j < r.used - 1 ==> Candidate(labelSet, draws[j]) == except
    ensures r.OutOfDraws? ==> forall j :: 0 <= j < |draws| ==> Candidate(labelSet, draws[j]) == except
  {
    var k := 0;
    while k < |draws|
      invariant 0 <= k <= |draws|
      invariant forall j :: 0 <= j < k ==> Candidate(labelSet, draws[j]) == except
    {
      var candidate := Candidate(labelSet, draws[k]);
      if except != candidate {
        return Sampled(candidate, k + 1);
      }
      k := k + 1;
    }
    return OutOfDraws;
  }

  /**
   * `random_label_except` can only return when the label set offers an
   * alternative: it has two or more labels, or `except` is not among them.
   */
  lemma AcceptedLabelNeedsAlternative(labelSet: seq<int>, except: int, draw: nat)
    requires |labelSet| > 0
    requires Candidate(labelSet, draw) != except
    ensures |labelSet| >= 2 || except !in labelSet
  {
    if except in labelSet {
      TwoDistinctMembers(labelSet, except, Candidate(labelSet, draw));
    }
  }

  /**
   * `random_image_with_label`: draws image indices until one carries
   * `lbl`, and returns that image. Nothing excludes the anchor's own index.
   */
  method RandomImageWithLabel(images: seq<Image>, labels: seq<int>, lbl: int, draws: seq<nat>)
    returns (r: Sampled<Image>)
    requires |images| == |labels| > 0
    ensures r.Sampled? ==>
              0 < r.used <= |draws| &&
              labels[draws[r.used - 1] % |labels|] == lbl &&
              r.value == images[draws[r.used - 1] % |images|]
    ensures r.Sampled? ==> forall j :: 0 <= j < r.used - 1 ==> labels[draws[j] % |labels|] != lbl
    ensures r.OutOfDraws? ==> forall j :: 0 <= j < |draws| ==> labels[draws[j] % |labels|] != lbl
  {
    var k := 0;
    while k < |draws|
      invariant 0 <= k <= |draws|
      invariant forall j :: 0 <= j < k ==> labels[draws[j] % |labels|] != lbl
    {
      var index := draws[k] % |images|;
      if labels[index] == lbl {
        return Sampled(images[index], k + 1);
      }
      k := k + 1;
    }
    return OutOfDraws;
  }

  /**
   * The draws `d[..s]` hold one iteration's label phase: `d[0]` is the
   * `identity_pair` draw and `s` the position of the first image-index
   * draw. When `d[0]` is odd the label phase is that one draw; when it is
   * even it goes on to the first draw whose candidate differs from the
   * anchor's label.
   */
  ghost predicate LabelPhase(labels: seq<int>, labelSet: seq<int>, i: nat, d: seq<nat>, s: nat)
  {
    i < |labels| && |labelSet| > 0 && 0 < s <= |d| &&
    (d[0] % 2 == 1 ==> s == 1) &&
    (d[0] % 2 == 0 ==>
       s >= 2 && Candidate(labelSet, d[s - 1]) != labels[i] &&
       forall j :: 1 <= j < s - 1 ==> Candidate(labelSet, d[j]) == labels[i])
  }

  /** The target label once the label phase ends at `s`. */
  ghost function PairTarget(labels: seq<int>, labelSet: seq<int>, i: nat, d: seq<nat>, s: nat): (t: int)
    requires LabelPhase(labels, labelSet, i, d, s)
    ensures d[0] % 2 == 1 ==> t == labels[i]
    ensures d[0] % 2 == 0 ==> t != labels[i] && t in labelSet
  {
    if d[0] % 2 == 1 then labels[i] else Candidate(labelSet, d[s - 1])
  }

  /**
   * `d` is exactly the draws one iteration for anchor `i` consumes: its
   * label phase ends at `s`, and the image-index draws from `s` on miss
   * the target until the last draw of `d`, which hits it.
   */
  ghost predicate PairDrawsAt(images: seq<Image>, labels: seq<int>, labelSet: seq<int>, i: nat, d: seq<nat>, s: nat)
  {
    |images| == |labels| && LabelPhase(labels, labelSet, i, d, s) && s < |d| &&
    labels[d[|d| - 1] % |labels|] == PairTarget(labels, labelSet, i, d, s) &&
    forall j :: s <= j < |d| - 1 ==> labels[d[j] % |labels|] != PairTarget(labels, labelSet, i, d, s)
  }

  /** `d` is exactly the draws of one complete iteration for anchor `i`. */
  ghost predicate PairDraws(images: seq<Image>, labels: seq<int>, labelSet: seq<int>, i: nat, d: seq<nat>)
  {
    exists s: nat :: PairDrawsAt(images, labels, labelSet, i, d, s)
  }

  /**
   * The iteration for anchor `i` does not finish within `d`: `d` is empty,
   * or the label draws all name the anchor's label, or the image draws all
   * miss the target.
   */
  ghost predicate PairDrawsExhausted(images: seq<Image>, labels: seq<int>, labelSet: seq<int>, i: nat, d: seq<nat>)
  {
    i < |labels| && |labels| == |images| && |labelSet| > 0 &&
    (|d| == 0 ||
     (d[0] % 2 == 0 && forall j :: 1 <= j < |d| ==> Candidate(labelSet, d[j]) == labels[i]) ||
     exists s: nat :: LabelPhase(labels, labelSet, i, d, s) &&
                 forall j :: s <= j < |d| ==> labels[d[j] % |labels|] != PairTarget(labels, labelSet, i, d, s))
  }

  /** A prefix of the draws that holds a label phase gives the whole draw sequence the same one. */
  lemma LabelPhaseOfPrefix(labels: seq<int>, labelSet: seq<int>, i: nat, d: seq<nat>, u: nat, s: nat)
    requires u <= |d| && LabelPhase(labels, labelSet, i, d[..u], s)
    ensures LabelPhase(labels, labelSet, i, d, s)
    ensures PairTarget(labels, labelSet, i, d[..u], s) == PairTarget(labels, labelSet, i, d, s)
  {
    assert d[..u][0] == d[0] && d[..u][s - 1] == d[s - 1];
    forall j | 1 <= j < s - 1
      ensures Candidate(labelSet, d[j]) == labels[i]
    {
      assert d[..u][j] == d[j];
    }
  }

  /** The label phase of a draw sequence ends at one position only. */
  lemma LabelPhaseUnique(labels: seq<int>, labelSet: seq<int>, i: nat, d: seq<nat>, s1: nat, s2: nat)
    requires LabelPhase(labels, labelSet, i, d, s1) && LabelPhase(labels, labelSet, i, d, s2)
    ensures s1 == s2
  {
    if d[0] % 2 == 0 {
      assert Candidate(labelSet, d[s1 - 1]) != labels[i];
      assert Candidate(labelSet, d[s2 - 1]) != labels[i];
    }
  }

  /** What a prefix `d[..u]` that completes an iteration says about the draws `d` themselves. */
  lemma PairDrawsOfPrefix(images: seq<Image>, labels: seq<int>, labelSet: seq<int>, i: nat, d: seq<nat>, u: nat, s: nat)
    requires u <= |d| && PairDrawsAt(images, labels, labelSet, i, d[..u], s)
    ensures LabelPhase(labels, labelSet, i, d, s) && s < u
    ensures labels[d[u - 1] % |labels|] == PairTarget(labels, labelSet, i, d, s)
    ensures forall j :: s <= j < u - 1 ==> labels[d[j] % |labels|] != PairTarget(labels, labelSet, i, d, s)
  {
    LabelPhaseOfPrefix(labels, labelSet, i, d, u, s);
    assert d[..u][u - 1] == d[u - 1];
    forall j | s <= j < u - 1
      ensures labels[d[j] % |labels|] != PairTarget(labels, labelSet, i, d, s)
    {
      assert d[..u][j] == d[j];
    }
  }

  /**
   * The draws of one iteration are determined: two prefixes of the same
   * draws that both complete an iteration for anchor `i` are the same
   * prefix, with the same label phase.
   */
  lemma PairDrawsDeterministic(images: seq<Image>, labels: seq<int>, labelSet: seq<int>, i: nat,
                                                  d: seq<nat>, u1: nat, u2: nat, s1: nat, s2: nat)
    requires u1 <= |d| && u2 <= |d|
    requires PairDrawsAt(images, labels, labelSet, i, d[..u1], s1)
    requires PairDrawsAt(images, labels, labelSet, i, d[..u2], s2)
    ensures u1 == u2 && s1 == s2
  {
    PairDrawsOfPrefix(images, labels, labelSet, i, d, u1, s1);
    PairDrawsOfPrefix(images, labels, labelSet, i, d, u2, s2);
    LabelPhaseUnique(labels, labelSet, i, d, s1, s2);
  }

  /** Draws with a prefix that completes the iteration for anchor `i` are not draws on which it runs out. */
  lemma PairExcludesExhausted(images: seq<Image>, labels: seq<int>, labelSet: seq<int>, i: nat,
                                                 d: seq<nat>, u: nat, s: nat)
    requires u <= |d|
    requires PairDrawsAt(images, labels, labelSet, i, d[..u], s)
    ensures !PairDrawsExhausted(images, labels, labelSet, i, d)
  {
    PairDrawsOfPrefix(images, labels, labelSet, i, d, u, s);
    forall s': nat | LabelPhase(labels, labelSet, i, d, s')
      ensures s' <= u - 1 < |d| && labels[d[u - 1] % |labels|] == PairTarget(labels, labelSet, i, d, s')
    {
      LabelPhaseUnique(labels, labelSet, i, d, s, s');
    }
  }

  /** `identity_pair`, the target `label` and `paired_image` of one iteration. */
  datatype PairDraw = PairDraw(identity: int, target: int, partner: Image)

  /**
   * One iteration's draws for anchor `i`: the `identity_pair` draw, then
   * label draws only when it is 0, then the image-index draws. `partner`
   * is the index of the image returned and `imageStart` the position of
   * the first image-index draw; both are ghost bookkeeping.
   */
  method SamplePair(images: seq<Image>, labels: seq<int>, labelSet: seq<int>, i: nat, draws: seq<nat>)
    returns (r: Sampled<PairDraw>, ghost partner: nat, ghost imageStart: nat)
    requires |images| == |labels| && i < |labels|
    requires IsLabelSetOf(labelSet, labels)
    ensures r.OutOfDraws? <==> PairDrawsExhausted(images, labels, labelSet, i, draws)
    ensures r.Sampled? ==>
              0 < imageStart < r.used <= |draws| &&
              PairDrawsAt(images, labels, labelSet, i, draws[..r.used], imageStart) &&
              r.value.target == PairTarget(labels, labelSet, i, draws[..r.used], imageStart) &&
              r.value.identity == draws[0] % 2 &&
              partner < |images| && partner == draws[r.used - 1] % |images| &&
              r.value.partner == images[partner] &&
              labels[partner] == r.value.target && r.value.target in labelSet
    ensures r.Sampled? && r.value.identity == 1 ==> imageStart == 1 && r.value.target == labels[i]
    ensures r.Sampled? && r.value.identity == 0 ==>
              imageStart >= 2 &&
              r.value.target == Candidate(labelSet, draws[imageStart - 1]) &&
              r.value.target != labels[i] &&
              (forall j :: 1 <= j < imageStart - 1 ==> Candidate(labelSet, draws[j]) == labels[i])
    ensures r.Sampled? ==>
              forall j :: imageStart <= j < r.used - 1 ==> labels[draws[j] % |labels|] != r.value.target
  {
    partner, imageStart := 0, 0;
    MemberOfLabelSet(labelSet, labels, i);
    if |draws| == 0 {
      return OutOfDraws, partner, imageStart;
    }
    var identityPair := draws[0] % 2;
    var target := labels[i];
    var consumed := 1;
    if identityPair == 0 {
      var picked := RandomLabelExcept(labelSet, labels[i], draws[1..]);
      if picked.OutOfDraws? {
        forall j | 1 <= j < |draws|
          ensures Candidate(labelSet, draws[j]) == labels[i]
        {
          assert draws[j] == draws[1..][j - 1];
        }
        return OutOfDraws, partner, 1;
      }
      target := picked.value;
      consumed := 1 + picked.used;
    }
    imageStart := consumed;
    var paired := RandomImageWithLabel(images, labels, target, draws[consumed..]);
    assert LabelPhase(labels, labelSet, i, draws, imageStart) by {
      forall j | 1 <= j < imageStart - 1
        ensures Candidate(labelSet, draws[j]) == labels[i]
      {
        assert draws[j] == draws[1..][j - 1];
      }
    }
    if paired.OutOfDraws? {
      forall j | imageStart <= j < |draws|
        ensures labels[draws[j] % |labels|] != target
      {
        assert draws[j] == draws[consumed..][j - consumed];
      }
      return OutOfDraws, partner, imageStart;
    }
    partner := draws[consumed + paired.used - 1] % |images|;
    r := Sampled(PairDraw(identityPair, target, paired.value), consumed + paired.used);
    assert PairDrawsAt(images, labels, labelSet, i, draws[..r.used], imageStart) by {
      LabelPhaseOfPrefix(labels, labelSet, i, draws, |draws|, imageStart);
      assert draws[..|draws|] == draws;
    }
    PairExcludesExhausted(images, labels, labelSet, i, draws, r.used, imageStart);
  }
}
