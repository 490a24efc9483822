/**
 * Openness classification (`check_is_hand_open`, hand_gamepad.py): the
 * distances between every pair of the four fingertips are collected by two
 * nested loops, averaged, and the hand counts as open when the average
 * exceeds a fixed threshold.
 */
module HandOpenness {
  import opened Helpers

  /** One landmark as the detector reports it: its normalised position and its position in pixels. */
  datatype Landmark = Landmark(norm: NormPoint, pixel: Point)

  /** The landmarks of one detected hand, in the detector's anatomical order. */
  type DetectedHand = seq<Landmark>

  /** Landmark indexes of the index, middle, ring and little fingertips. */
  const FingerTips: seq<nat> := [8, 12, 16, 20]

  /** Average fingertip distance above which a hand counts as open. */
  const OpenThreshold: real := 0.1

  /** The hand has every landmark the classifier reads. */
  predicate HasFingerTips(hand: DetectedHand)
  {
    |hand| > 20
  }

  /** `landmarks = [(lm.x, lm.y) for lm in ...]`: the normalised positions. */
  function NormPoints(hand: DetectedHand): (ps: seq<NormPoint>)
    ensures |ps| == |hand|
    ensures forall k :: 0 <= k < |hand| ==> ps[k] == hand[k].norm
  {
    seq(|hand|, k requires 0 <= k < |hand| => hand[k].norm)
  }

  predicate IndexesInto(tips: seq<nat>, ps: seq<NormPoint>)
  {
    forall k :: 0 <= k < |tips| ==> tips[k] < |ps|
  }

  /** Distances from tip i to the tips i+1 .. j-1, in the inner loop's order. */
  function RowDistances(sqrt: real -> real, ps: seq<NormPoint>, tips: seq<nat>, i: nat, j: nat): seq<real>
    requires NonNegativeRoot(sqrt) && IndexesInto(tips, ps)
    requires i < j <= |tips|
    decreases j
  {
    if j == i + 1 then []
    else RowDistances(sqrt, ps, tips, i, j - 1) + [Distance(sqrt, ps[tips[i]], ps[tips[j - 1]])]
  }

  /** The distances appended by the first i rounds of the outer loop. */
  function PairDistances(sqrt: real -> real, ps: seq<NormPoint>, tips: seq<nat>, i: nat): seq<real>
    requires NonNegativeRoot(sqrt) && IndexesInto(tips, ps)
    requires i <= |tips|
  {
    if i == 0 then []
    else PairDistances(sqrt, ps, tips, i - 1) + RowDistances(sqrt, ps, tips, i - 1, |tips|)
  }

  lemma {:induction false} RowLength(sqrt: real -> real, ps: seq<NormPoint>, tips: seq<nat>, i: nat, j: nat)
    requires NonNegativeRoot(sqrt) && IndexesInto(tips, ps)
    requires i < j <= |tips|
    ensures |RowDistances(sqrt, ps, tips, i, j)| == j - i - 1
    decreases j
  {
    if j > i + 1 {
      RowLength(sqrt, ps, tips, i, j - 1);
    }
  }

  /** After i outer rounds over n tips, i * (2n - i - 1) / 2 distances have been collected. */
  lemma {:induction false} PairCount(sqrt: real -> real, ps: seq<NormPoint>, tips: seq<nat>, i: nat)
    requires NonNegativeRoot(sqrt) && IndexesInto(tips, ps)
    requires i <= |tips|
    ensures 2 * |PairDistances(sqrt, ps, tips, i)| == i * (2 * |tips| - i - 1)
  {
    if i > 0 {
      var n := |tips|;
      var prev := PairDistances(sqrt, ps, tips, i - 1);
      var row := RowDistances(sqrt, ps, tips, i - 1, n);
      PairCount(sqrt, ps, tips, i - 1);
      RowLength(sqrt, ps, tips, i - 1, n);
      assert |PairDistances(sqrt, ps, tips, i)| == |prev| + |row|;
      assert 2 * |prev| == (i - 1) * (2 * n - i);
      CountStep(i, n);
    }
  }

  lemma CountStep(i: int, n: int)
    ensures (i - 1) * (2 * n - i) + 2 * (n - i) == i * (2 * n - i - 1)
  {
    assert (i - 1) * (2 * n - i) == i * (2 * n - i) - (2 * n - i);
    assert i * (2 * n - i - 1) == i * (2 * n - i) - i;
  }

  /** The nested loops over n tips run n - 1 outer rounds and collect one distance per pair: n(n-1)/2. */
  lemma AllPairsCount(sqrt: real -> real, ps: seq<NormPoint>, tips: seq<nat>)
    requires NonNegativeRoot(sqrt) && IndexesInto(tips, ps) && |tips| > 0
    ensures 2 * |PairDistances(sqrt, ps, tips, |tips| - 1)| == |tips| * (|tips| - 1)
  {
    PairCount(sqrt, ps, tips, |tips| - 1);
  }

  /** The distances `check_is_hand_open` collects for a hand. */
  function TipDistances(sqrt: real -> real, hand: DetectedHand): seq<real>
    requires NonNegativeRoot(sqrt) && HasFingerTips(hand)
  {
    PairDistances(sqrt, NormPoints(hand), FingerTips, |FingerTips| - 1)
  }

  /** The distance between fingertips a and b of a hand. */
  function TipGap(sqrt: real -> real, hand: DetectedHand, a: nat, b: nat): real
    requires NonNegativeRoot(sqrt) && HasFingerTips(hand) && a <= 20 && b <= 20
  {
    Distance(sqrt, hand[a].norm, hand[b].norm)
  }

  /** Exactly the six pairs i < j of the tips [8, 12, 16, 20], in loop order. */
  lemma TipDistancesArePairs(sqrt: real -> real, hand: DetectedHand)
    requires NonNegativeRoot(sqrt) && HasFingerTips(hand)
    ensures TipDistances(sqrt, hand) ==
            [TipGap(sqrt, hand, 8, 12), TipGap(sqrt, hand, 8, 16), TipGap(sqrt, hand, 8, 20),
             TipGap(sqrt, hand, 12, 16), TipGap(sqrt, hand, 12, 20), TipGap(sqrt, hand, 16, 20)]
  {
    var ps := NormPoints(hand);
    var t := FingerTips;
    assert t[0] == 8 && t[1] == 12 && t[2] == 16 && t[3] == 20;
    assert IndexesInto(t, ps);
    assert ps[8] == hand[8].norm && ps[12] == hand[12].norm && ps[16] == hand[16].norm && ps[20] == hand[20].norm;
    assert RowDistances(sqrt, ps, t, 0, 4) ==
           [TipGap(sqrt, hand, 8, 12), TipGap(sqrt, hand, 8, 16), TipGap(sqrt, hand, 8, 20)] by {
      assert RowDistances(sqrt, ps, t, 0, 2) == [TipGap(sqrt, hand, 8, 12)];
      assert RowDistances(sqrt, ps, t, 0, 3) == [TipGap(sqrt, hand, 8, 12), TipGap(sqrt, hand, 8, 16)];
    }
    assert RowDistances(sqrt, ps, t, 1, 4) == [TipGap(sqrt, hand, 12, 16), TipGap(sqrt, hand, 12, 20)] by {
      assert RowDistances(sqrt, ps, t, 1, 3) == [TipGap(sqrt, hand, 12, 16)];
    }
    assert RowDistances(sqrt, ps, t, 2, 4) == [TipGap(sqrt, hand, 16, 20)];
    assert PairDistances(sqrt, ps, t, 1) == RowDistances(sqrt, ps, t, 0, 4);
    assert PairDistances(sqrt, ps, t, 2) == PairDistances(sqrt, ps, t, 1) + RowDistances(sqrt, ps, t, 1, 4);
    assert PairDistances(sqrt, ps, t, 3) == PairDistances(sqrt, ps, t, 2) + RowDistances(sqrt, ps, t, 2, 4);
  }

  lemma TipDistancesCount(sqrt: real -> real, hand: DetectedHand)
    requires NonNegativeRoot(sqrt) && HasFingerTips(hand)
    ensures |TipDistances(sqrt, hand)| == 6
  {
    AllPairsCount(sqrt, NormPoints(hand), FingerTips);
  }

  /** Python's `sum` over a list of floats. */
  function Sum(s: seq<real>): real
  {
    if s == [] then 0.0 else s[0] + Sum(s[1..])
  }

  lemma SumUnfold(s: seq<real>, k: nat)
    requires k < |s|
    ensures Sum(s[k..]) == s[k] + Sum(s[k + 1..])
  {
    assert s[k..][1..] == s[k + 1..];
  }

  /** A sum does not decrease when every term grows. */
  lemma {:induction false} SumMonotone(a: seq<real>, b: seq<real>)
    requires |a| == |b|
    requires forall k :: 0 <= k < |a| ==> a[k] <= b[k]
    ensures Sum(a) <= Sum(b)
  {
    if a != [] {
      SumMonotone(a[1..], b[1..]);
    }
  }

  /** The decision on a list of distances: the average exceeds the threshold. */
  predicate AverageAboveThreshold(distances: seq<real>)
    requires |distances| > 0
  {
    Sum(distances) / |distances| as real > OpenThreshold
  }

  /** The classification `check_is_hand_open` returns for a hand. */
  predicate HandIsOpen(sqrt: real -> real, hand: DetectedHand)
    requires NonNegativeRoot(sqrt) && HasFingerTips(hand)
  {
    TipDistancesCount(sqrt, hand);
    AverageAboveThreshold(TipDistances(sqrt, hand))
  }

  /** Open iff the mean of the six fingertip distances is greater than 0.1. */
  lemma HandIsOpenIff(sqrt: real -> real, hand: DetectedHand)
    requires NonNegativeRoot(sqrt) && HasFingerTips(hand)
    ensures HandIsOpen(sqrt, hand) <==>
            (TipGap(sqrt, hand, 8, 12) + TipGap(sqrt, hand, 8, 16) + TipGap(sqrt, hand, 8, 20) +
             TipGap(sqrt, hand, 12, 16) + TipGap(sqrt, hand, 12, 20) + TipGap(sqrt, hand, 16, 20)) / 6.0 > 0.1
  {
    TipDistancesArePairs(sqrt, hand);
    var d := TipDistances(sqrt, hand);
    SumUnfold(d, 0);
    SumUnfold(d, 1);
    SumUnfold(d, 2);
    SumUnfold(d, 3);
    SumUnfold(d, 4);
    SumUnfold(d, 5);
    assert d[6..] == [];
  }

  /**
   * Spreading the fingers never closes a hand: if no fingertip distance of
   * `wider` is smaller than the matching one of `hand`, and `hand` is open,
   * then so is `wider`.
   */
  lemma OpennessMonotone(sqrt: real -> real, hand: DetectedHand, wider: DetectedHand)
    requires NonNegativeRoot(sqrt) && HasFingerTips(hand) && HasFingerTips(wider)
    requires forall a, b :: a in FingerTips && b in FingerTips ==> TipGap(sqrt, hand, a, b) <= TipGap(sqrt, wider, a, b)
    requires HandIsOpen(sqrt, hand)
    ensures HandIsOpen(sqrt, wider)
  {
    TipDistancesArePairs(sqrt, hand);
    TipDistancesArePairs(sqrt, wider);
    var d, e := TipDistances(sqrt, hand), TipDistances(sqrt, wider);
    SumMonotone(d, e);
  }

  /**
   * `check_is_hand_open`: nested loops over the fingertip pairs append each
   * distance to a list; the hand is open when the list's average exceeds
   * the threshold.
   */
  method CheckIsHandOpen(sqrt: real -> real, hand: DetectedHand) returns (isOpen: bool)
    requires NonNegativeRoot(sqrt) && HasFingerTips(hand)
    ensures isOpen == HandIsOpen(sqrt, hand)
  {
    var landmarks := NormPoints(hand);
    var distances: seq<real> := [];
    var i := 0;
    while i < |FingerTips| - 1
      invariant 0 <= i <= |FingerTips| - 1
      invariant distances == PairDistances(sqrt, landmarks, FingerTips, i)
    {
      var j := i + 1;
      while j < |FingerTips|
        invariant i + 1 <= j <= |FingerTips|
        invariant distances == PairDistances(sqrt, landmarks, FingerTips, i) + RowDistances(sqrt, landmarks, FingerTips, i, j)
      {
        var dist := Distance(sqrt, landmarks[FingerTips[i]], landmarks[FingerTips[j]]);
        distances := distances + [dist];
        j := j + 1;
      }
      i := i + 1;
    }
    TipDistancesCount(sqrt, hand);
    var averageDistance := Sum(distances) / |distances| as real;
    isOpen := averageDistance > OpenThreshold;
  }
}
