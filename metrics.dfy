/** `Run.calc_tpr_fpr` (src/run.py:197-224): the true and false positive rates of the
    current predictions, once for the training slice and once for the test slice of the
    dataset, split at `num_training`. Rates are exact quotients of counts, so they are
    `real` here; the source's zero default is the integer 0, which the index row writes
    as "0" (see Layout.ShowRate). */
module Metrics {

  /** Python's `list.count(v)`. */
  function Count(s: seq<int>, v: int): (n: nat)
    ensures n <= |s|
  {
    if |s| == 0 then 0 else (if s[0] == v then 1 else 0) + Count(s[1..], v)
  }

  /** `[l == a and lp == b for l, lp in zip(y, yp)].count(True)`: the positions, up to the
      shorter of the two lists, where the true label is `a` and the predicted one `b`.
      Such positions are among those where the true label is `a`. */
  function CountMatches(y: seq<int>, yp: seq<int>, a: int, b: int): (n: nat)
    ensures n <= Count(y, a)
    ensures n <= |yp|
  {
    if |y| == 0 || |yp| == 0 then 0
    else (if y[0] == a && yp[0] == b then 1 else 0) + CountMatches(y[1..], yp[1..], a, b)
  }

  /** `r` is the share `hits` of `total`. */
  predicate IsShare(r: real, hits: nat, total: nat) {
    r * total as real == hits as real
  }

  /** `0 if hits == 0 else hits/total`, written only where `hits <= total`, so the
      division never has a zero divisor. */
  function Rate(hits: nat, total: nat): (r: real)
    requires hits <= total
    ensures 0.0 <= r <= 1.0
    ensures r == 0.0 <==> hits == 0
    ensures r == 1.0 <==> hits == total && total > 0
    ensures IsShare(r, hits, total)
  {
    if hits == 0 then 0.0
    else
      var r := hits as real / total as real;
      assert r * total as real == hits as real;
      r
  }

  /** Python's `s[:n]` for `n >= 0`: clamps at the end of the list. */
  function Take(s: seq<int>, n: nat): seq<int> {
    if n <= |s| then s[..n] else s
  }

  /** Python's `s[n:]` for `n >= 0`; together with `Take` it splits `s` in two. */
  function Drop(s: seq<int>, n: nat): (r: seq<int>)
    ensures Take(s, n) + r == s
  {
    if n <= |s| then s[n..] else []
  }

  /** The two rates of one population: [tpr, fpr]. */
  function PopulationRates(y: seq<int>, yp: seq<int>): (r: seq<real>)
    ensures |r| == 2 && 0.0 <= r[0] <= 1.0 && 0.0 <= r[1] <= 1.0
  {
    var numP := Count(y, 1);
    var numN := Count(y, 0);
    var numTp := CountMatches(y, yp, 1, 1);
    var numFp := CountMatches(y, yp, 0, 1);
    [Rate(numTp, numP), Rate(numFp, numN)]
  }

  datatype Population = Train | Test

  /** The true and predicted labels of one population: the first `numTraining` entries
      are the training data, the rest the test data. */
  function Slices(labels: seq<int>, predicted: seq<int>, numTraining: nat, population: Population)
    : (seq<int>, seq<int>)
  {
    match population
    case Train => (Take(labels, numTraining), Take(predicted, numTraining))
    case Test => (Drop(labels, numTraining), Drop(predicted, numTraining))
  }

  function RatesOf(labels: seq<int>, predicted: seq<int>, numTraining: nat, population: Population)
    : seq<real>
  {
    var (y, yp) := Slices(labels, predicted, numTraining, population);
    PopulationRates(y, yp)
  }

  /** `[train_tpr, train_fpr, test_tpr, test_fpr]`. */
  function TprFpr(labels: seq<int>, predicted: seq<int>, numTraining: nat): (stats: seq<real>)
    ensures |stats| == 4
    ensures forall i :: 0 <= i < 4 ==> 0.0 <= stats[i] <= 1.0
  {
    RatesOf(labels, predicted, numTraining, Train) + RatesOf(labels, predicted, numTraining, Test)
  }

  /** The two rates of a population are its fractions: the share of actual positives
      predicted positive, and the share of actual negatives predicted positive, each 0
      exactly when its count of hits is 0, and each in [0, 1]. */
  lemma PopulationRatesMeaning(y: seq<int>, yp: seq<int>)
    ensures var r := PopulationRates(y, yp);
      && |r| == 2
      && IsShare(r[0], CountMatches(y, yp, 1, 1), Count(y, 1))
      && IsShare(r[1], CountMatches(y, yp, 0, 1), Count(y, 0))
      && (r[0] == 0.0 <==> CountMatches(y, yp, 1, 1) == 0)
      && (r[1] == 0.0 <==> CountMatches(y, yp, 0, 1) == 0)
      && (Count(y, 1) == 0 ==> r[0] == 0.0)
      && (Count(y, 0) == 0 ==> r[1] == 0.0)
      && 0.0 <= r[0] <= 1.0 && 0.0 <= r[1] <= 1.0
  {
    var tp, p := CountMatches(y, yp, 1, 1), Count(y, 1);
    var fp, n := CountMatches(y, yp, 0, 1), Count(y, 0);
    var tpr, fpr := Rate(tp, p), Rate(fp, n);
    assert PopulationRates(y, yp) == [tpr, fpr];
  }

  /** The four stats are in the order train_tpr, train_fpr, test_tpr, test_fpr, the
      slices partition the labels and the predictions, and every stat lies in [0, 1]. */
  lemma TprFprLayout(labels: seq<int>, predicted: seq<int>, numTraining: nat)
    ensures |TprFpr(labels, predicted, numTraining)| == 4
    ensures TprFpr(labels, predicted, numTraining)[..2] == RatesOf(labels, predicted, numTraining, Train)
    ensures TprFpr(labels, predicted, numTraining)[2..] == RatesOf(labels, predicted, numTraining, Test)
    ensures Slices(labels, predicted, numTraining, Train).0 + Slices(labels, predicted, numTraining, Test).0 == labels
    ensures Slices(labels, predicted, numTraining, Train).1 + Slices(labels, predicted, numTraining, Test).1 == predicted
    ensures forall k :: 0 <= k < 4 ==> 0.0 <= TprFpr(labels, predicted, numTraining)[k] <= 1.0
  {
    var train := Slices(labels, predicted, numTraining, Train);
    var test := Slices(labels, predicted, numTraining, Test);
    PopulationRatesMeaning(train.0, train.1);
    PopulationRatesMeaning(test.0, test.1);
  }

  /** Half the positives found and half the negatives mistaken: 0.5 and 0.5. */
  lemma HalfAndHalfExample()
    ensures PopulationRates([1, 1, 0, 0], [1, 0, 0, 1]) == [0.5, 0.5]
  {
  }

  /** No positives and no false positives: both rates default to 0. */
  lemma AllNegativeExample()
    ensures PopulationRates([0, 0, 0], [0, 0, 0]) == [0.0, 0.0]
  {
  }

  /** The two-iteration loop of `calc_tpr_fpr`, accumulating `stats`. */
  method CalcTprFpr(labels: seq<int>, predicted: seq<int>, numTraining: nat) returns (stats: seq<real>)
    ensures stats == TprFpr(labels, predicted, numTraining)
    ensures |stats| == 4 && forall k :: 0 <= k < 4 ==> 0.0 <= stats[k] <= 1.0
  {
    var populations := [Train, Test];
    stats := [];
    for i := 0 to |populations|
      invariant stats == if i == 0 then [] else if i == 1 then RatesOf(labels, predicted, numTraining, Train)
                         else TprFpr(labels, predicted, numTraining)
    {
      var y, yp;
      if populations[i] == Train {
        y := Take(labels, numTraining);
        yp := Take(predicted, numTraining);
      } else {
        y := Drop(labels, numTraining);
        yp := Drop(predicted, numTraining);
      }
      var numP := Count(y, 1);
      var numN := Count(y, 0);
      var numTp := CountMatches(y, yp, 1, 1);
      var numFp := CountMatches(y, yp, 0, 1);
      var tpr := if numTp == 0 then 0.0 else numTp as real / numP as real;
      var fpr := if numFp == 0 then 0.0 else numFp as real / numN as real;
      stats := stats + [tpr, fpr];
    }
    TprFprLayout(labels, predicted, numTraining);
  }
}
