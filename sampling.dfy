/** The search space of `Run` (src/run.py:38-45) and `randomize_training_params`
    (src/run.py:71-90). Each random draw is an input here (`Draws`), constrained to
    what Python's `random.choice`, `random.randint` and `random.shuffle` can return;
    what is proved is the shape of the configuration built from any such draws. */
module Sampling {

  const NUM_SAMPLES: nat := 200
  const RANGE_NOISE: seq<int> := [0, 5, 10, 15, 20, 25, 30, 35, 40, 45, 50]
  const PERC_TRAIN_VALUES: seq<int> := [10, 20, 30, 40, 50, 60, 70, 80, 90]
  const MIN_BATCH_SIZE: int := 1
  const MAX_BATCH_SIZE: int := 30
  const LEARNING_RATES: seq<real> :=
    [0.00001, 0.0001, 0.001, 0.003, 0.01, 0.03, 0.1, 0.3, 1.0, 3.0, 10.0]
  const REGULARIZATION_RATES: seq<real> := [0.001, 0.003, 0.01, 0.03, 0.1, 0.3, 1.0, 3.0, 10.0]
  const MIN_HIDDEN: int := 0
  const MAX_HIDDEN: nat := 6
  const MIN_HIDDEN_NEURONS: int := 1
  const MAX_HIDDEN_NEURONS: int := 8

  /** The names and lists that the dataset and network modules define; they are not
      part of this model and are taken as given. */
  datatype Catalog = Catalog(
    dataNames: seq<string>,           // DataSet.all_data_names
    numFeatures: nat,                 // DataSet.NUM_FEATURES
    featureNames: seq<string>,        // DataSet.feature_idx_to_name
    allFeatures: seq<int>,            // DataSet.all_features
    activationNames: seq<string>,     // Classifier.activations_names
    regularizationNames: seq<string>) // Classifier.regularization_names

  /** The dataset a run trains on. Generating the points is not part of this model: what
      the driver reads from a dataset is its name, its noise level and its true labels. */
  datatype DataSet = DataSet(datasetName: string, noise: int, labels: seq<int>)

  /** What `randomize_data` can produce (src/run.py:59-69): a known dataset name, a noise
      level drawn from `range_noise`, and `num_samples` points. */
  predicate RandomData(data: DataSet, cat: Catalog) {
    && data.datasetName in cat.dataNames
    && data.noise in RANGE_NOISE
    && |data.labels| == NUM_SAMPLES
  }

  /** One value of every random draw `randomize_training_params` makes, in order. */
  datatype Draws = Draws(
    percTrainIndex: nat,          // random.choice(perc_train_values)
    batchSize: int,               // random.randint(1, 30)
    learningRateIndex: nat,       // random.choice(learning_rates)
    neurons: seq<int>,            // randint(0, 6) layers, each randint(1, 8) neurons
    activationIndex: nat,         // random.choice(Classifier.activations_names)
    regularizationIndex: nat,     // random.choice(Classifier.regularization_names)
    regularizationRateIndex: nat, // random.choice(regularization_rates)
    shuffledFeatures: seq<int>,   // random.shuffle(list(range(NUM_FEATURES)))
    prefixLength: int)            // random.randint(1, NUM_FEATURES)

  /** The configuration `randomize_training_params` stores in the classifier. */
  datatype TrainingParams = TrainingParams(
    percTrain: int,
    batchSize: int,
    learningRate: real,
    neuronsPerLayer: seq<int>,
    activation: string,
    regularizationType: string,
    regularizationRate: real,
    featuresIds: seq<int>)

  predicate Distinct(s: seq<int>) {
    forall i, j :: 0 <= i < j < |s| ==> s[i] != s[j]
  }

  predicate StrictlyAscending(s: seq<int>) {
    forall i, j :: 0 <= i < j < |s| ==> s[i] < s[j]
  }

  predicate InRange(s: seq<int>, lo: int, hi: int) {
    forall i :: 0 <= i < |s| ==> lo <= s[i] < hi
  }

  /** What `random.shuffle` can make of `list(range(n))`: every id below `n` once. */
  predicate IsPermutationOfRange(s: seq<int>, n: nat) {
    |s| == n && InRange(s, 0, n) && Distinct(s)
  }

  /** The draws Python's random module can produce for this search space. */
  predicate ValidDraws(d: Draws, cat: Catalog) {
    && d.percTrainIndex < |PERC_TRAIN_VALUES|
    && MIN_BATCH_SIZE <= d.batchSize <= MAX_BATCH_SIZE
    && d.learningRateIndex < |LEARNING_RATES|
    && MIN_HIDDEN <= |d.neurons| <= MAX_HIDDEN
    && (forall i :: 0 <= i < |d.neurons| ==> MIN_HIDDEN_NEURONS <= d.neurons[i] <= MAX_HIDDEN_NEURONS)
    && d.activationIndex < |cat.activationNames|
    && d.regularizationIndex < |cat.regularizationNames|
    && d.regularizationRateIndex < |REGULARIZATION_RATES|
    && IsPermutationOfRange(d.shuffledFeatures, cat.numFeatures)
    && 1 <= d.prefixLength <= |d.shuffledFeatures|
  }

  /** The configurations the sampler promises: every field in its domain, at most six
      hidden layers of one to eight neurons, and a non-empty, strictly ascending subset
      of the feature ids. */
  predicate WellShaped(p: TrainingParams, cat: Catalog) {
    && p.percTrain in PERC_TRAIN_VALUES
    && MIN_BATCH_SIZE <= p.batchSize <= MAX_BATCH_SIZE
    && p.learningRate in LEARNING_RATES
    && MIN_HIDDEN <= |p.neuronsPerLayer| <= MAX_HIDDEN
    && (forall i :: 0 <= i < |p.neuronsPerLayer| ==>
          MIN_HIDDEN_NEURONS <= p.neuronsPerLayer[i] <= MAX_HIDDEN_NEURONS)
    && p.activation in cat.activationNames
    && p.regularizationType in cat.regularizationNames
    && p.regularizationRate in REGULARIZATION_RATES
    && |p.featuresIds| >= 1
    && StrictlyAscending(p.featuresIds)
    && InRange(p.featuresIds, 0, cat.numFeatures)
  }

  /** The ids of `ids` in [lo, hi), in ascending order. On a duplicate-free list of ids
      in that range this is what `list.sort()` leaves (see SortedIsPermutation). */
  function AscendingMembers(ids: seq<int>, lo: int, hi: int): (r: seq<int>)
    decreases hi - lo
    ensures StrictlyAscending(r) && InRange(r, lo, hi)
    ensures forall x :: x in r <==> x in ids && lo <= x < hi
  {
    if lo >= hi then []
    else
      var rest := AscendingMembers(ids, lo + 1, hi);
      assert InRange(rest, lo + 1, hi);
      (if lo in ids then [lo] else []) + rest
  }

  /** `feature_ids.sort()` on the chosen prefix. */
  function SortFeatureIds(ids: seq<int>, numFeatures: nat): (sorted: seq<int>)
    ensures StrictlyAscending(sorted) && InRange(sorted, 0, numFeatures)
    ensures forall x :: x in sorted <==> x in ids && 0 <= x < numFeatures
  {
    AscendingMembers(ids, 0, numFeatures)
  }

  /** The configuration built from the draws, field by field as
      `randomize_training_params` assigns them. */
  function SampledParams(d: Draws, cat: Catalog): (p: TrainingParams)
    requires ValidDraws(d, cat)
  {
    TrainingParams(
      PERC_TRAIN_VALUES[d.percTrainIndex],
      d.batchSize,
      LEARNING_RATES[d.learningRateIndex],
      d.neurons,
      cat.activationNames[d.activationIndex],
      cat.regularizationNames[d.regularizationIndex],
      REGULARIZATION_RATES[d.regularizationRateIndex],
      SortFeatureIds(d.shuffledFeatures[..d.prefixLength], cat.numFeatures))
  }

  lemma {:induction false} MembersDependOnMembership(a: seq<int>, b: seq<int>, lo: int, hi: int)
    requires forall x :: lo <= x < hi ==> (x in a <==> x in b)
    ensures AscendingMembers(a, lo, hi) == AscendingMembers(b, lo, hi)
    decreases hi - lo
  {
    if lo < hi {
      MembersDependOnMembership(a, b, lo + 1, hi);
    }
  }

  lemma {:induction false} MembersOfNothing(ids: seq<int>, lo: int, hi: int)
    requires ids == []
    ensures AscendingMembers(ids, lo, hi) == []
    decreases hi - lo
  {
    if lo < hi {
      MembersOfNothing(ids, lo + 1, hi);
    }
  }

  /** The elements of `ids` without position `k`, in order. */
  lemma WithoutAt(ids: seq<int>, k: nat)
    requires k < |ids|
    ensures var rest := ids[..k] + ids[k + 1..];
      && |rest| == |ids| - 1
      && forall i :: 0 <= i < |rest| ==> rest[i] == (if i < k then ids[i] else ids[i + 1])
  {
  }

  lemma SplitMultiset(ids: seq<int>, k: nat)
    requires k < |ids|
    ensures multiset(ids) == multiset(ids[..k] + ids[k + 1..]) + multiset{ids[k]}
  {
    assert ids == ids[..k] + [ids[k]] + ids[k + 1..];
  }

  /** Taking the id `lo` out of duplicate-free ids in [lo, hi) leaves duplicate-free ids
      in [lo + 1, hi), the same ones except `lo`. */
  lemma RemoveLowest(ids: seq<int>, k: nat, lo: int, hi: int)
    requires Distinct(ids) && InRange(ids, lo, hi)
    requires k < |ids| && ids[k] == lo
    ensures var rest := ids[..k] + ids[k + 1..];
      && Distinct(rest) && InRange(rest, lo + 1, hi)
      && multiset(ids) == multiset(rest) + multiset{lo}
      && forall x :: lo + 1 <= x < hi ==> (x in ids <==> x in rest)
  {
    var rest := ids[..k] + ids[k + 1..];
    WithoutAt(ids, k);
    assert Distinct(rest) by {
      forall i, j | 0 <= i < j < |rest| ensures rest[i] != rest[j] {
        var i' := if i < k then i else i + 1;
        var j' := if j < k then j else j + 1;
        assert rest[i] == ids[i'] && rest[j] == ids[j'] && i' < j';
      }
    }
    assert InRange(rest, lo + 1, hi) by {
      forall i | 0 <= i < |rest| ensures lo + 1 <= rest[i] < hi {
        var i' := if i < k then i else i + 1;
        assert rest[i] == ids[i'] && i' != k;
      }
    }
    SplitMultiset(ids, k);
    forall x | lo + 1 <= x < hi && x in ids ensures x in rest {
      var j :| 0 <= j < |ids| && ids[j] == x;
      if j < k {
        assert rest[j] == x;
      } else {
        assert rest[j - 1] == x;
      }
    }
  }

  /** On duplicate-free ids in [lo, hi), the ascending enumeration is a permutation of
      the ids: together with its strict ascent, it is the sorted list. */
  lemma {:induction false} SortedIsPermutation(ids: seq<int>, lo: int, hi: int)
    requires Distinct(ids) && InRange(ids, lo, hi)
    ensures multiset(AscendingMembers(ids, lo, hi)) == multiset(ids)
    decreases hi - lo
  {
    if |ids| == 0 {
      MembersOfNothing(ids, lo, hi);
    } else if lo in ids {
      var k :| 0 <= k < |ids| && ids[k] == lo;
      var rest := ids[..k] + ids[k + 1..];
      RemoveLowest(ids, k, lo, hi);
      MembersDependOnMembership(ids, rest, lo + 1, hi);
      SortedIsPermutation(rest, lo + 1, hi);
    } else {
      assert lo <= ids[0] < hi;
      assert InRange(ids, lo + 1, hi);
      SortedIsPermutation(ids, lo + 1, hi);
    }
  }

  /** Every configuration built from valid draws is well shaped. */
  lemma SampledParamsWellShaped(d: Draws, cat: Catalog)
    requires ValidDraws(d, cat)
    ensures WellShaped(SampledParams(d, cat), cat)
  {
    var prefix := d.shuffledFeatures[..d.prefixLength];
    var ids := SortFeatureIds(prefix, cat.numFeatures);
    assert prefix[0] in ids;
  }

  /** The chosen features are the first `prefixLength` shuffled ids, sorted: the same ids,
      each once. */
  lemma SampledFeaturesPermutePrefix(d: Draws, cat: Catalog)
    requires ValidDraws(d, cat)
    ensures multiset(SampledParams(d, cat).featuresIds) == multiset(d.shuffledFeatures[..d.prefixLength])
    ensures |SampledParams(d, cat).featuresIds| == d.prefixLength
  {
    var prefix := d.shuffledFeatures[..d.prefixLength];
    assert Distinct(prefix) && InRange(prefix, 0, cat.numFeatures);
    SortedIsPermutation(prefix, 0, cat.numFeatures);
    assert |multiset(SampledParams(d, cat).featuresIds)| == |multiset(prefix)|;
  }
}
