/** The checkpoint schedule of `execute_runs` (src/run.py:304-311, 348). At each of the
    fixed epochs the run has taken `epoch * num_samples / batch_size` steps in all, and
    the trainer is asked for the difference from the previous checkpoint.
    Python computes `int(epoch * n / batch_size)` with a float quotient; for these
    non-negative magnitudes (a quotient whose fractional part is at least 1/30 away
    from the next integer) that equals floor division, which is what `/` is here. */
module Schedule {

  const EPOCHS: seq<nat> := [25, 50, 100, 200, 400]

  /** The cumulative step count a run has reached at `epoch`. */
  function StepTarget(epoch: nat, numSamples: nat, batchSize: nat): nat
    requires batchSize >= 1
  {
    epoch * numSamples / batchSize
  }

  /** The cumulative step count at every epoch of the schedule. */
  function StepTargets(numSamples: nat, batchSize: nat): (targets: seq<nat>)
    requires batchSize >= 1
    ensures |targets| == |EPOCHS|
    ensures forall i :: 0 <= i < |EPOCHS| ==> targets[i] * batchSize <= EPOCHS[i] * numSamples
  {
    seq(|EPOCHS|, i requires 0 <= i < |EPOCHS| => StepTarget(EPOCHS[i], numSamples, batchSize))
  }

  /** The `num_steps` handed to the trainer: each target minus the one before it,
      starting from `prev`. */
  function Deltas(targets: seq<int>, prev: int): seq<int> {
    if |targets| == 0 then [] else [targets[0] - prev] + Deltas(targets[1..], targets[0])
  }

  /** What one run's trainer is asked for, checkpoint by checkpoint (`prev_step` starts at 0). */
  function StepDeltas(numSamples: nat, batchSize: nat): seq<int>
    requires batchSize >= 1
  {
    Deltas(StepTargets(numSamples, batchSize), 0)
  }

  function Sum(s: seq<int>): int {
    if |s| == 0 then 0 else s[0] + Sum(s[1..])
  }

  predicate NonDecreasing(s: seq<int>) {
    forall i, j :: 0 <= i <= j < |s| ==> s[i] <= s[j]
  }

  lemma MulCancel(a: int, b: int, d: int)
    requires d >= 1 && a * d < b * d
    ensures a < b
  {
  }

  lemma DivMonotone(x: nat, y: nat, d: nat)
    requires x <= y && d >= 1
    ensures x / d <= y / d
  {
    var qx, qy := x / d, y / d;
    assert qx * d <= x;
    assert y < (qy + 1) * d;
    MulCancel(qx, qy + 1, d);
  }

  /** Later epochs never have fewer steps. */
  lemma {:induction false} StepTargetsNonDecreasing(numSamples: nat, batchSize: nat)
    requires batchSize >= 1
    ensures NonDecreasing(StepTargets(numSamples, batchSize))
  {
    var ts := StepTargets(numSamples, batchSize);
    forall i, j | 0 <= i <= j < |ts| ensures ts[i] <= ts[j] {
      assert EPOCHS[i] <= EPOCHS[j];
      assert EPOCHS[i] * numSamples <= EPOCHS[j] * numSamples;
      DivMonotone(EPOCHS[i] * numSamples, EPOCHS[j] * numSamples, batchSize);
    }
  }

  /** The k-th delta is the k-th target minus its predecessor (or `prev` for the first). */
  lemma {:induction false} DeltasAt(targets: seq<int>, prev: int, k: nat)
    requires k < |targets|
    ensures |Deltas(targets, prev)| == |targets|
    ensures Deltas(targets, prev)[k] == targets[k] - (if k == 0 then prev else targets[k - 1])
  {
    if k > 0 {
      DeltasAt(targets[1..], targets[0], k - 1);
    } else if |targets| > 1 {
      DeltasAt(targets[1..], targets[0], 0);
    }
  }

  /** The deltas add up to the last target: no step is lost or taken twice. */
  lemma {:induction false} DeltasTelescope(targets: seq<int>, prev: int)
    requires |targets| >= 1
    ensures Sum(Deltas(targets, prev)) == targets[|targets| - 1] - prev
  {
    if |targets| > 1 {
      DeltasTelescope(targets[1..], targets[0]);
    }
  }

  lemma DeltasNonNegative(targets: seq<int>, prev: int)
    requires NonDecreasing(targets) && (|targets| > 0 ==> prev <= targets[0])
    ensures forall k :: 0 <= k < |Deltas(targets, prev)| ==> Deltas(targets, prev)[k] >= 0
  {
    forall k | 0 <= k < |Deltas(targets, prev)| ensures Deltas(targets, prev)[k] >= 0 {
      DeltasLength(targets, prev);
      DeltasAt(targets, prev, k);
    }
  }

  lemma {:induction false} DeltasLength(targets: seq<int>, prev: int)
    ensures |Deltas(targets, prev)| == |targets|
  {
    if |targets| > 0 {
      DeltasLength(targets[1..], targets[0]);
    }
  }

  /** Every `num_steps` given to the trainer is at least 0, there is one per epoch, and
      together they are exactly the step count of the last epoch, `400 * n / batch_size`. */
  lemma StepDeltasAddUp(numSamples: nat, batchSize: nat)
    requires batchSize >= 1
    ensures |StepDeltas(numSamples, batchSize)| == |EPOCHS|
    ensures forall k :: 0 <= k < |EPOCHS| ==> StepDeltas(numSamples, batchSize)[k] >= 0
    ensures Sum(StepDeltas(numSamples, batchSize)) == 400 * numSamples / batchSize
  {
    var ts := StepTargets(numSamples, batchSize);
    StepTargetsNonDecreasing(numSamples, batchSize);
    DeltasLength(ts, 0);
    DeltasNonNegative(ts, 0);
    DeltasTelescope(ts, 0);
  }

  /** 200 samples in batches of 25. */
  lemma ScheduleExample()
    ensures StepTargets(200, 25) == [200, 400, 800, 1600, 3200]
    ensures StepDeltas(200, 25) == [200, 200, 400, 800, 1600]
  {
    var ts := StepTargets(200, 25);
    assert ts == [200, 400, 800, 1600, 3200];
  }
}
