/**
 * `MetricAccumulator`: the per-epoch loss and accuracy series of a training run
 * (training and testing data, loss and accuracy) and, beside each, the series of
 * its trailing-window gradients, recorded for logging.
 */
module Metrics {
  import opened Wrappers
  import opened Sequences

  /** The exceptions the gradient helpers raise on an empty window. */
  datatype MetricError =
    | IndexError         // `data[-1]` of an empty window in `metric_gradient`
    | ZeroDivisionError  // `sum(data) / len(data)` of an empty window in `avg_gradient`

  function Min(a: int, b: int): int
  {
    if a <= b then a else b
  }

  /**
   * Where Python's slice `x[-batch:]` starts in a list of length `len`: the last
   * `batch` elements for a positive `batch` (the whole list when it is shorter),
   * the whole list for `batch == 0` (`x[-0:]` is `x[0:]`), and everything after the
   * first `-batch` elements for a negative `batch`.
   */
  function WindowStart(len: nat, batch: int): (s: nat)
    ensures s <= len
    ensures batch >= 1 ==> len - s == Min(batch, len)
    ensures batch == 0 ==> s == 0
    ensures batch < 0 ==> s == Min(-batch, len)
  {
    var start := -batch;
    if start < 0 then (if len + start < 0 then 0 else len + start)
    else if start > len then len
    else start
  }

  /** `x[-batch:]`. */
  function TrailingWindow(x: seq<real>, batch: int): (w: seq<real>)
    ensures |w| <= |x| && w == x[|x| - |w|..]
    ensures batch >= 1 ==> |w| == Min(batch, |x|)
    ensures batch >= 0 ==> (w == [] <==> x == [])
  {
    x[WindowStart(|x|, batch)..]
  }

  /** Whether the window of a series of length `len` is non-empty, so that both helpers return. */
  predicate GradientDefined(len: nat, batch: int)
  {
    WindowStart(len, batch) < len
  }

  /** `metric_gradient`: the change across the trailing window divided by its length. */
  function MetricGradient(x: seq<real>, batch: int): (r: Result<real, MetricError>)
    ensures r.Ok? <==> GradientDefined(|x|, batch)
    ensures batch >= 0 ==> (r.Ok? <==> x != [])
    ensures r.Err? ==> r.error == IndexError
  {
    var data := TrailingWindow(x, batch);
    if data == [] then Err(IndexError)
    else Ok((data[|data| - 1] - data[0]) / |data| as real)
  }

  /** A one-element window has gradient 0; otherwise the gradient is the last element minus the window's first, over the window length. */
  lemma MetricGradientValue(x: seq<real>, batch: int)
    requires GradientDefined(|x|, batch)
    ensures var s := WindowStart(|x|, batch);
      MetricGradient(x, batch) == Ok((x[|x| - 1] - x[s]) / (|x| - s) as real)
    ensures |x| - WindowStart(|x|, batch) == 1 ==> MetricGradient(x, batch) == Ok(0.0)
  {
    var s := WindowStart(|x|, batch);
    var data := TrailingWindow(x, batch);
    assert data == x[s..];
    assert data[|data| - 1] == x[|x| - 1] && data[0] == x[s];
  }

  /** A series that never decreases has a non-negative gradient; one that never increases a non-positive one. */
  lemma MetricGradientSign(x: seq<real>, batch: int)
    requires GradientDefined(|x|, batch)
    ensures (forall i, j :: 0 <= i <= j < |x| ==> x[i] <= x[j]) ==> MetricGradient(x, batch).value >= 0.0
    ensures (forall i, j :: 0 <= i <= j < |x| ==> x[i] >= x[j]) ==> MetricGradient(x, batch).value <= 0.0
  {
  }

  /** `avg_gradient`: the mean of the trailing window. */
  function AvgGradient(x: seq<real>, batch: int): (r: Result<real, MetricError>)
    ensures r.Ok? <==> GradientDefined(|x|, batch)
    ensures batch >= 0 ==> (r.Ok? <==> x != [])
    ensures r.Err? ==> r.error == ZeroDivisionError
  {
    var data := TrailingWindow(x, batch);
    if |data| == 0 then Err(ZeroDivisionError)
    else Ok(Sum(data) / |data| as real)
  }

  /** The mean of a window whose values all lie in `[lo, hi]` lies in `[lo, hi]`. */
  lemma AvgGradientBounds(x: seq<real>, batch: int, lo: real, hi: real)
    requires GradientDefined(|x|, batch)
    requires forall i :: WindowStart(|x|, batch) <= i < |x| ==> lo <= x[i] <= hi
    ensures lo <= AvgGradient(x, batch).value <= hi
  {
    var data := TrailingWindow(x, batch);
    var n := |data| as real;
    SumBounds(data, lo, hi);
    var q := Sum(data) / n;
    assert q * n == Sum(data);
    assert AvgGradient(x, batch).value == q;
  }

  /** `max(0, epoch - gradient_batch)`: the first epoch of the logged window, never negative. */
  function LastEpoch(epoch: int, batch: int): (e: int)
    ensures e >= 0 && e >= epoch - batch
    ensures e == 0 || e == epoch - batch
  {
    if epoch - batch > 0 then epoch - batch else 0
  }

  /** What `log_gradients` reports: the four mean gradients and the epoch range they cover. */
  datatype GradientReport = GradientReport(averages: seq<real>, epoch: int, lastEpoch: int)

  /** `gradients[k]` is the gradient of the series up to and including entry `k`. */
  ghost predicate GradientsOf(values: seq<real>, gradients: seq<real>, batch: int)
  {
    && |gradients| == |values|
    && forall k :: 0 <= k < |gradients| ==> MetricGradient(values[..k + 1], batch) == Ok(gradients[k])
  }

  /** Appending a value and the gradient of the extended series keeps the two series in step. */
  lemma GradientsOfAppend(values: seq<real>, gradients: seq<real>, batch: int, x: real)
    requires GradientsOf(values, gradients, batch)
    requires GradientDefined(|values| + 1, batch)
    ensures GradientsOf(values + [x], gradients + [MetricGradient(values + [x], batch).value], batch)
  {
    var values', gradients' := values + [x], gradients + [MetricGradient(values + [x], batch).value];
    forall k | 0 <= k < |gradients'|
      ensures MetricGradient(values'[..k + 1], batch) == Ok(gradients'[k])
    {
      if k < |gradients| {
        assert values'[..k + 1] == values[..k + 1];
      } else {
        assert values'[..k + 1] == values';
      }
    }
  }

  /** The `k`-th entry of an epoch's results, as a list of at most one element (none when the results are too short). */
  function Entry(results: seq<real>, k: nat): (e: seq<real>)
    ensures |e| <= 1
    ensures k < |results| ==> e == [results[k]]
    ensures k >= |results| ==> e == []
  {
    if k < |results| then [results[k]] else []
  }

  class MetricAccumulator {
    var trainingLoss: seq<real>
    var trainingAcc: seq<real>
    var testingLoss: seq<real>
    var testingAcc: seq<real>
    var trainingLossGrads: seq<real>
    var trainingAccGrads: seq<real>
    var testingLossGrads: seq<real>
    var testingAccGrads: seq<real>
    const gradientBatch: int

    /** The four value series have one entry per epoch, and each gradient series follows its value series. */
    ghost predicate Valid()
      reads this
    {
      && |trainingAcc| == |trainingLoss|
      && |testingLoss| == |trainingLoss|
      && |testingAcc| == |trainingLoss|
      && GradientsOf(trainingLoss, trainingLossGrads, gradientBatch)
      && GradientsOf(trainingAcc, trainingAccGrads, gradientBatch)
      && GradientsOf(testingLoss, testingLossGrads, gradientBatch)
      && GradientsOf(testingAcc, testingAccGrads, gradientBatch)
    }

    /** The number of epochs recorded. */
    function Epochs(): nat
      reads this
    {
      |trainingLoss|
    }

    constructor (gradientBatch: int := 10)
      ensures Valid() && this.gradientBatch == gradientBatch && Epochs() == 0
      ensures trainingLoss == trainingAcc == testingLoss == testingAcc == []
      ensures trainingLossGrads == trainingAccGrads == testingLossGrads == testingAccGrads == []
    {
      trainingLoss, trainingAcc, testingLoss, testingAcc := [], [], [], [];
      trainingLossGrads, trainingAccGrads, testingLossGrads, testingAccGrads := [], [], [], [];
      this.gradientBatch := gradientBatch;
    }

    /**
     * `_all_grads`: appends the gradient of each value series to its gradient series.
     * The four value series have equal lengths, so the four gradients either all
     * exist or the first one already fails and nothing is appended.
     */
    method AppendGradients() returns (ok: bool)
      requires |trainingAcc| == |trainingLoss| && |testingLoss| == |trainingLoss| && |testingAcc| == |trainingLoss|
      modifies this`trainingLossGrads, this`trainingAccGrads, this`testingLossGrads, this`testingAccGrads
      ensures ok <==> GradientDefined(|trainingLoss|, gradientBatch)
      ensures ok ==> trainingLossGrads == old(trainingLossGrads) + [MetricGradient(trainingLoss, gradientBatch).value]
      ensures ok ==> trainingAccGrads == old(trainingAccGrads) + [MetricGradient(trainingAcc, gradientBatch).value]
      ensures ok ==> testingLossGrads == old(testingLossGrads) + [MetricGradient(testingLoss, gradientBatch).value]
      ensures ok ==> testingAccGrads == old(testingAccGrads) + [MetricGradient(testingAcc, gradientBatch).value]
      ensures !ok ==> unchanged(this)
    {
      var g := MetricGradient(trainingLoss, gradientBatch);
      if g.Err? {
        return false;
      }
      trainingLossGrads := trainingLossGrads + [g.value];
      g := MetricGradient(trainingAcc, gradientBatch);
      trainingAccGrads := trainingAccGrads + [g.value];
      g := MetricGradient(testingLoss, gradientBatch);
      testingLossGrads := testingLossGrads + [g.value];
      g := MetricGradient(testingAcc, gradientBatch);
      testingAccGrads := testingAccGrads + [g.value];
      ok := true;
    }

    /**
     * `add`: appends results[0..3] to the training loss, training accuracy, testing loss
     * and testing accuracy series, then their gradients. Results shorter than four
     * entries raise IndexError after the entries before the missing one were appended.
     */
    method Add(results: seq<real>) returns (ok: bool)
      requires Valid()
      modifies this
      ensures trainingLoss == old(trainingLoss) + Entry(results, 0)
      ensures trainingAcc == old(trainingAcc) + Entry(results, 1)
      ensures testingLoss == old(testingLoss) + Entry(results, 2)
      ensures testingAcc == old(testingAcc) + Entry(results, 3)
      ensures ok <==> |results| >= 4 && GradientDefined(old(Epochs()) + 1, gradientBatch)
      ensures gradientBatch >= 0 && |results| >= 4 ==> ok
      ensures ok ==> Valid() && Epochs() == old(Epochs()) + 1
      ensures ok ==> trainingLossGrads == old(trainingLossGrads) + [MetricGradient(trainingLoss, gradientBatch).value]
      ensures ok ==> trainingAccGrads == old(trainingAccGrads) + [MetricGradient(trainingAcc, gradientBatch).value]
      ensures ok ==> testingLossGrads == old(testingLossGrads) + [MetricGradient(testingLoss, gradientBatch).value]
      ensures ok ==> testingAccGrads == old(testingAccGrads) + [MetricGradient(testingAcc, gradientBatch).value]
      ensures !ok ==> trainingLossGrads == old(trainingLossGrads) && trainingAccGrads == old(trainingAccGrads)
      ensures !ok ==> testingLossGrads == old(testingLossGrads) && testingAccGrads == old(testingAccGrads)
    {
      if |results| < 1 {
        return false;
      }
      trainingLoss := trainingLoss + [results[0]];
      if |results| < 2 {
        return false;
      }
      trainingAcc := trainingAcc + [results[1]];
      if |results| < 3 {
        return false;
      }
      testingLoss := testingLoss + [results[2]];
      if |results| < 4 {
        return false;
      }
      testingAcc := testingAcc + [results[3]];
      ok := AppendGradients();
      if ok {
        GradientsOfAppend(old(trainingLoss), old(trainingLossGrads), gradientBatch, results[0]);
        GradientsOfAppend(old(trainingAcc), old(trainingAccGrads), gradientBatch, results[1]);
        GradientsOfAppend(old(testingLoss), old(testingLossGrads), gradientBatch, results[2]);
        GradientsOfAppend(old(testingAcc), old(testingAccGrads), gradientBatch, results[3]);
      }
    }

    /**
     * The values `log_gradients` writes to the log: the mean of the trailing window of
     * each gradient series and the epoch the window starts at. The logging itself is
     * not modelled.
     */
    function LogGradients(epoch: int): (r: Result<GradientReport, MetricError>)
      reads this
      ensures r.Ok? <==>
        (&& GradientDefined(|trainingLossGrads|, gradientBatch) && GradientDefined(|trainingAccGrads|, gradientBatch)
         && GradientDefined(|testingLossGrads|, gradientBatch) && GradientDefined(|testingAccGrads|, gradientBatch))
      ensures r.Err? ==> r.error == ZeroDivisionError
      ensures r.Ok? ==> |r.value.averages| == 4 && r.value.epoch == epoch
      ensures r.Ok? ==> r.value.lastEpoch >= 0 && r.value.lastEpoch >= epoch - gradientBatch
      ensures r.Ok? ==> r.value.lastEpoch == LastEpoch(epoch, gradientBatch)
      ensures r.Ok? ==>
        (r.value.averages ==
          [ AvgGradient(trainingLossGrads, gradientBatch).value, AvgGradient(trainingAccGrads, gradientBatch).value
          , AvgGradient(testingLossGrads, gradientBatch).value, AvgGradient(testingAccGrads, gradientBatch).value ])
    {
      var a0 := AvgGradient(trainingLossGrads, gradientBatch);
      var a1 := AvgGradient(trainingAccGrads, gradientBatch);
      var a2 := AvgGradient(testingLossGrads, gradientBatch);
      var a3 := AvgGradient(testingAccGrads, gradientBatch);
      if a0.Err? then Err(a0.error)
      else if a1.Err? then Err(a1.error)
      else if a2.Err? then Err(a2.error)
      else if a3.Err? then Err(a3.error)
      else Ok(GradientReport([a0.value, a1.value, a2.value, a3.value], epoch, LastEpoch(epoch, gradientBatch)))
    }

    /** With a non-negative window size, a valid accumulator can report once one epoch is recorded. */
    lemma LogGradientsDefined(epoch: int)
      requires Valid() && gradientBatch >= 0
      ensures LogGradients(epoch).Ok? <==> Epochs() > 0
    {
    }
  }
}
