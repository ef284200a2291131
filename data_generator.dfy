/**
 * `DataGenerator`: serves training samples (feature vector, label and optional second
 * label) one at a time from parallel sequences, through a cursor that wraps around
 * after the last sample when auto-reset is on, and reorders all sequences together
 * when shuffled.
 */
module Generator {
  import opened Wrappers
  import opened Sequences

  /** The exceptions the generator raises. */
  datatype GeneratorError =
    | LengthMismatch         // AssertionError: "Features and labels are of different length"
    | EmptyLabels            // min() of an empty label tensor
    | Labels2LengthMismatch  // AssertionError: "labels_2 and labels are of different length"
    | IndexOutOfRange        // IndexError: a sample past the end, without auto-reset

  /** The constant extra input every feature vector gets when the global node is on. */
  const GlobalNodeValue: real := 0.5

  /** One feature vector as `_parse_features` stores it (the column shape is not modelled). */
  function ParsedFeature(f: seq<real>, globalNode: bool): (g: seq<real>)
    ensures globalNode ==> |g| == |f| + 1 && g[..|f|] == f && g[|f|] == GlobalNodeValue
    ensures !globalNode ==> g == f
  {
    if globalNode then f + [GlobalNodeValue] else f
  }

  /** `_parse_features`: fills a list of the same length with the parsed feature vectors. */
  method ParseFeatures(features: seq<seq<real>>, globalNode: bool) returns (parsed: seq<seq<real>>)
    ensures |parsed| == |features|
    ensures forall i :: 0 <= i < |features| ==> parsed[i] == ParsedFeature(features[i], globalNode)
  {
    var l := new seq<real>[|features|];
    for i := 0 to |features|
      invariant forall k :: 0 <= k < i ==> l[k] == ParsedFeature(features[k], globalNode)
    {
      if globalNode {
        l[i] := features[i] + [GlobalNodeValue];
      } else {
        l[i] := features[i];
      }
    }
    parsed := l[..];
  }

  function Abs(x: real): real
  {
    if x < 0.0 then -x else x
  }

  /** `min(abs(labels))`: the smallest magnitude among the labels. */
  function MinAbs(labels: seq<real>): (m: real)
    requires |labels| > 0
    ensures m >= 0.0
    ensures exists k :: 0 <= k < |labels| && m == Abs(labels[k])
    ensures forall k :: 0 <= k < |labels| ==> m <= Abs(labels[k])
  {
    if |labels| == 1 then Abs(labels[0])
    else
      var m := MinAbs(labels[..|labels| - 1]);
      var a := Abs(labels[|labels| - 1]);
      if a < m then a else m
  }

  /** `labels + min(abs(labels))`: every label moved up by the same offset. */
  function ShiftLabels(labels: seq<real>): (r: seq<real>)
    requires |labels| > 0
    ensures |r| == |labels|
    ensures forall i :: 0 <= i < |labels| ==> r[i] == labels[i] + MinAbs(labels)
  {
    seq(|labels|, i requires 0 <= i < |labels| => labels[i] + MinAbs(labels))
  }

  /**
   * The offset is the same for all labels, is the magnitude of one of them and is never
   * negative, so no label moves down and the order of the labels is kept.
   */
  lemma ShiftLabelsOffset(labels: seq<real>, i: nat, j: nat)
    requires i < |labels| && j < |labels|
    ensures ShiftLabels(labels)[i] - labels[i] == ShiftLabels(labels)[j] - labels[j]
    ensures ShiftLabels(labels)[i] >= labels[i]
    ensures labels[i] <= labels[j] <==> ShiftLabels(labels)[i] <= ShiftLabels(labels)[j]
    ensures exists k :: 0 <= k < |labels| && ShiftLabels(labels)[i] - labels[i] == Abs(labels[k])
  {
  }

  /** A label of magnitude zero (a log2 MIC of 1 mg/L) means no shift at all. */
  lemma ZeroLabelMeansNoShift(labels: seq<real>, k: nat)
    requires k < |labels| && labels[k] == 0.0
    ensures ShiftLabels(labels) == labels
  {
  }

  /** The shift does not make every label positive: `[-2, 1]` becomes `[-1, 2]`. */
  lemma ShiftMayLeaveNegativeLabels()
    ensures ShiftLabels([-2.0, 1.0]) == [-1.0, 2.0]
  {
  }

  /** The cursor after one `next_sample`: one step on, back to 0 after the last sample with auto-reset. */
  function NextCursor(n: nat, nSamples: nat, autoReset: bool): (m: nat)
    ensures autoReset && n < nSamples ==> m < nSamples
    ensures !autoReset ==> m == n + 1
    ensures m == 0 || m == n + 1
  {
    if n + 1 == nSamples && autoReset then 0 else n + 1
  }

  /** The sample index `next_sample` serves from cursor `n`; `None` where it raises IndexError. */
  function ServedIndex(n: nat, nSamples: nat): (r: Option<nat>)
    ensures r.Some? <==> n < nSamples
    ensures r.Some? ==> r.value == n
  {
    if n < nSamples then Some(n) else None
  }

  /** The cursor after `calls` consecutive calls of `next_sample`. */
  function CursorAfter(n: nat, calls: nat, nSamples: nat, autoReset: bool): nat
    decreases calls
  {
    if calls == 0 then n
    else CursorAfter(NextCursor(n, nSamples, autoReset), calls - 1, nSamples, autoReset)
  }

  /** The sample indices served by `calls` consecutive calls of `next_sample`. */
  function Served(n: nat, calls: nat, nSamples: nat, autoReset: bool): (s: seq<Option<nat>>)
    ensures |s| == calls
    decreases calls
  {
    if calls == 0 then []
    else [ServedIndex(n, nSamples)] + Served(NextCursor(n, nSamples, autoReset), calls - 1, nSamples, autoReset)
  }

  /** With auto-reset, the `k` calls from cursor `c = nSamples - k` serve `c, ..., nSamples - 1` in order and leave the cursor at 0. */
  lemma {:induction false} AutoResetFinishesEpoch(c: nat, k: nat, nSamples: nat)
    requires 0 < k && c + k == nSamples
    ensures forall t :: 0 <= t < k ==> Served(c, k, nSamples, true)[t] == Some(c + t)
    ensures CursorAfter(c, k, nSamples, true) == 0
    decreases k
  {
    var s := Served(c, k, nSamples, true);
    if k > 1 {
      AutoResetFinishesEpoch(c + 1, k - 1, nSamples);
      var rest := Served(c + 1, k - 1, nSamples, true);
      assert s == [Some(c)] + rest;
      forall t | 0 <= t < k ensures s[t] == Some(c + t) {
        if t > 0 {
          assert s[t] == rest[t - 1];
        }
      }
    } else {
      assert s == [Some(c)];
    }
  }

  /** With auto-reset, `nSamples` calls from a fresh cursor serve every sample once, in order, and restore the cursor. */
  lemma AutoResetEpoch(nSamples: nat)
    requires nSamples > 0
    ensures forall t :: 0 <= t < nSamples ==> Served(0, nSamples, nSamples, true)[t] == Some(t)
    ensures CursorAfter(0, nSamples, nSamples, true) == 0
  {
    AutoResetFinishesEpoch(0, nSamples, nSamples);
  }

  /** Without auto-reset the cursor only grows, and every call from the end on fails. */
  lemma {:induction false} NoResetRun(c: nat, calls: nat, nSamples: nat)
    ensures CursorAfter(c, calls, nSamples, false) == c + calls
    ensures forall t :: 0 <= t < calls ==>
      Served(c, calls, nSamples, false)[t] == (if c + t < nSamples then Some(c + t) else None)
    decreases calls
  {
    if calls > 0 {
      NoResetRun(c + 1, calls - 1, nSamples);
      var rest := Served(c + 1, calls - 1, nSamples, false);
      assert Served(c, calls, nSamples, false) == [ServedIndex(c, nSamples)] + rest;
    }
  }

  /** What `next_sample` returns: a (feature, label) pair, or a triple when there is a second label. */
  datatype Sample = Sample(feature: seq<real>, primary: real, secondary: Option<int>)

  class DataGenerator {
    var features: seq<seq<real>>
    var labels: seq<real>
    var labels2: Option<seq<int>>
    const nNodes: nat
    const nSamples: nat
    var n: nat
    var index: seq<int>
    const autoReset: bool

    /** The sample sequences are parallel. */
    ghost predicate Aligned()
      reads this
    {
      && |features| == nSamples
      && |labels| == nSamples
      && (labels2.Some? ==> |labels2.value| == nSamples)
    }

    /** Aligned, non-empty, and `index` a permutation of the positions, wherever the cursor is. */
    ghost predicate Consistent()
      reads this
    {
      && Aligned()
      && nSamples > 0
      && IsPermutation(index, nSamples)
    }

    /** Consistent, and the cursor in range with auto-reset. */
    ghost predicate Valid()
      reads this
    {
      && Consistent()
      && (autoReset ==> n < nSamples)
    }

    /** The sample at position `i`. */
    function SampleAt(i: nat): Sample
      reads this
      requires Aligned() && i < nSamples
    {
      Sample(features[i], labels[i], if labels2.Some? then Some(labels2.value[i]) else None)
    }

    /** `__init__` once its assertions have passed (see NewDataGenerator for the failing cases). */
    constructor (features: seq<seq<real>>, labels: seq<real>, labels2: Option<seq<int>> := None,
                 autoReset: bool := true, globalNode: bool := true, preConvolved: bool := false)
      requires |features| == |labels| && |labels| > 0
      requires labels2.Some? ==> |labels2.value| == |labels|
      ensures Valid() && n == 0 && index == Range(|labels|)
      ensures nSamples == |labels| && this.autoReset == autoReset && this.labels2 == labels2
      ensures this.labels == ShiftLabels(labels)
      ensures preConvolved ==> this.features == features
      ensures !preConvolved ==> forall i :: 0 <= i < |features| ==> this.features[i] == ParsedFeature(features[i], globalNode)
      ensures nNodes == |this.features[0]|
    {
      var parsed := features;
      if !preConvolved {
        parsed := ParseFeatures(features, globalNode);
      }
      this.features := parsed;
      this.labels := ShiftLabels(labels);
      nNodes := |parsed[0]|;
      nSamples := |labels|;
      n := 0;
      index := Range(|labels|);
      this.autoReset := autoReset;
      this.labels2 := labels2;
    }

    /**
     * `_iterate` / `next_sample`: moves the cursor on, then serves the sample before it.
     * The cursor moves even when serving fails, so a failing call leaves it one further.
     */
    method NextSample() returns (r: Result<Sample, GeneratorError>)
      requires Valid()
      modifies this`n
      ensures Valid()
      ensures n == NextCursor(old(n), nSamples, autoReset)
      ensures old(n) < nSamples ==> r == Ok(SampleAt(old(n)))
      ensures old(n) >= nSamples ==> r == Err(IndexOutOfRange)
      ensures r.Ok? <==> ServedIndex(old(n), nSamples).Some?
    {
      n := n + 1;
      if n == nSamples && autoReset {
        var sample := SampleAt(n - 1);
        ResetGenerator();
        return Ok(sample);
      }
      if n - 1 >= nSamples {
        return Err(IndexOutOfRange);
      }
      r := Ok(SampleAt(n - 1));
    }

    /**
     * `reset_generator`: the cursor goes back to the first sample; nothing else changes.
     * It restores validity from any cursor, including the one past the end that
     * `next_sample` reaches just before it resets.
     */
    method ResetGenerator()
      requires Consistent()
      modifies this`n
      ensures Valid() && n == 0
    {
      n := 0;
    }

    /**
     * `shuffle_samples`: `random.shuffle` rearranges `index` into `shuffled`, then
     * labels, features and second labels are all reordered by it, so position `j`
     * now holds what position `shuffled[j]` held. The cursor is not touched.
     */
    method ShuffleSamples(shuffled: seq<int>)
      requires Valid()
      requires multiset(shuffled) == multiset(index)
      modifies this`index, this`features, this`labels, this`labels2
      ensures Valid() && n == old(n)
      ensures index == shuffled && IndicesIn(shuffled, nSamples)
      ensures labels == Gather(old(labels), shuffled)
      ensures features == Gather(old(features), shuffled)
      ensures labels2 == if old(labels2).Some? then Some(Gather(old(labels2).value, shuffled)) else None
      ensures forall j :: 0 <= j < nSamples ==> SampleAt(j) == old(SampleAt(shuffled[j]))
      ensures multiset(labels) == multiset(old(labels)) && multiset(features) == multiset(old(features))
    {
      PermutationBounds(shuffled, nSamples);
      GatherPermutation(labels, shuffled);
      GatherPermutation(features, shuffled);
      index := shuffled;
      labels := Gather(labels, index);
      features := Gather(features, index);
      if labels2.Some? {
        labels2 := Some(Gather(labels2.value, index));
      }
    }
  }

  /**
   * `DataGenerator(...)` with its checks in source order: equal feature and label
   * counts, at least one label (`min` of an empty tensor fails), and as many second
   * labels as labels.
   */
  method NewDataGenerator(features: seq<seq<real>>, labels: seq<real>, labels2: Option<seq<int>> := None,
                          autoReset: bool := true, globalNode: bool := true, preConvolved: bool := false)
    returns (r: Result<DataGenerator, GeneratorError>)
    ensures |features| != |labels| ==> r == Err(LengthMismatch)
    ensures |features| == |labels| == 0 ==> r == Err(EmptyLabels)
    ensures |features| == |labels| > 0 && labels2.Some? && |labels2.value| != |labels| ==> r == Err(Labels2LengthMismatch)
    ensures r.Ok? <==> |features| == |labels| > 0 && (labels2.Some? ==> |labels2.value| == |labels|)
    ensures r.Ok? ==> fresh(r.value) && r.value.Valid() && r.value.n == 0 && r.value.index == Range(|labels|)
    ensures r.Ok? ==> r.value.labels == ShiftLabels(labels) && r.value.labels2 == labels2
    ensures r.Ok? ==> r.value.nSamples == |labels| && r.value.autoReset == autoReset
    ensures r.Ok? && preConvolved ==> r.value.features == features
    ensures r.Ok? && !preConvolved ==> forall i :: 0 <= i < |features| ==> r.value.features[i] == ParsedFeature(features[i], globalNode)
    ensures r.Ok? ==> r.value.nNodes == |r.value.features[0]|
  {
    if |features| != |labels| {
      return Err(LengthMismatch);
    }
    if |labels| == 0 {
      return Err(EmptyLabels);
    }
    if labels2.Some? && |labels2.value| != |labels| {
      return Err(Labels2LengthMismatch);
    }
    var g := new DataGenerator(features, labels, labels2, autoReset, globalNode, preConvolved);
    r := Ok(g);
  }
}
