/**
 * The scoring helpers of the training scripts: the first-index argmax that turns a
 * one-hot country/family row into a class index (`transform` inside `load_labels_2`),
 * the choice between the country and the family label sets, the percentage of rows
 * whose argmax matches the label (`country_accuracy`), and the conversion of log2
 * MIC values into resistant (1) / sensitive (0) calls against a breakpoint (`R_or_S`).
 */
module Scoring {
  import opened Wrappers
  import opened Sequences

  /** The exceptions these helpers raise. */
  datatype ScoringError =
    | UnequalLengths    // AssertionError: "Predictions and labels are of unequal lengths"
    | EmptyRow          // ValueError: max() of an empty sequence
    | DivisionByZero    // ZeroDivisionError: no labels at all
    | NeitherOrBoth     // ValueError: "One of countries OR families must be true"
    | NoRows            // RuntimeError: `torch.cat` of an empty list of tensors

  /** Python's `max(row)`, scanning left to right. */
  function Max(row: seq<real>): (m: real)
    requires |row| > 0
    ensures exists k :: 0 <= k < |row| && row[k] == m
    ensures forall j :: 0 <= j < |row| ==> row[j] <= m
  {
    if |row| == 1 then row[0]
    else
      var m := Max(row[..|row| - 1]);
      if row[|row| - 1] > m then row[|row| - 1] else m
  }

  /** Python's `row.index(x)`: the first position holding `x`; `None` where Python raises ValueError. */
  function IndexOf(row: seq<real>, x: real): (r: Option<nat>)
    ensures r.Some? <==> x in row
    ensures r.Some? ==> r.value < |row| && row[r.value] == x
    ensures r.Some? ==> forall j :: 0 <= j < r.value ==> row[j] != x
  {
    if row == [] then None
    else if row[0] == x then Some(0)
    else
      match IndexOf(row[1..], x)
      case None => None
      case Some(k) => Some(k + 1)
  }

  /** `k` is the first position at which `row` reaches its maximum. */
  ghost predicate IsFirstArgMax(row: seq<real>, k: nat)
  {
    && k < |row|
    && (forall j :: 0 <= j < |row| ==> row[j] <= row[k])
    && (forall j :: 0 <= j < k ==> row[j] < row[k])
  }

  /** `transform`: `row.index(max(row))`; an empty row makes `max` raise. */
  function Transform(row: seq<real>): (r: Result<nat, ScoringError>)
    ensures r.Err? <==> row == []
    ensures r.Err? ==> r.error == EmptyRow
    ensures r.Ok? ==> r.value < |row| && row[r.value] == Max(row)
  {
    if row == [] then Err(EmptyRow)
    else Ok(IndexOf(row, Max(row)).value)
  }

  /** `transform` fails exactly on the empty row and otherwise returns the first argmax, and nothing else. */
  lemma TransformIsFirstArgMax(row: seq<real>, k: nat)
    ensures Transform(row).Err? <==> row == []
    ensures Transform(row) == Ok(k) <==> IsFirstArgMax(row, k)
  {
  }

  /** `list(map(transform, rows))`: one class index per row, failing on the first empty row. */
  function MapTransform(rows: seq<seq<real>>): (r: Result<seq<nat>, ScoringError>)
    ensures r.Ok? <==> forall i :: 0 <= i < |rows| ==> rows[i] != []
    ensures r.Err? ==> r.error == EmptyRow
    ensures r.Ok? ==> |r.value| == |rows|
    ensures r.Ok? ==> forall i :: 0 <= i < |rows| ==> Transform(rows[i]) == Ok(r.value[i])
  {
    if rows == [] then Ok([])
    else
      match Transform(rows[0])
      case Err(e) => Err(e)
      case Ok(k) =>
        match MapTransform(rows[1..])
        case Err(e) => Err(e)
        case Ok(ks) =>
          assert forall i :: 1 <= i < |rows| ==> rows[i] == rows[1..][i - 1];
          Ok([k] + ks)
  }

  /**
   * `torch.cat(list(map(transform, rows.unbind(0))))`: one class index per row. The map
   * runs first, so an empty row raises before `torch.cat` sees an empty list of tensors.
   */
  function TransformRows(rows: seq<seq<real>>): (r: Result<seq<nat>, ScoringError>)
    ensures r.Ok? <==> |rows| > 0 && forall i :: 0 <= i < |rows| ==> rows[i] != []
    ensures r == Err(NoRows) <==> rows == []
    ensures r == Err(EmptyRow) <==> exists i :: 0 <= i < |rows| && rows[i] == []
    ensures r.Ok? ==> |r.value| == |rows|
    ensures r.Ok? ==> forall i :: 0 <= i < |rows| ==> IsFirstArgMax(rows[i], r.value[i])
  {
    match MapTransform(rows)
    case Err(e) => Err(e)
    case Ok(ks) =>
      if ks == [] then Err(NoRows)
      else
        assert forall i :: 0 <= i < |rows| ==> IsFirstArgMax(rows[i], ks[i]) by {
          forall i | 0 <= i < |rows| {
            TransformIsFirstArgMax(rows[i], ks[i]);
          }
        }
        Ok(ks)
  }

  /** The second label set `load_labels_2` reads. */
  datatype LabelSet = Countries | Families

  /** The flag check of `load_labels_2`: exactly one of the two flags must be set. */
  function SelectLabelSet(countries: bool := true, families: bool := false): (r: Result<LabelSet, ScoringError>)
    ensures r.Err? <==> countries == families
    ensures r.Err? ==> r.error == NeitherOrBoth
    ensures r == Ok(Countries) <==> countries && !families
    ensures r == Ok(Families) <==> families && !countries
  {
    if countries == families then Err(NeitherOrBoth)
    else if countries then Ok(Countries)
    else Ok(Families)
  }

  /**
   * The per-row comparison of `country_accuracy`: whether the first argmax of each
   * prediction row equals its label. The list comprehension is evaluated in full, so
   * one empty row makes the whole call fail.
   */
  function CorrectFlags(predictions: seq<seq<real>>, labels: seq<int>): (r: Result<seq<bool>, ScoringError>)
    requires |predictions| == |labels|
    ensures r.Ok? <==> forall i :: 0 <= i < |predictions| ==> predictions[i] != []
    ensures r.Err? ==> r.error == EmptyRow
    ensures r.Ok? ==> |r.value| == |labels|
    ensures r.Ok? ==> forall i :: 0 <= i < |labels| ==>
      (r.value[i] <==> Transform(predictions[i]).value == labels[i])
  {
    if predictions == [] then Ok([])
    else
      match Transform(predictions[0])
      case Err(e) => Err(e)
      case Ok(k) =>
        match CorrectFlags(predictions[1..], labels[1..])
        case Err(e) => Err(e)
        case Ok(flags) =>
          assert forall i :: 1 <= i < |predictions| ==> predictions[i] == predictions[1..][i - 1];
          Ok([k == labels[0]] + flags)
  }

  /** Row `i` is predicted correctly: its first argmax is its label. */
  ghost predicate RowCorrect(predictions: seq<seq<real>>, labels: seq<int>, i: int)
    requires 0 <= i < |predictions| == |labels|
  {
    Transform(predictions[i]) == Ok(labels[i])
  }

  /** `c / n * 100` for `0 <= c <= n` lies in `[0, 100]`, with 100 only for `c == n` and 0 only for `c == 0`. */
  lemma Percentage(c: real, n: real)
    requires 0.0 <= c <= n && n > 0.0
    ensures 0.0 <= c / n * 100.0 <= 100.0
    ensures c / n * 100.0 == 100.0 <==> c == n
    ensures c / n * 100.0 == 0.0 <==> c == 0.0
  {
  }

  /** `country_accuracy`: the percentage of rows whose first argmax equals the label. */
  function CountryAccuracy(predictions: seq<seq<real>>, labels: seq<int>): (r: Result<real, ScoringError>)
    ensures |predictions| != |labels| ==> r == Err(UnequalLengths)
    ensures r.Ok? <==> |predictions| == |labels| > 0 && forall i :: 0 <= i < |predictions| ==> predictions[i] != []
    ensures r.Ok? ==> 0.0 <= r.value <= 100.0
  {
    if |predictions| != |labels| then Err(UnequalLengths)
    else
      match CorrectFlags(predictions, labels)
      case Err(e) => Err(e)
      case Ok(flags) =>
        if |labels| == 0 then Err(DivisionByZero)
        else
          var c, n := CountTrue(flags) as real, |labels| as real;
          Percentage(c, n);
          Ok(c / n * 100.0)
  }

  /** The accuracy is 100 exactly when every row is correct and 0 exactly when none is. */
  lemma CountryAccuracyExtremes(predictions: seq<seq<real>>, labels: seq<int>)
    requires CountryAccuracy(predictions, labels).Ok?
    ensures |predictions| == |labels|
    ensures CountryAccuracy(predictions, labels).value == 100.0 <==>
      forall i :: 0 <= i < |labels| ==> RowCorrect(predictions, labels, i)
    ensures CountryAccuracy(predictions, labels).value == 0.0 <==>
      forall i :: 0 <= i < |labels| ==> !RowCorrect(predictions, labels, i)
  {
    var flags := CorrectFlags(predictions, labels).value;
    var c, n := CountTrue(flags) as real, |labels| as real;
    assert CountryAccuracy(predictions, labels).value == c / n * 100.0;
    forall i | 0 <= i < |labels|
      ensures flags[i] <==> RowCorrect(predictions, labels, i)
    {
      TransformIsFirstArgMax(predictions[i], Transform(predictions[i]).value);
    }
    Percentage(c, n);
  }

  /** `2 ** e` for an integer exponent, as a real. */
  function Pow2(e: int): (r: real)
    ensures r > 0.0
    decreases if e >= 0 then e else -e
  {
    if e == 0 then 1.0
    else if e > 0 then 2.0 * Pow2(e - 1)
    else Pow2(e + 1) / 2.0
  }

  lemma Pow2Step(e: int)
    ensures Pow2(e + 1) == 2.0 * Pow2(e)
  {
  }

  /** Doubling dilutions strictly increase with their log2 value. */
  lemma {:induction false} Pow2StrictlyIncreasing(a: int, b: int)
    requires a < b
    ensures Pow2(a) < Pow2(b)
    decreases b - a
  {
    Pow2Step(a);
    if a + 1 < b {
      Pow2StrictlyIncreasing(a + 1, b);
    }
  }

  /** The call for one log2 MIC value: 0 (sensitive) when `2 ** e <= boundary`, else 1 (resistant). */
  function Category(e: int, boundary: real): (c: int)
    ensures c == 0 || c == 1
    ensures c == 0 <==> Pow2(e) <= boundary
  {
    if Pow2(e) <= boundary then 0 else 1
  }

  /** `R_or_S`: one call per log2 MIC value. */
  function ResistantOrSensitive(mic: seq<int>, boundary: real): (r: seq<int>)
    ensures |r| == |mic|
    ensures forall k :: 0 <= k < |mic| ==> r[k] == Category(mic[k], boundary)
    ensures forall k :: 0 <= k < |mic| ==> (r[k] == 0 <==> Pow2(mic[k]) <= boundary)
    ensures forall k :: 0 <= k < |mic| ==> (r[k] == 1 <==> Pow2(mic[k]) > boundary)
  {
    seq(|mic|, k requires 0 <= k < |mic| => Category(mic[k], boundary))
  }

  /** A larger log2 MIC never gets a smaller category. */
  lemma CategoryMonotone(a: int, b: int, boundary: real)
    requires a <= b
    ensures Category(a, boundary) <= Category(b, boundary)
  {
    if a < b {
      Pow2StrictlyIncreasing(a, b);
    }
  }

  lemma ResistantOrSensitiveMonotone(mic: seq<int>, boundary: real, i: nat, j: nat)
    requires i < |mic| && j < |mic| && mic[i] <= mic[j]
    ensures ResistantOrSensitive(mic, boundary)[i] <= ResistantOrSensitive(mic, boundary)[j]
  {
    CategoryMonotone(mic[i], mic[j], boundary);
  }

  /** With `2 ** t <= boundary < 2 ** (t + 1)`, exactly the log2 values up to `t` are sensitive. */
  lemma CategoryThreshold(e: int, t: int, boundary: real)
    requires Pow2(t) <= boundary < Pow2(t + 1)
    ensures Category(e, boundary) == 0 <==> e <= t
  {
    if e <= t {
      CategoryMonotone(e, t, boundary);
    } else {
      CategoryMonotone(t + 1, e, boundary);
    }
  }

  /** EUCAST resistance breakpoints (mg/L) for N. gonorrhoeae, keyed by antibiotic. */
  const Breakpoints: map<string, real> := map["azm" := 1.0, "cfx" := 0.125, "cip" := 0.06, "cro" := 0.125]

  /**
   * The log2 MIC values each breakpoint calls sensitive. The ciprofloxacin breakpoint
   * 0.06 is not a power of two, so the dilution 2 ** -4 = 0.0625 is called resistant.
   */
  lemma BreakpointThresholds(e: int)
    ensures Category(e, Breakpoints["azm"]) == 0 <==> e <= 0
    ensures Category(e, Breakpoints["cfx"]) == 0 <==> e <= -3
    ensures Category(e, Breakpoints["cro"]) == 0 <==> e <= -3
    ensures Category(e, Breakpoints["cip"]) == 0 <==> e <= -5
  {
    assert Pow2(-3) == 0.125 && Pow2(-2) == 0.25;
    assert Pow2(-5) == 0.03125 && Pow2(-4) == 0.0625;
    CategoryThreshold(e, 0, 1.0);
    CategoryThreshold(e, -3, 0.125);
    CategoryThreshold(e, -5, 0.06);
  }
}
