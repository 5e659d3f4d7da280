/**
 * Height helpers: the choice of the measurement heights closest to a target
 * height, linear and logarithmic inter-/extrapolation between the two
 * closest heights, and the turbulence intensity estimate from a roughness
 * length.
 */
module Tools {
  import opened Common

  /** A time series measured at one height. */
  datatype HeightColumn = HeightColumn(height: real, values: seq<real>)

  function Distance(h: real, target: real): real {
    if h < target then target - h else h - target
  }

  function Heights(cols: seq<HeightColumn>): (hs: seq<real>)
    ensures |hs| == |cols|
    ensures forall k :: 0 <= k < |cols| ==> hs[k] == cols[k].height
  {
    seq(|cols|, k requires 0 <= k < |cols| => cols[k].height)
  }

  /**
   * Among the indices below `n` other than `skip`, the first one whose
   * height is closest to `target`; None when there is no such index. This
   * is the first element of a stable sort of those indices by distance.
   */
  function ClosestBelow(hs: seq<real>, target: real, n: nat, skip: int): (r: Option<nat>)
    requires n <= |hs|
    ensures r.None? <==> n == 0 || (n == 1 && skip == 0)
    ensures r.Some? ==> r.value < n && r.value != skip
    ensures r.Some? ==> forall j :: 0 <= j < n && j != skip ==>
      Distance(hs[r.value], target) <= Distance(hs[j], target)
    ensures r.Some? ==> forall j :: 0 <= j < r.value && j != skip ==>
      Distance(hs[r.value], target) < Distance(hs[j], target)
    decreases n
  {
    if n == 0 then None
    else
      var best := ClosestBelow(hs, target, n - 1, skip);
      if n - 1 == skip then best
      else if best.None? then Some(n - 1)
      else if Distance(hs[n - 1], target) < Distance(hs[best.value], target) then Some(n - 1)
      else best
  }

  /** Index of the height closest to `target`, the first one on ties. */
  function Closest(hs: seq<real>, target: real): (k: nat)
    requires |hs| > 0
    ensures k < |hs|
    ensures forall j :: 0 <= j < |hs| ==> Distance(hs[k], target) <= Distance(hs[j], target)
    ensures forall j :: 0 <= j < k ==> Distance(hs[k], target) < Distance(hs[j], target)
  {
    ClosestBelow(hs, target, |hs|, -1).value
  }

  /** Index of the second height of the stable sort by distance to `target`. */
  function SecondClosest(hs: seq<real>, target: real): (k: nat)
    requires |hs| >= 2
    ensures k < |hs| && k != Closest(hs, target)
    ensures forall j :: 0 <= j < |hs| && j != Closest(hs, target) ==>
      Distance(hs[k], target) <= Distance(hs[j], target)
    ensures forall j :: 0 <= j < k && j != Closest(hs, target) ==>
      Distance(hs[k], target) < Distance(hs[j], target)
  {
    ClosestBelow(hs, target, |hs|, Closest(hs, target)).value
  }

  /** All series have the length of the time index. */
  ghost predicate SameLength(cols: seq<HeightColumn>, n: nat) {
    forall k :: 0 <= k < |cols| ==> |cols[k].values| == n
  }

  /** The straight line through (x1, f1) and (x2, f2), evaluated at x. */
  function Line(x1: real, f1: real, x2: real, f2: real, x: real): real
    requires x2 - x1 != 0.0
  {
    (f2 - f1) / (x2 - x1) * (x - x1) + f1
  }

  /**
   * `linear_interpolation_extrapolation(df, target)`: the line through the
   * two closest heights, evaluated at the target height, time step by time
   * step.
   */
  function LinearInterpolationExtrapolation(cols: seq<HeightColumn>, target: real, n: nat): (r: Result<seq<real>>)
    requires SameLength(cols, n)
    ensures r.Success? ==> |r.value| == n
  {
    if |cols| < 2 then Failure(IndexError("heights_sorted"))
    else
      var hs := Heights(cols);
      var c1, c2 := cols[Closest(hs, target)], cols[SecondClosest(hs, target)];
      var x1, x2 := c1.height, c2.height;
      if x2 - x1 == 0.0 then Failure(NonFinite("heights_sorted[1] - heights_sorted[0]"))
      else Success(seq(n, i requires 0 <= i < n => Line(x1, c1.values[i], x2, c2.values[i], target)))
  }

  /**
   * `logarithmic_interpolation_extrapolation(df, target)`, with the natural
   * logarithm a parameter.
   */
  function LogarithmicInterpolationExtrapolation(cols: seq<HeightColumn>, target: real, n: nat, m: Math): (r: Result<seq<real>>)
    requires SameLength(cols, n)
    ensures r.Success? ==> |r.value| == n
  {
    if |cols| < 2 then Failure(IndexError("heights_sorted"))
    else
      var hs := Heights(cols);
      var c1, c2 := cols[Closest(hs, target)], cols[SecondClosest(hs, target)];
      var l1, l2 := m.ln(c1.height), m.ln(c2.height);
      if l2 - l1 == 0.0 then Failure(NonFinite("np.log(heights_sorted[1]) - np.log(heights_sorted[0])"))
      else Success(seq(n, i requires 0 <= i < n =>
        (m.ln(target) * (c2.values[i] - c1.values[i]) - c2.values[i] * l1 + c1.values[i] * l2) / (l2 - l1)))
  }

  /** `estimate_turbulence_intensity(height, roughness_length)`: 1 / ln(height / z0). */
  function EstimateTurbulenceIntensity(height: real, roughnessLength: real, m: Math): (r: Result<real>)
    ensures r.Success? ==> roughnessLength != 0.0 && m.ln(height / roughnessLength) != 0.0
    ensures r.Success? ==> r.value * m.ln(height / roughnessLength) == 1.0
  {
    if roughnessLength == 0.0 then Failure(NonFinite("height / roughness_length"))
    else
      var l := m.ln(height / roughnessLength);
      if l == 0.0 then Failure(NonFinite("1 / np.log(height / roughness_length)"))
      else Success(1.0 / l)
  }

  // ----- properties

  /**
   * When the target is one of the measured heights, linear
   * inter-/extrapolation returns that height's series unchanged (provided
   * there is a second, different height to form a line with).
   */
  lemma LinearAtMeasuredHeight(cols: seq<HeightColumn>, target: real, n: nat, k: nat)
    requires SameLength(cols, n) && k < |cols| && cols[k].height == target
    requires LinearInterpolationExtrapolation(cols, target, n).Success?
    ensures LinearInterpolationExtrapolation(cols, target, n).value == cols[Closest(Heights(cols), target)].values
    ensures cols[Closest(Heights(cols), target)].height == target
  {
    var hs := Heights(cols);
    var c1, c2 := cols[Closest(hs, target)], cols[SecondClosest(hs, target)];
    assert Distance(hs[Closest(hs, target)], target) <= Distance(hs[k], target);
    assert c1.height == target;
    var r := LinearInterpolationExtrapolation(cols, target, n).value;
    forall i | 0 <= i < n ensures r[i] == c1.values[i] {
      assert r[i] == Line(c1.height, c1.values[i], c2.height, c2.values[i], target);
    }
  }

  /** On the line, between x1 and x2 the value stays between f1 and f2. */
  lemma LineBetween(x1: real, f1: real, x2: real, f2: real, x: real)
    requires x2 - x1 != 0.0
    requires (x1 <= x <= x2) || (x2 <= x <= x1)
    ensures f1 <= f2 ==> f1 <= Line(x1, f1, x2, f2, x) <= f2
    ensures f2 <= f1 ==> f2 <= Line(x1, f1, x2, f2, x) <= f1
  {
    var t := (x - x1) / (x2 - x1);
    if x1 < x2 {
      FractionBetween(x - x1, x2 - x1);
    } else {
      NegativeFractionBetween(x - x1, x2 - x1);
    }
    var d := f2 - f1;
    assert Line(x1, f1, x2, f2, x) == d * t + f1;
    ScaledBetween(d, t);
  }


  /**
   * Between the two closest heights the interpolated value lies between
   * the two measured values, time step by time step.
   */
  lemma LinearInterpolationBetween(cols: seq<HeightColumn>, target: real, n: nat, i: nat)
    requires SameLength(cols, n) && i < n
    requires LinearInterpolationExtrapolation(cols, target, n).Success?
    requires var hs := Heights(cols);
      var x1, x2 := hs[Closest(hs, target)], hs[SecondClosest(hs, target)];
      (x1 <= target <= x2) || (x2 <= target <= x1)
    ensures var hs := Heights(cols);
      var f1, f2 := cols[Closest(hs, target)].values[i], cols[SecondClosest(hs, target)].values[i];
      var v := LinearInterpolationExtrapolation(cols, target, n).value[i];
      (f1 <= f2 ==> f1 <= v <= f2) && (f2 <= f1 ==> f2 <= v <= f1)
  {
    var hs := Heights(cols);
    var c1, c2 := cols[Closest(hs, target)], cols[SecondClosest(hs, target)];
    LineBetween(c1.height, c1.values[i], c2.height, c2.values[i], target);
  }



  /**
   * At one of the two closest heights the logarithmic formula returns that
   * height's series.
   */
  lemma LogarithmicAtClosestHeight(cols: seq<HeightColumn>, target: real, n: nat, m: Math)
    requires SameLength(cols, n)
    requires LogarithmicInterpolationExtrapolation(cols, target, n, m).Success?
    requires cols[Closest(Heights(cols), target)].height == target
    ensures LogarithmicInterpolationExtrapolation(cols, target, n, m).value == cols[Closest(Heights(cols), target)].values
  {
    var hs := Heights(cols);
    var c1, c2 := cols[Closest(hs, target)], cols[SecondClosest(hs, target)];
    var l1, l2 := m.ln(c1.height), m.ln(c2.height);
    var r := LogarithmicInterpolationExtrapolation(cols, target, n, m).value;
    forall i | 0 <= i < n ensures r[i] == c1.values[i] {
      var f1, f2 := c1.values[i], c2.values[i];
      assert m.ln(target) == l1;
      assert l1 * (f2 - f1) - f2 * l1 + f1 * l2 == f1 * (l2 - l1);
    }
  }

  /**
   * Measurements at 10 m, 80 m and 200 m of [2, 2, 3], [4, 5, 6] and
   * [5, 8, 10]: at 80 m the 80 m series comes back, at 140 m the line
   * through 80 m and 200 m gives [4.5, 6.5, 8], at 240 m the same two
   * heights in the other order give [16/3, 9, 34/3] and at 5 m the line
   * through 10 m and 80 m gives [13/7, 25/14, 39/14].
   */
  lemma LinearInterpolationExamples(cols: seq<HeightColumn>)
    requires cols == [HeightColumn(10.0, [2.0, 2.0, 3.0]), HeightColumn(80.0, [4.0, 5.0, 6.0]),
                      HeightColumn(200.0, [5.0, 8.0, 10.0])]
    ensures LinearInterpolationExtrapolation(cols, 80.0, 3) == Success([4.0, 5.0, 6.0])
    ensures LinearInterpolationExtrapolation(cols, 140.0, 3) == Success([4.5, 6.5, 8.0])
    ensures LinearInterpolationExtrapolation(cols, 240.0, 3) == Success([16.0 / 3.0, 9.0, 34.0 / 3.0])
    ensures LinearInterpolationExtrapolation(cols, 5.0, 3) == Success([13.0 / 7.0, 25.0 / 14.0, 39.0 / 14.0])
  {
    var hs := Heights(cols);
    assert hs == [10.0, 80.0, 200.0];
    ExampleAt80(cols, hs);
    ExampleAt140(cols, hs);
    ExampleAt240(cols, hs);
    ExampleAt5(cols, hs);
  }

  lemma ExampleAt80(cols: seq<HeightColumn>, hs: seq<real>)
    requires cols == [HeightColumn(10.0, [2.0, 2.0, 3.0]), HeightColumn(80.0, [4.0, 5.0, 6.0]),
                      HeightColumn(200.0, [5.0, 8.0, 10.0])]
    requires hs == Heights(cols) && hs == [10.0, 80.0, 200.0]
    ensures LinearInterpolationExtrapolation(cols, 80.0, 3) == Success([4.0, 5.0, 6.0])
  {
    ClosestOf(hs, 80.0, 1, 0);
    ExampleAt(cols, 80.0, 1, 0, [4.0, 5.0, 6.0]);
  }

  lemma ExampleAt140(cols: seq<HeightColumn>, hs: seq<real>)
    requires cols == [HeightColumn(10.0, [2.0, 2.0, 3.0]), HeightColumn(80.0, [4.0, 5.0, 6.0]),
                      HeightColumn(200.0, [5.0, 8.0, 10.0])]
    requires hs == Heights(cols) && hs == [10.0, 80.0, 200.0]
    ensures LinearInterpolationExtrapolation(cols, 140.0, 3) == Success([4.5, 6.5, 8.0])
  {
    ClosestOf(hs, 140.0, 1, 2);
    ExampleAt(cols, 140.0, 1, 2, [4.5, 6.5, 8.0]);
  }

  lemma ExampleAt240(cols: seq<HeightColumn>, hs: seq<real>)
    requires cols == [HeightColumn(10.0, [2.0, 2.0, 3.0]), HeightColumn(80.0, [4.0, 5.0, 6.0]),
                      HeightColumn(200.0, [5.0, 8.0, 10.0])]
    requires hs == Heights(cols) && hs == [10.0, 80.0, 200.0]
    ensures LinearInterpolationExtrapolation(cols, 240.0, 3) == Success([16.0 / 3.0, 9.0, 34.0 / 3.0])
  {
    ClosestOf(hs, 240.0, 2, 1);
    ExampleAt(cols, 240.0, 2, 1, [16.0 / 3.0, 9.0, 34.0 / 3.0]);
  }

  lemma ExampleAt5(cols: seq<HeightColumn>, hs: seq<real>)
    requires cols == [HeightColumn(10.0, [2.0, 2.0, 3.0]), HeightColumn(80.0, [4.0, 5.0, 6.0]),
                      HeightColumn(200.0, [5.0, 8.0, 10.0])]
    requires hs == Heights(cols) && hs == [10.0, 80.0, 200.0]
    ensures LinearInterpolationExtrapolation(cols, 5.0, 3) == Success([13.0 / 7.0, 25.0 / 14.0, 39.0 / 14.0])
  {
    ClosestOf(hs, 5.0, 0, 1);
    ExampleAt(cols, 5.0, 0, 1, [13.0 / 7.0, 25.0 / 14.0, 39.0 / 14.0]);
  }

  lemma ExampleAt(cols: seq<HeightColumn>, target: real, k1: nat, k2: nat, expected: seq<real>)
    requires SameLength(cols, 3) && |cols| >= 2 && |expected| == 3
    requires k1 == Closest(Heights(cols), target) && k2 == SecondClosest(Heights(cols), target)
    requires cols[k2].height - cols[k1].height != 0.0
    requires forall i :: 0 <= i < 3 ==>
      Line(cols[k1].height, cols[k1].values[i], cols[k2].height, cols[k2].values[i], target) == expected[i]
    ensures LinearInterpolationExtrapolation(cols, target, 3) == Success(expected)
  {
    var r := LinearInterpolationExtrapolation(cols, target, 3).value;
    assert r == expected;
  }

  /** The indices a stable sort by distance puts first and second, for three heights. */
  lemma ClosestOf(hs: seq<real>, target: real, k1: nat, k2: nat)
    requires |hs| == 3 && k1 < 3 && k2 < 3 && k1 != k2
    requires forall j :: 0 <= j < 3 && j != k1 ==>
      Distance(hs[k1], target) < Distance(hs[j], target) || (Distance(hs[k1], target) == Distance(hs[j], target) && k1 < j)
    requires forall j :: 0 <= j < 3 && j != k1 && j != k2 ==>
      Distance(hs[k2], target) < Distance(hs[j], target) || (Distance(hs[k2], target) == Distance(hs[j], target) && k2 < j)
    ensures Closest(hs, target) == k1 && SecondClosest(hs, target) == k2
  {
    var c := Closest(hs, target);
    assert Distance(hs[c], target) <= Distance(hs[k1], target);
    var d := SecondClosest(hs, target);
    assert Distance(hs[d], target) <= Distance(hs[k2], target);
  }
}
