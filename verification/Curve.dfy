/** Sampling a NURBS spine: `sample_curve_waypoints` and the loops under it. Offsets are metres
    east and north of the curve's centre; the projection to degrees is a parameter. */
module Curve {
  import opened Basis

  datatype Axis = East | North

  datatype ControlPoint = ControlPoint(east: real, north: real, weight: real) {
    function At(axis: Axis): real { if axis.East? then east else north }
  }

  datatype Offset = Offset(east: real, north: real) {
    function At(axis: Axis): real { if axis.East? then east else north }
  }

  /** How far short of the span's end the last parameter is taken. */
  const END_MARGIN: real := 0.000000000001

  ghost predicate PositiveWeights(points: seq<ControlPoint>) {
    forall i :: 0 <= i < |points| ==> points[i].weight > 0.0
  }

  // ---- One point of the curve ----------------------------------------------------------------

  /** The n basis values at u, one for each control point. */
  function BasisAt(knots: seq<real>, n: nat, degree: nat, u: real): seq<real>
    requires n + degree <= |knots|
  {
    seq(n, i requires 0 <= i < n => CoxDeBoor(knots, i, degree, u))
  }

  /** How strongly each control point pulls: its basis value times its weight. */
  function Pulls(points: seq<ControlPoint>, basis: seq<real>): seq<real>
    requires |points| == |basis|
  {
    seq(|points|, i requires 0 <= i < |points| => basis[i] * points[i].weight)
  }

  function Total(values: seq<real>, k: nat): real
    requires k <= |values|
  {
    if k == 0 then 0.0 else Total(values, k - 1) + values[k - 1]
  }

  /** Coordinate sum of the first k control points under given coefficients. */
  function Combine(values: seq<real>, points: seq<ControlPoint>, axis: Axis, k: nat): real
    requires k <= |points| == |values|
  {
    if k == 0 then 0.0 else Combine(values, points, axis, k - 1) + points[k - 1].At(axis) * values[k - 1]
  }

  /** The rational combination, or the first control point where nothing pulls. */
  function PointAt(points: seq<ControlPoint>, pulls: seq<real>): Offset
    requires 0 < |points| == |pulls|
  {
    var n, mass := |points|, Total(pulls, |points|);
    if mass <= 0.0 then Offset(points[0].east, points[0].north)
    else Offset(Combine(pulls, points, East, n) / mass, Combine(pulls, points, North, n) / mass)
  }

  method NurbsPoint(points: seq<ControlPoint>, knots: seq<real>, degree: nat, u: real) returns (sample: Offset)
    requires 0 < |points| && |points| + degree <= |knots|
    ensures sample == PointAt(points, Pulls(points, BasisAt(knots, |points|, degree, u)))
  {
    ghost var pulls := Pulls(points, BasisAt(knots, |points|, degree, u));
    var east, north, weightSum := 0.0, 0.0, 0.0;
    for index := 0 to |points|
      invariant east == Combine(pulls, points, East, index)
      invariant north == Combine(pulls, points, North, index)
      invariant weightSum == Total(pulls, index)
    {
      var basis := CoxDeBoor(knots, index, degree, u) * points[index].weight;
      assert basis == pulls[index];
      east := east + points[index].east * basis;
      north := north + points[index].north * basis;
      weightSum := weightSum + basis;
    }
    if weightSum <= 0.0 {
      return Offset(points[0].east, points[0].north);
    }
    return Offset(east / weightSum, north / weightSum);
  }

  // ---- The sampled list ------------------------------------------------------------------------

  /** The three guards on the way to the NURBS branch: degree, knot order, non-empty span. */
  predicate Usable(points: seq<ControlPoint>, knots: seq<real>) {
    var degree := |knots| - |points| - 1;
    degree >= 1 && NonDecreasing(knots) && knots[degree] < knots[|points|]
  }

  /** The guards leave no room for a bad index: they force 1 <= p < n with m = n + p + 1. */
  lemma GuardsForceDegree(points: seq<ControlPoint>, knots: seq<real>)
    requires Usable(points, knots)
    ensures var p := |knots| - |points| - 1; 1 <= p < |points| && Sorted(knots)
  {
    NonDecreasingIsSorted(knots);
  }

  function SampleCount(samples: int, n: nat): nat {
    if samples < n then n else samples
  }

  /** i steps out of n over a length d. */
  function Part(d: real, i: int, n: int): real
    requires n != 0
  {
    d * (i as real) / (n as real)
  }

  function Interpolated(uStart: real, uEnd: real, count: nat, index: nat): real {
    if count == 1 then uStart else uStart + Part(uEnd - uStart, index, count - 1)
  }

  /** The index-th of `count` parameters over [uStart, uEnd]; the last stops just short of the end. */
  function Param(uStart: real, uEnd: real, count: nat, index: nat): real {
    if index == count - 1 then uEnd - END_MARGIN else Interpolated(uStart, uEnd, count, index)
  }

  function Polyline(points: seq<ControlPoint>): seq<Offset> {
    seq(|points|, i requires 0 <= i < |points| => Offset(points[i].east, points[i].north))
  }

  /** The i-th parameter the sampler takes on a usable curve. */
  function ParamOf(points: seq<ControlPoint>, knots: seq<real>, samples: int, index: nat): real
    requires Usable(points, knots)
  {
    Param(knots[|knots| - |points| - 1], knots[|points|], SampleCount(samples, |points|), index)
  }

  /** The basis values behind the i-th sample of a usable curve. */
  function BasisOf(points: seq<ControlPoint>, knots: seq<real>, samples: int, index: nat): seq<real>
    requires Usable(points, knots)
  {
    BasisAt(knots, |points|, |knots| - |points| - 1, ParamOf(points, knots, samples, index))
  }

  function SampleAt(points: seq<ControlPoint>, knots: seq<real>, samples: int, index: nat): Offset
    requires Usable(points, knots)
  {
    GuardsForceDegree(points, knots);
    PointAt(points, Pulls(points, BasisOf(points, knots, samples, index)))
  }

  /** What the sampler returns: curve points at the parameters, or the control polyline. */
  function Samples(points: seq<ControlPoint>, knots: seq<real>, samples: int): seq<Offset> {
    if !Usable(points, knots) then Polyline(points)
    else seq(SampleCount(samples, |points|), i requires 0 <= i => SampleAt(points, knots, samples, i))
  }

  method EvaluateNurbs(points: seq<ControlPoint>, knots: seq<real>, degree: nat, samples: int)
    returns (offsets: seq<Offset>)
    requires 1 <= degree && |knots| == |points| + degree + 1 && NonDecreasing(knots)
    ensures offsets == Samples(points, knots, samples)
  {
    var uStart, uEnd := knots[degree], knots[|points|];
    if uEnd <= uStart {
      return Polyline(points);
    }
    GuardsForceDegree(points, knots);
    var count := SampleCount(samples, |points|);
    offsets := [];
    for index := 0 to count
      invariant offsets == Samples(points, knots, samples)[..index]
    {
      var u := Interpolated(uStart, uEnd, count, index);
      if index == count - 1 {
        u := uEnd - END_MARGIN;
      }
      var sample := NurbsPoint(points, knots, degree, u);
      assert sample == Samples(points, knots, samples)[index];
      offsets := offsets + [sample];
    }
  }

  method SampleAepOffsets(points: seq<ControlPoint>, knots: seq<real>, samples: int) returns (offsets: seq<Offset>)
    ensures offsets == Samples(points, knots, samples)
  {
    var degree := |knots| - |points| - 1;
    if degree < 1 || !NonDecreasing(knots) {
      return Polyline(points);
    }
    offsets := EvaluateNurbs(points, knots, degree, samples);
  }

  // ---- Parameters --------------------------------------------------------------------------------

  /** Every parameter but the last lies in the span; the last does exactly when the span is at
      least as long as the end margin. */
  lemma ParamsInSpan(uStart: real, uEnd: real, count: nat, index: nat)
    requires uStart < uEnd && index < count && 2 <= count
    ensures index < count - 1 ==> uStart <= Param(uStart, uEnd, count, index) < uEnd
    ensures index == count - 1 ==> (uStart <= Param(uStart, uEnd, count, index) < uEnd <==> uEnd - uStart >= END_MARGIN)
  {
    if index < count - 1 {
      Fraction(uEnd - uStart, index, count - 1);
    }
  }

  lemma Fraction(d: real, i: nat, n: nat)
    requires d > 0.0 && i < n
    ensures 0.0 <= Part(d, i, n) < d
  {
    var q := (i as real) / (n as real);
    assert q < 1.0 && q >= 0.0;
    assert d * (i as real) / (n as real) == d * q;
  }

  /** Neighbouring parameters are one step apart, the last pair one step less the end margin, so
      the parameters strictly increase exactly when the step exceeds the margin. */
  lemma ParamsIncrease(uStart: real, uEnd: real, count: nat)
    requires uStart < uEnd && 2 <= count
    ensures (forall i: nat :: i + 1 < count ==> Param(uStart, uEnd, count, i) < Param(uStart, uEnd, count, i + 1))
       <==> Part(uEnd - uStart, 1, count - 1) > END_MARGIN
  {
    forall i: nat | i + 1 < count
      ensures Param(uStart, uEnd, count, i) < Param(uStart, uEnd, count, i + 1)
         <==> (i + 1 < count - 1 || Part(uEnd - uStart, 1, count - 1) > END_MARGIN)
    {
      EvenStep(uEnd - uStart, i, count - 1);
    }
    var last: nat := count - 2;
    assert Param(uStart, uEnd, count, last) < Param(uStart, uEnd, count, last + 1)
      <==> Part(uEnd - uStart, 1, count - 1) > END_MARGIN;
  }

  lemma EvenStep(d: real, i: nat, n: nat)
    requires d > 0.0 && i < n
    ensures Part(d, 1, n) > 0.0 && Part(d, n, n) == d
    ensures Part(d, i + 1, n) == Part(d, i, n) + Part(d, 1, n)
  {
    var m := n as real;
    assert d * ((i + 1) as real) == d * (i as real) + d;
  }

  /** The i-th of count parameters: all but the last stand i of count - 1 equal steps into the span, the last
      stands 1e-12 short of its end. */
  ghost predicate TakenAt(uStart: real, uEnd: real, count: nat, i: nat, u: real) {
    if i + 1 == count then u == uEnd - 0.000000000001
    else i + 1 < count && (u - uStart) * ((count - 1) as real) == i as real * (uEnd - uStart)
  }

  lemma ParamTakenAt(uStart: real, uEnd: real, count: nat, i: nat)
    requires i < count && 2 <= count
    ensures TakenAt(uStart, uEnd, count, i, Param(uStart, uEnd, count, i))
  {
    StepsIn(Param(uStart, uEnd, count, i) - uStart, uEnd - uStart, i, count - 1);
  }

  /** The samples of a usable curve: as many as asked for but no fewer than control points, each the curve's
      point at its parameter, and that in the span when the span is as long as the end margin. */
  lemma SampledExactly(points: seq<ControlPoint>, knots: seq<real>, p: nat, samples: int, i: nat) returns (u: real)
    requires Usable(points, knots) && p == |knots| - |points| - 1 && (i < |points| || i < samples)
    ensures 0 < |points| && |Samples(points, knots, samples)| == if samples < |points| then |points| else samples
    ensures TakenAt(knots[p], knots[|points|], if samples < |points| then |points| else samples, i, u)
    ensures knots[|points|] - knots[p] >= 0.000000000001 ==> knots[p] <= u < knots[|points|]
    ensures Samples(points, knots, samples)[i] == PointAt(points, Pulls(points, BasisAt(knots, |points|, p, u)))
  {
    GuardsForceDegree(points, knots);
    u := ParamOf(points, knots, samples, i);
    ParamTakenAt(knots[p], knots[|points|], SampleCount(samples, |points|), i);
    ParamsInSpan(knots[p], knots[|points|], SampleCount(samples, |points|), i);
  }

  lemma StepsIn(part: real, d: real, i: nat, n: nat)
    requires n != 0
    ensures part == Part(d, i, n) ==> part * (n as real) == i as real * d
  {
  }

  // ---- Mass in the span ----------------------------------------------------------------------------

  ghost predicate NonNegative(values: seq<real>) {
    forall i :: 0 <= i < |values| ==> values[i] >= 0.0
  }

  lemma {:induction false} TotalIsBasisSum(knots: seq<real>, n: nat, p: nat, u: real, k: nat)
    requires k <= n && n + p <= |knots|
    ensures Total(BasisAt(knots, n, p, u), k) == BasisSum(knots, 0, k, p, u)
  {
    if k == 0 {
    } else {
      TotalIsBasisSum(knots, n, p, u, k - 1);
    }
  }

  lemma BasisNonNegative(knots: seq<real>, n: nat, p: nat, u: real)
    requires Sorted(knots) && n + p <= |knots|
    ensures NonNegative(BasisAt(knots, n, p, u))
  {
    forall i: nat | i < n ensures CoxDeBoor(knots, i, p, u) >= 0.0 {
      LocalSupport(knots, i, p, u);
    }
  }

  /** Inside the span the basis is a partition of unity, so the total pull is at least the least
      weight, and the zero-weight fallback cannot fire. */
  lemma MassInSpan(points: seq<ControlPoint>, knots: seq<real>, u: real, least: real)
    requires Usable(points, knots) && least > 0.0
    requires forall i :: 0 <= i < |points| ==> points[i].weight >= least
    requires knots[|knots| - |points| - 1] <= u < knots[|points|]
    ensures Total(Pulls(points, BasisAt(knots, |points|, |knots| - |points| - 1, u)), |points|) >= least
  {
    var p := |knots| - |points| - 1;
    GuardsForceDegree(points, knots);
    PartitionOfUnity(knots, |points|, p, u);
    TotalIsBasisSum(knots, |points|, p, u, |points|);
    BasisNonNegative(knots, |points|, p, u);
    PullAbove(points, BasisAt(knots, |points|, p, u), least, |points|);
  }

  lemma {:induction false} PullAbove(points: seq<ControlPoint>, basis: seq<real>, least: real, k: nat)
    requires k <= |points| == |basis| && NonNegative(basis)
    requires forall i :: 0 <= i < |points| ==> points[i].weight >= least
    ensures Total(Pulls(points, basis), k) >= least * Total(basis, k)
  {
    if k == 0 {
    } else {
      PullAbove(points, basis, least, k - 1);
      ScaledBelow(basis[k - 1], least, points[k - 1].weight, Total(basis, k - 1), Total(basis, k));
    }
  }

  lemma ScaledBelow(b: real, least: real, w: real, s: real, t: real)
    requires b >= 0.0 && w >= least && t == s + b
    ensures least * t <= least * s + b * w
  {
    assert b * (w - least) >= 0.0;
  }
}
