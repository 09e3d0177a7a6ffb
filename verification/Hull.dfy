/** Where the samples of a curve can lie: the convex hull property, its local form, translation,
    and the start point of a clamped curve. */
module Hull {
  import opened Basis
  import opened Curve

  /** Normalised pulls: the coefficients the sample combines the control points with. */
  function Influence(pulls: seq<real>): (values: seq<real>)
    requires 0 < |pulls|
    ensures |values| == |pulls|
  {
    var mass := Total(pulls, |pulls|);
    if mass <= 0.0 then [1.0] + seq(|pulls| - 1, _ => 0.0)
    else seq(|pulls|, i requires 0 <= i < |pulls| => pulls[i] / mass)
  }

  /** Every curve point, the fallback included, is a convex combination of the control points, and
      one that does not pull takes no part while anything pulls. */
  lemma PointIsConvexCombination(points: seq<ControlPoint>, pulls: seq<real>)
    requires 0 < |points| == |pulls| && NonNegative(pulls)
    ensures NonNegative(Influence(pulls))
    ensures Total(Influence(pulls), |points|) == 1.0
    ensures PointAt(points, pulls) == Offset(Combine(Influence(pulls), points, East, |points|),
                                             Combine(Influence(pulls), points, North, |points|))
    ensures Total(pulls, |points|) > 0.0 ==> forall i :: 0 <= i < |points| && pulls[i] == 0.0 ==>
      Influence(pulls)[i] == 0.0
  {
    if Total(pulls, |points|) <= 0.0 {
      FirstOnly(Influence(pulls), points, East, |points|);
      FirstOnly(Influence(pulls), points, North, |points|);
    } else {
      InfluenceSigns(pulls);
      InfluenceTotal(pulls);
      NormalisedCombination(pulls, points, East, |points|);
      NormalisedCombination(pulls, points, North, |points|);
    }
  }

  lemma InfluenceTotal(pulls: seq<real>)
    requires 0 < |pulls| && Total(pulls, |pulls|) > 0.0
    ensures Total(Influence(pulls), |pulls|) == 1.0
  {
    NormalisedTotal(pulls, |pulls|);
    UndoWeight(1.0, Total(pulls, |pulls|));
  }

  lemma InfluenceSigns(pulls: seq<real>)
    requires 0 < |pulls| && NonNegative(pulls) && Total(pulls, |pulls|) > 0.0
    ensures NonNegative(Influence(pulls))
    ensures forall i :: 0 <= i < |pulls| && pulls[i] == 0.0 ==> Influence(pulls)[i] == 0.0
  {
    forall i | 0 <= i < |pulls| ensures Influence(pulls)[i] >= 0.0 && (pulls[i] == 0.0 ==> Influence(pulls)[i] == 0.0) {
      Quotient(pulls[i], Total(pulls, |pulls|));
    }
  }

  lemma Quotient(a: real, m: real)
    requires a >= 0.0 && m > 0.0
    ensures a / m >= 0.0 && (a == 0.0 ==> a / m == 0.0)
  {
  }

  lemma {:induction false} FirstOnly(values: seq<real>, points: seq<ControlPoint>, axis: Axis, k: nat)
    requires 1 <= k <= |points| == |values|
    requires forall i :: 0 <= i < |values| ==> values[i] == if i == 0 then 1.0 else 0.0
    ensures Total(values, k) == 1.0 && Combine(values, points, axis, k) == points[0].At(axis)
  {
    if k > 1 {
      FirstOnly(values, points, axis, k - 1);
    }
  }

  lemma {:induction false} NormalisedTotal(pulls: seq<real>, k: nat)
    requires 0 < |pulls| && k <= |pulls| && Total(pulls, |pulls|) > 0.0
    ensures Total(Influence(pulls), k) == Total(pulls, k) / Total(pulls, |pulls|)
  {
    if k == 0 {
    } else {
      NormalisedTotal(pulls, k - 1);
      AddQuotients(Total(pulls, k - 1), pulls[k - 1], Total(pulls, k), Total(pulls, |pulls|));
    }
  }

  lemma AddQuotients(a: real, b: real, c: real, m: real)
    requires m > 0.0 && c == a + b
    ensures a / m + b / m == c / m
  {
  }

  lemma {:induction false} NormalisedCombination(pulls: seq<real>, points: seq<ControlPoint>, axis: Axis, k: nat)
    requires 0 < |points| == |pulls| && k <= |points| && Total(pulls, |pulls|) > 0.0
    ensures Combine(Influence(pulls), points, axis, k) == Combine(pulls, points, axis, k) / Total(pulls, |pulls|)
  {
    if k == 0 {
    } else {
      NormalisedCombination(pulls, points, axis, k - 1);
      AddScaledQuotient(Combine(pulls, points, axis, k - 1), points[k - 1].At(axis), pulls[k - 1],
                        Combine(pulls, points, axis, k), Total(pulls, |pulls|));
    }
  }

  lemma AddScaledQuotient(a: real, x: real, b: real, c: real, m: real)
    requires m > 0.0 && c == a + x * b
    ensures a / m + x * (b / m) == c / m
  {
    assert x * (b / m) == (x * b) / m;
  }

  /** How many points the sampler returns, on every branch. */
  lemma SampleLength(points: seq<ControlPoint>, knots: seq<real>, samples: int)
    ensures |Samples(points, knots, samples)|
         == if Usable(points, knots) then SampleCount(samples, |points|) else |points|
    ensures |Samples(points, knots, samples)| >= |points|
  {
  }

  // ---- Convex hull -------------------------------------------------------------------------------

  /** The point lies in the half-plane a * east + b * north <= c. */
  predicate Within(east: real, north: real, a: real, b: real, c: real) {
    a * east + b * north <= c
  }

  /** A convex combination lies in every half-plane that holds all the points it really uses. The
      convex hull of finitely many points is the intersection of the half-planes that hold them. */
  lemma {:induction false} CombinationWithin(values: seq<real>, points: seq<ControlPoint>, a: real, b: real, c: real,
    k: nat)
    requires k <= |points| == |values| && NonNegative(values)
    requires forall i :: 0 <= i < |points| && values[i] > 0.0 ==> Within(points[i].east, points[i].north, a, b, c)
    ensures a * Combine(values, points, East, k) + b * Combine(values, points, North, k) <= c * Total(values, k)
  {
    if k == 0 {
    } else {
      CombinationWithin(values, points, a, b, c, k - 1);
      AddBounds(values[k - 1], a, b, c, points[k - 1].east, points[k - 1].north,
                Combine(values, points, East, k - 1), Combine(values, points, North, k - 1), Total(values, k - 1),
                Combine(values, points, East, k), Combine(values, points, North, k), Total(values, k));
    }
  }

  lemma AddBounds(v: real, a: real, b: real, c: real, e: real, n: real,
                  east: real, north: real, total: real, east': real, north': real, total': real)
    requires a * east + b * north <= c * total
    requires v >= 0.0 && (v > 0.0 ==> Within(e, n, a, b, c))
    requires east' == east + e * v && north' == north + n * v && total' == total + v
    ensures a * east' + b * north' <= c * total'
  {
    ScaleBound(v, a, b, c, e, n);
    assert a * (east + e * v) == a * east + a * (e * v);
    assert b * (north + n * v) == b * north + b * (n * v);
    assert c * (total + v) == c * total + c * v;
  }

  lemma ScaleBound(v: real, a: real, b: real, c: real, e: real, n: real)
    requires v >= 0.0 && (v > 0.0 ==> Within(e, n, a, b, c))
    ensures a * (e * v) + b * (n * v) <= c * v
  {
    if v > 0.0 {
      assert v * (a * e + b * n) <= v * c;
      assert v * (a * e + b * n) == a * (e * v) + b * (n * v);
    }
  }

  lemma PointWithin(points: seq<ControlPoint>, pulls: seq<real>, a: real, b: real, c: real)
    requires 0 < |points| == |pulls| && NonNegative(pulls)
    requires forall i :: 0 <= i < |points| && (Total(pulls, |points|) > 0.0 ==> pulls[i] != 0.0)
               ==> Within(points[i].east, points[i].north, a, b, c)
    ensures Within(PointAt(points, pulls).east, PointAt(points, pulls).north, a, b, c)
  {
    PointIsConvexCombination(points, pulls);
    CombinationWithin(Influence(pulls), points, a, b, c, |points|);
  }

  lemma PullsNonNegative(points: seq<ControlPoint>, knots: seq<real>, p: nat, u: real)
    requires Sorted(knots) && |points| + p <= |knots| && PositiveWeights(points)
    ensures NonNegative(Pulls(points, BasisAt(knots, |points|, p, u)))
  {
    var basis := BasisAt(knots, |points|, p, u);
    BasisNonNegative(knots, |points|, p, u);
    forall i | 0 <= i < |points| ensures basis[i] * points[i].weight >= 0.0 {
      ProductSign(basis[i], points[i].weight);
    }
  }

  lemma ProductSign(x: real, y: real)
    requires x >= 0.0 && y > 0.0
    ensures x * y >= 0.0 && (x == 0.0 <==> x * y == 0.0)
  {
  }

  /** Convex hull: a half-plane that holds every control point holds every sample, whichever branch
      the sampler takes and wherever the last parameter falls. */
  lemma SamplesInHull(points: seq<ControlPoint>, knots: seq<real>, samples: int, a: real, b: real, c: real)
    requires PositiveWeights(points)
    requires forall i :: 0 <= i < |points| ==> Within(points[i].east, points[i].north, a, b, c)
    ensures forall k :: 0 <= k < |Samples(points, knots, samples)| ==>
      Within(Samples(points, knots, samples)[k].east, Samples(points, knots, samples)[k].north, a, b, c)
  {
    if Usable(points, knots) {
      GuardsForceDegree(points, knots);
      forall k: nat ensures Within(SampleAt(points, knots, samples, k).east, SampleAt(points, knots, samples, k).north,
        a, b, c) {
        PullsNonNegative(points, knots, |knots| - |points| - 1, ParamOf(points, knots, samples, k));
        PointWithin(points, Pulls(points, BasisOf(points, knots, samples, k)), a, b, c);
      }
    }
  }

  /** The bounding box of the control points holds every sample. */
  lemma SamplesInBox(points: seq<ControlPoint>, knots: seq<real>, samples: int, lo: Offset, hi: Offset)
    requires PositiveWeights(points)
    requires forall i :: 0 <= i < |points| ==>
      lo.east <= points[i].east <= hi.east && lo.north <= points[i].north <= hi.north
    ensures forall o :: o in Samples(points, knots, samples) ==>
      lo.east <= o.east <= hi.east && lo.north <= o.north <= hi.north
  {
    SamplesInHull(points, knots, samples, 1.0, 0.0, hi.east);
    SamplesInHull(points, knots, samples, -1.0, 0.0, -lo.east);
    SamplesInHull(points, knots, samples, 0.0, 1.0, hi.north);
    SamplesInHull(points, knots, samples, 0.0, -1.0, -lo.north);
    forall o | o in Samples(points, knots, samples)
      ensures lo.east <= o.east <= hi.east && lo.north <= o.north <= hi.north
    {
      var k :| 0 <= k < |Samples(points, knots, samples)| && Samples(points, knots, samples)[k] == o;
      assert Within(o.east, o.north, 1.0, 0.0, hi.east) && Within(o.east, o.north, -1.0, 0.0, -lo.east);
      assert Within(o.east, o.north, 0.0, 1.0, hi.north) && Within(o.east, o.north, 0.0, -1.0, -lo.north);
    }
  }

  /** Local hull: in knot interval j of the span a curve point depends on control points
      j - p .. j only, and lies in their convex hull. */
  lemma PointInLocalHull(points: seq<ControlPoint>, knots: seq<real>, u: real, j: nat, a: real, b: real, c: real)
    requires Usable(points, knots) && PositiveWeights(points)
    requires var p := |knots| - |points| - 1; p <= j < |points| && knots[j] <= u < knots[j + 1]
    requires var p := |knots| - |points| - 1;
      forall i :: j - p <= i <= j ==> Within(points[i].east, points[i].north, a, b, c)
    ensures var o := PointAt(points, Pulls(points, BasisAt(knots, |points|, |knots| - |points| - 1, u)));
      Within(o.east, o.north, a, b, c)
  {
    var p := |knots| - |points| - 1;
    GuardsForceDegree(points, knots);
    var pulls := Pulls(points, BasisAt(knots, |points|, p, u));
    var least := LeastWeight(points);
    assert knots[p] <= knots[j] && knots[j + 1] <= knots[|points|];
    MassInSpan(points, knots, u, least);
    PullsNonNegative(points, knots, p, u);
    forall i | 0 <= i < |points| && pulls[i] != 0.0 ensures Within(points[i].east, points[i].north, a, b, c) {
      OutsideWindowNoPull(points, knots, p, j, u, i);
    }
    PointWithin(points, pulls, a, b, c);
  }

  lemma OutsideWindowNoPull(points: seq<ControlPoint>, knots: seq<real>, p: nat, j: nat, u: real, i: nat)
    requires Sorted(knots) && |knots| == |points| + p + 1 && j + 1 < |knots| && knots[j] <= u < knots[j + 1]
    requires i < |points|
    ensures Pulls(points, BasisAt(knots, |points|, p, u))[i] != 0.0 ==> j - p <= i <= j
  {
    ActiveWindow(knots, |points|, p, j, u);
  }

  lemma {:induction false} LeastWeight(points: seq<ControlPoint>) returns (least: real)
    requires 0 < |points| && PositiveWeights(points)
    ensures least > 0.0 && forall i :: 0 <= i < |points| ==> points[i].weight >= least
  {
    least := points[0].weight;
    for k := 1 to |points|
      invariant least > 0.0 && forall i :: 0 <= i < k ==> points[i].weight >= least
    {
      if points[k].weight < least {
        least := points[k].weight;
      }
    }
  }

  // ---- Translation ---------------------------------------------------------------------------------

  function Shift(points: seq<ControlPoint>, dx: real, dy: real): seq<ControlPoint> {
    seq(|points|, i requires 0 <= i < |points| =>
      ControlPoint(points[i].east + dx, points[i].north + dy, points[i].weight))
  }

  function Delta(axis: Axis, dx: real, dy: real): real { if axis.East? then dx else dy }

  lemma {:induction false} ShiftedSums(points: seq<ControlPoint>, pulls: seq<real>, dx: real, dy: real, axis: Axis,
    k: nat)
    requires k <= |points| == |pulls|
    ensures Combine(pulls, Shift(points, dx, dy), axis, k)
         == Combine(pulls, points, axis, k) + Delta(axis, dx, dy) * Total(pulls, k)
  {
    if k == 0 {
    } else {
      ShiftedSums(points, pulls, dx, dy, axis, k - 1);
      DistributeShift(points[k - 1].At(axis), Shift(points, dx, dy)[k - 1].At(axis), Delta(axis, dx, dy),
                      pulls[k - 1], Total(pulls, k - 1), Total(pulls, k));
    }
  }

  lemma DistributeShift(x: real, x': real, d: real, pull: real, m: real, m': real)
    requires x' == x + d && m' == m + pull
    ensures x' * pull == x * pull + d * pull && d * m' == d * m + d * pull
  {
  }

  lemma ShiftedPoint(points: seq<ControlPoint>, pulls: seq<real>, dx: real, dy: real)
    requires 0 < |points| == |pulls|
    ensures var o := PointAt(points, pulls);
      PointAt(Shift(points, dx, dy), pulls) == Offset(o.east + dx, o.north + dy)
  {
    var n, mass := |points|, Total(pulls, |points|);
    ShiftedSums(points, pulls, dx, dy, East, n);
    ShiftedSums(points, pulls, dx, dy, North, n);
    if mass > 0.0 {
      ShiftQuotient(Combine(pulls, points, East, n), Combine(pulls, Shift(points, dx, dy), East, n), dx, mass);
      ShiftQuotient(Combine(pulls, points, North, n), Combine(pulls, Shift(points, dx, dy), North, n), dy, mass);
    }
  }

  lemma ShiftQuotient(a: real, a': real, d: real, m: real)
    requires m > 0.0 && a' == a + d * m
    ensures a' / m == a / m + d
  {
    AddQuotients(a, d * m, a', m);
    UndoWeight(d, m);
  }

  lemma ShiftedPulls(points: seq<ControlPoint>, basis: seq<real>, dx: real, dy: real)
    requires |points| == |basis|
    ensures Pulls(Shift(points, dx, dy), basis) == Pulls(points, basis)
  {
    forall i | 0 <= i < |points| ensures Pulls(Shift(points, dx, dy), basis)[i] == Pulls(points, basis)[i] {
      assert Shift(points, dx, dy)[i].weight == points[i].weight;
    }
  }

  lemma ShiftedSample(points: seq<ControlPoint>, knots: seq<real>, samples: int, index: nat, dx: real, dy: real)
    requires Usable(points, knots)
    ensures var o := SampleAt(points, knots, samples, index);
      SampleAt(Shift(points, dx, dy), knots, samples, index) == Offset(o.east + dx, o.north + dy)
  {
    GuardsForceDegree(points, knots);
    var basis := BasisOf(points, knots, samples, index);
    ShiftedPulls(points, basis, dx, dy);
    ShiftedPoint(points, Pulls(points, basis), dx, dy);
  }

  /** Translating every control point translates every sample, with no condition on weights or knots. */
  lemma SamplesTranslate(points: seq<ControlPoint>, knots: seq<real>, samples: int, dx: real, dy: real)
    ensures |Samples(Shift(points, dx, dy), knots, samples)| == |Samples(points, knots, samples)|
    ensures forall k :: 0 <= k < |Samples(points, knots, samples)| ==>
      Samples(Shift(points, dx, dy), knots, samples)[k]
        == Offset(Samples(points, knots, samples)[k].east + dx, Samples(points, knots, samples)[k].north + dy)
  {
    if Usable(points, knots) {
      forall k: nat ensures SampleAt(Shift(points, dx, dy), knots, samples, k)
        == Offset(SampleAt(points, knots, samples, k).east + dx, SampleAt(points, knots, samples, k).north + dy)
      {
        ShiftedSample(points, knots, samples, k, dx, dy);
      }
    }
  }

  // ---- Clamped start ---------------------------------------------------------------------------------

  /** With knots[0] = knots[p] < knots[p+1] the first sample is exactly the first control point. */
  lemma ClampedFirstSample(points: seq<ControlPoint>, knots: seq<real>, samples: int)
    requires Usable(points, knots) && PositiveWeights(points)
    requires var p := |knots| - |points| - 1; knots[0] == knots[p] < knots[p + 1]
    ensures Samples(points, knots, samples)[0] == Offset(points[0].east, points[0].north)
  {
    GuardsForceDegree(points, knots);
    ClampedPulls(points, knots, samples);
    SolePullIsThePoint(points, Pulls(points, BasisOf(points, knots, samples, 0)));
  }

  lemma ClampedPulls(points: seq<ControlPoint>, knots: seq<real>, samples: int)
    requires Usable(points, knots)
    requires var p := |knots| - |points| - 1; knots[0] == knots[p] < knots[p + 1]
    ensures forall i :: 0 <= i < |points| ==>
      Pulls(points, BasisOf(points, knots, samples, 0))[i] == if i == 0 then points[0].weight else 0.0
  {
    var p := |knots| - |points| - 1;
    GuardsForceDegree(points, knots);
    FirstParam(knots[p], knots[|points|], SampleCount(samples, |points|));
    forall i | 0 <= i < |points| ensures CoxDeBoor(knots, i, p, knots[p]) == if i == 0 then 1.0 else 0.0 {
      ClampedStart(knots, p, i, p);
    }
  }

  lemma FirstParam(uStart: real, uEnd: real, count: nat)
    requires 2 <= count
    ensures Param(uStart, uEnd, count, 0) == uStart
  {
  }

  lemma SolePullIsThePoint(points: seq<ControlPoint>, pulls: seq<real>)
    requires 0 < |points| == |pulls| && pulls[0] > 0.0
    requires forall i :: 1 <= i < |pulls| ==> pulls[i] == 0.0
    ensures PointAt(points, pulls) == Offset(points[0].east, points[0].north)
  {
    FirstPullsAlone(points, pulls, East, |points|);
    FirstPullsAlone(points, pulls, North, |points|);
    UndoWeight(points[0].east, pulls[0]);
    UndoWeight(points[0].north, pulls[0]);
  }

  lemma {:induction false} FirstPullsAlone(points: seq<ControlPoint>, pulls: seq<real>, axis: Axis, k: nat)
    requires 1 <= k <= |points| == |pulls|
    requires forall i :: 1 <= i < |pulls| ==> pulls[i] == 0.0
    ensures Total(pulls, k) == pulls[0] && Combine(pulls, points, axis, k) == points[0].At(axis) * pulls[0]
  {
    if k > 1 {
      FirstPullsAlone(points, pulls, axis, k - 1);
    }
  }

  lemma UndoWeight(x: real, w: real)
    requires w > 0.0
    ensures x * w / w == x
  {
  }
}
