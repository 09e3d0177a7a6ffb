/** The B-spline basis of `domain/flight.py`, over exact reals.

    `CoxDeBoor` is the recursive evaluation; the lemmas are the classical facts about it on a
    non-decreasing knot vector, repeated knots (zero denominators) included: the basis is
    non-negative, locally supported, and sums to one on the valid span. */
module Basis {

  /** The guard the sampler applies to a knot vector: adjacent knots never decrease. */
  predicate NonDecreasing(knots: seq<real>) {
    forall i :: 0 <= i < |knots| - 1 ==> knots[i] <= knots[i + 1]
  }

  /** The same fact about any two knots, which is the form the proofs use. */
  ghost predicate Sorted(knots: seq<real>) {
    forall i, j :: 0 <= i <= j < |knots| ==> knots[i] <= knots[j]
  }

  lemma {:induction false} NonDecreasingIsSorted(knots: seq<real>)
    requires NonDecreasing(knots)
    ensures Sorted(knots)
  {
    forall i, j | 0 <= i <= j < |knots| ensures knots[i] <= knots[j] {
      KnotsOrdered(knots, i, j);
    }
  }

  lemma {:induction false} KnotsOrdered(knots: seq<real>, i: nat, j: nat)
    requires NonDecreasing(knots) && i <= j < |knots|
    ensures knots[i] <= knots[j]
    decreases j - i
  {
    if i < j {
      KnotsOrdered(knots, i, j - 1);
      assert knots[j - 1] <= knots[j - 1 + 1];
    }
  }

  /** One guarded term of the recursion: a repeated knot (zero denominator) contributes nothing. */
  function Share(num: real, denom: real, n: real): real {
    if denom != 0.0 then num / denom * n else 0.0
  }

  /** N_{index,degree}(u). The precondition is what keeps every knot access in bounds. */
  function CoxDeBoor(knots: seq<real>, index: nat, degree: nat, u: real): real
    requires index + degree < |knots|
    decreases degree
  {
    if degree == 0 then
      var upper := if index + 1 < |knots| then knots[index + 1] else knots[index];
      if knots[index] <= u < upper then 1.0 else 0.0
    else
      var left := Share(u - knots[index], knots[index + degree] - knots[index],
                        CoxDeBoor(knots, index, degree - 1, u));
      var right :=
        if index + degree + 1 < |knots|
        then Share(knots[index + degree + 1] - u, knots[index + degree + 1] - knots[index + 1],
                   CoxDeBoor(knots, index + 1, degree - 1, u))
        else 0.0;
      left + right
  }

  /** Upper end of the support of N_{index,degree}: the last knot it depends on. */
  function SupportEnd(knots: seq<real>, index: nat, degree: nat): real
    requires index + degree < |knots|
  {
    if index + degree + 1 < |knots| then knots[index + degree + 1] else knots[index + degree]
  }

  /** N is never negative, and is zero outside the half-open interval it is supported on. */
  lemma {:induction false} LocalSupport(knots: seq<real>, index: nat, degree: nat, u: real)
    requires Sorted(knots) && index + degree < |knots|
    ensures CoxDeBoor(knots, index, degree, u) >= 0.0
    ensures !(knots[index] <= u < SupportEnd(knots, index, degree)) ==> CoxDeBoor(knots, index, degree, u) == 0.0
    decreases degree
  {
    if degree > 0 {
      LocalSupport(knots, index, degree - 1, u);
      ShareSign(u - knots[index], knots[index + degree] - knots[index], CoxDeBoor(knots, index, degree - 1, u));
      if index + degree + 1 < |knots| {
        LocalSupport(knots, index + 1, degree - 1, u);
        ShareSign(knots[index + degree + 1] - u, knots[index + degree + 1] - knots[index + 1],
                  CoxDeBoor(knots, index + 1, degree - 1, u));
      }
    }
  }

  lemma ShareSign(num: real, denom: real, n: real)
    requires denom >= 0.0 && n >= 0.0
    ensures num >= 0.0 ==> Share(num, denom, n) >= 0.0
    ensures n == 0.0 || num == 0.0 ==> Share(num, denom, n) == 0.0
  {
    if denom > 0.0 && num >= 0.0 {
      assert num / denom >= 0.0;
    }
  }

  /** The term N_{index,degree} takes from its left neighbour one degree below. */
  function LeftTerm(knots: seq<real>, index: nat, degree: nat, u: real): real
    requires 1 <= degree && index + degree < |knots|
  {
    Share(u - knots[index], knots[index + degree] - knots[index], CoxDeBoor(knots, index, degree - 1, u))
  }

  /** The term N_{index,degree} takes from its right neighbour one degree below. */
  function RightTerm(knots: seq<real>, index: nat, degree: nat, u: real): real
    requires 1 <= degree && index + degree + 1 < |knots|
  {
    Share(knots[index + degree + 1] - u, knots[index + degree + 1] - knots[index + 1],
          CoxDeBoor(knots, index + 1, degree - 1, u))
  }

  /** Neighbouring functions split the one below them between them: the right term of one and the
      left term of the next add up to it. On a repeated knot both terms are dropped, and rightly,
      because the function below then has empty support. */
  lemma TermsShareNeighbour(knots: seq<real>, index: nat, degree: nat, u: real)
    requires Sorted(knots) && 1 <= degree && index + degree + 1 < |knots|
    ensures RightTerm(knots, index, degree, u) + LeftTerm(knots, index + 1, degree, u)
         == CoxDeBoor(knots, index + 1, degree - 1, u)
  {
    LocalSupport(knots, index + 1, degree - 1, u);
    ShareComplement(u, knots[index + 1], knots[index + degree + 1], CoxDeBoor(knots, index + 1, degree - 1, u));
  }

  lemma ShareComplement(u: real, lo: real, hi: real, n: real)
    requires lo == hi ==> n == 0.0
    ensures Share(hi - u, hi - lo, n) + Share(u - lo, hi - lo, n) == n
  {
    if lo != hi {
      QuotientsSumToOne(hi - u, u - lo, hi - lo);
      var x, y := (hi - u) / (hi - lo), (u - lo) / (hi - lo);
      assert x * n + y * n == (x + y) * n;
    }
  }

  lemma QuotientsSumToOne(a: real, b: real, d: real)
    requires d != 0.0 && a + b == d
    ensures a / d + b / d == 1.0
  {
    CancelFactor(a / d, 1.0 - b / d, d);
  }

  lemma CancelFactor(x: real, y: real, d: real)
    requires d != 0.0 && x * d == y * d
    ensures x == y
  {
    assert (x - y) * d == 0.0;
  }

  /** Sum of the degree-`degree` basis functions with index in [lo, hi). */
  function BasisSum(knots: seq<real>, lo: nat, hi: nat, degree: nat, u: real): real
    requires lo <= hi && hi + degree <= |knots|
    decreases hi - lo
  {
    if lo == hi then 0.0 else BasisSum(knots, lo, hi - 1, degree, u) + CoxDeBoor(knots, hi - 1, degree, u)
  }

  /** The telescoping step: summing the recursion over [lo, hi) leaves the full sum of the degree
      below over (lo, hi), plus the two end terms. */
  lemma {:induction false} Telescope(knots: seq<real>, lo: nat, hi: nat, degree: nat, u: real)
    requires Sorted(knots) && 1 <= degree && lo < hi && hi + degree < |knots|
    ensures BasisSum(knots, lo, hi, degree, u)
         == LeftTerm(knots, lo, degree, u) + BasisSum(knots, lo + 1, hi, degree - 1, u)
          + RightTerm(knots, hi - 1, degree, u)
    decreases hi - lo
  {
    assert CoxDeBoor(knots, hi - 1, degree, u)
        == LeftTerm(knots, hi - 1, degree, u) + RightTerm(knots, hi - 1, degree, u);
    if lo + 1 < hi {
      Telescope(knots, lo, hi - 1, degree, u);
      TermsShareNeighbour(knots, hi - 2, degree, u);
    }
  }

  /** Partition of unity on any index window [lo, hi) whose interior span contains u. */
  lemma {:induction false} WindowUnity(knots: seq<real>, lo: nat, hi: nat, degree: nat, u: real)
    requires Sorted(knots) && lo + degree < hi && hi + degree < |knots|
    requires knots[lo + degree] <= u < knots[hi]
    ensures BasisSum(knots, lo, hi, degree, u) == 1.0
    decreases degree
  {
    if degree == 0 {
      IndicatorSum(knots, lo, hi, u);
    } else {
      Telescope(knots, lo, hi, degree, u);
      EndTermsVanish(knots, lo, hi, degree, u);
      WindowUnity(knots, lo + 1, hi, degree - 1, u);
    }
  }

  lemma EndTermsVanish(knots: seq<real>, lo: nat, hi: nat, degree: nat, u: real)
    requires Sorted(knots) && 1 <= degree && lo < hi && hi + degree < |knots|
    requires knots[lo + degree] <= u < knots[hi]
    ensures LeftTerm(knots, lo, degree, u) == 0.0 && RightTerm(knots, hi - 1, degree, u) == 0.0
  {
    LocalSupport(knots, lo, degree - 1, u);
    LocalSupport(knots, hi, degree - 1, u);
    ShareSign(u - knots[lo], knots[lo + degree] - knots[lo], 0.0);
    ShareSign(knots[hi + degree] - u, knots[hi + degree] - knots[hi], 0.0);
  }

  /** Exactly one knot interval of a window contains u. */
  lemma {:induction false} IndicatorSum(knots: seq<real>, lo: nat, hi: nat, u: real)
    requires Sorted(knots) && lo <= hi < |knots| && knots[lo] <= u
    ensures BasisSum(knots, lo, hi, 0, u) == if u < knots[hi] then 1.0 else 0.0
    decreases hi - lo
  {
    if lo < hi {
      IndicatorSum(knots, lo, hi - 1, u);
    }
  }

  /** Partition of unity over all n control points, for every parameter of the valid span. */
  lemma PartitionOfUnity(knots: seq<real>, n: nat, p: nat, u: real)
    requires Sorted(knots) && |knots| == n + p + 1 && knots[p] <= u < knots[n]
    ensures BasisSum(knots, 0, n, p, u) == 1.0
    ensures forall i: nat :: i < n ==> CoxDeBoor(knots, i, p, u) >= 0.0
    ensures forall i: nat :: i < n && !(knots[i] <= u < knots[i + p + 1]) ==> CoxDeBoor(knots, i, p, u) == 0.0
  {
    assert p < n;
    WindowUnity(knots, 0, n, p, u);
    forall i: nat | i < n
      ensures CoxDeBoor(knots, i, p, u) >= 0.0
      ensures !(knots[i] <= u < knots[i + p + 1]) ==> CoxDeBoor(knots, i, p, u) == 0.0
    {
      LocalSupport(knots, i, p, u);
    }
  }

  /** In knot interval j only the p + 1 functions with index j - p .. j can be non-zero. */
  lemma ActiveWindow(knots: seq<real>, n: nat, p: nat, j: nat, u: real)
    requires Sorted(knots) && |knots| == n + p + 1 && j + 1 < |knots| && knots[j] <= u < knots[j + 1]
    ensures forall i: nat :: i < n && !(j - p <= i <= j) ==> CoxDeBoor(knots, i, p, u) == 0.0
  {
    forall i: nat | i < n && !(j - p <= i <= j) ensures CoxDeBoor(knots, i, p, u) == 0.0 {
      LocalSupport(knots, i, p, u);
    }
  }

  /** At a clamped start (knots[0] = ... = knots[p] < knots[p+1]) the function of index p - d is the
      only one of degree d with index <= p that does not vanish, and its value is 1. */
  lemma {:induction false} ClampedStart(knots: seq<real>, p: nat, index: nat, degree: nat)
    requires Sorted(knots) && p + 1 < |knots| && knots[0] == knots[p] < knots[p + 1]
    requires degree <= p && index + degree + 1 < |knots|
    ensures CoxDeBoor(knots, index, degree, knots[p]) == if index + degree == p then 1.0 else 0.0
    decreases degree
  {
    var u := knots[p];
    if index > p {
      LocalSupport(knots, index, degree, u);
    } else if degree > 0 {
      assert knots[0] <= knots[index] <= knots[p];
      ClampedStart(knots, p, index + 1, degree - 1);
      LocalSupport(knots, index, degree - 1, u);
      ShareSign(0.0, knots[index + degree] - knots[index], CoxDeBoor(knots, index, degree - 1, u));
      ShareComplement(u, knots[index + 1], knots[index + degree + 1], CoxDeBoor(knots, index + 1, degree - 1, u));
    }
  }
}
