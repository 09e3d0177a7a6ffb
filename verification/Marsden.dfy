/** The values of the basis, and through them of the curve: Marsden's identity, which only the true B-spline
    basis satisfies, and the exact curves it makes the sampler reproduce. */
module Marsden {
  import opened Basis
  import opened Curve
  import Hull

  /** (x - knots[first + 1]) * .. * (x - knots[first + count]). */
  function Dual(knots: seq<real>, first: nat, count: nat, x: real): real
    requires first + count < |knots|
  {
    if count == 0 then 1.0 else Dual(knots, first, count - 1, x) * (x - knots[first + count])
  }

  lemma {:induction false} DualFromFront(knots: seq<real>, first: nat, count: nat, x: real)
    requires first + count + 1 < |knots|
    ensures Dual(knots, first, count + 1, x) == (x - knots[first + 1]) * Dual(knots, first + 1, count, x)
  {
    if count == 0 {
      assert Dual(knots, first, 0, x) == 1.0;
    } else {
      DualFromFront(knots, first, count - 1, x);
      Reassociate(x - knots[first + 1], Dual(knots, first + 1, count - 1, x), x - knots[first + count + 1]);
    }
  }

  lemma Reassociate(a: real, b: real, c: real)
    ensures a * b * c == a * (b * c)
  {
  }

  function Power(a: real, n: nat): real {
    if n == 0 then 1.0 else a * Power(a, n - 1)
  }

  // ---- Sums ------------------------------------------------------------------------------------------------

  function Sum(f: nat -> real, lo: nat, hi: nat): real
    requires lo <= hi
    decreases hi - lo
  {
    if lo == hi then 0.0 else Sum(f, lo, hi - 1) + f(hi - 1)
  }

  /** Marks the index a proof is at, so that a fact about every index is used there alone. */
  ghost predicate Here(i: nat) { true }

  /** The split of a row: each value is its left and right term, and the outermost terms vanish. */
  ghost predicate Split(row: nat -> real, left: nat -> real, right: nat -> real, lo: nat, hi: nat) {
    && lo < hi && left(lo) == 0.0 && right(hi - 1) == 0.0
    && forall i: nat {:trigger Here(i)} :: Here(i) && lo <= i < hi ==> row(i) == left(i) + right(i)
  }

  /** Each right term and the next left term make up what is joined there. */
  ghost predicate Joins(left: nat -> real, right: nat -> real, joined: nat -> real, i: nat) {
    i >= 1 && right(i - 1) + left(i) == joined(i)
  }

  /** One degree down: a row that splits sums to what its neighbours join in. */
  lemma OneDegreeDown(row: nat -> real, left: nat -> real, right: nat -> real, joined: nat -> real, lo: nat, hi: nat)
    requires Split(row, left, right, lo, hi) && forall i: nat :: lo < i < hi ==> Joins(left, right, joined, i)
    ensures Sum(row, lo, hi) == Sum(joined, lo + 1, hi)
  {
    SumTelescopes(row, left, right, joined, lo, hi, hi);
  }

  lemma {:induction false} SumTelescopes(
    row: nat -> real, left: nat -> real, right: nat -> real, joined: nat -> real, lo: nat, hi: nat, k: nat)
    requires lo < k <= hi && Split(row, left, right, lo, hi)
    requires forall i: nat :: lo < i < hi ==> Joins(left, right, joined, i)
    ensures Sum(row, lo, k) == Sum(joined, lo + 1, k) + right(k - 1)
  {
    assert Here(k - 1);
    if k == lo + 1 {
      assert Sum(row, lo, lo) == 0.0 && Sum(joined, k, k) == 0.0;
    } else {
      assert Joins(left, right, joined, k - 1);
      SumTelescopes(row, left, right, joined, lo, hi, k - 1);
    }
  }

  /** A product under a name of its own: equal factors make equal products by congruence alone. */
  function Times(a: real, b: real): real { a * b }

  function Scaled(c: real, f: nat -> real): nat -> real {
    (i: nat) => c * f(i)
  }

  lemma {:induction false} SumScales(c: real, f: nat -> real, lo: nat, hi: nat)
    requires lo <= hi
    ensures Sum(Scaled(c, f), lo, hi) == Times(c, Sum(f, lo, hi))
    decreases hi - lo
  {
    if lo == hi {
    } else {
      SumScales(c, f, lo, hi - 1);
      Distribute(c, Sum(f, lo, hi - 1), f(hi - 1));
    }
  }

  lemma Distribute(a: real, b: real, c: real)
    ensures Times(a, b + c) == Times(a, b) + a * c
  {
  }

  lemma SplitTerm(c: real, whole: real, left: real, right: real)
    requires whole == left + right
    ensures c * whole == c * left + c * right
  {
  }

  function Basics(knots: seq<real>, degree: nat, u: real): nat -> real {
    (i: nat) => if i + degree < |knots| then CoxDeBoor(knots, i, degree, u) else 0.0
  }

  lemma {:induction false} SumOfBasics(knots: seq<real>, lo: nat, hi: nat, degree: nat, u: real)
    requires lo <= hi && hi + degree <= |knots|
    ensures Sum(Basics(knots, degree, u), lo, hi) == BasisSum(knots, lo, hi, degree, u)
    decreases hi - lo
  {
    if lo == hi {
    } else {
      SumOfBasics(knots, lo, hi - 1, degree, u);
    }
  }

  /** Each basis function times a coefficient of its own. */
  function Weighed(coefficient: nat -> real, basics: nat -> real): nat -> real {
    (i: nat) => coefficient(i) * basics(i)
  }

  function Lefts(knots: seq<real>, degree: nat, u: real): nat -> real
    requires 1 <= degree
  {
    (i: nat) => if i + degree < |knots| then LeftTerm(knots, i, degree, u) else 0.0
  }

  function Rights(knots: seq<real>, degree: nat, u: real): nat -> real
    requires 1 <= degree
  {
    (i: nat) => if i + degree + 1 < |knots| then RightTerm(knots, i, degree, u) else 0.0
  }

  /** Coefficients leave a split a split. */
  lemma WeighedSplit(
    coefficient: nat -> real, row: nat -> real, left: nat -> real, right: nat -> real, lo: nat, hi: nat)
    requires Split(row, left, right, lo, hi)
    ensures Split(Weighed(coefficient, row), Weighed(coefficient, left), Weighed(coefficient, right), lo, hi)
  {
    TimesNothing(coefficient(lo), left(lo));
    TimesNothing(coefficient(hi - 1), right(hi - 1));
    forall i: nat {:trigger Here(i)} | Here(i) && lo <= i < hi
      ensures coefficient(i) * row(i) == coefficient(i) * left(i) + coefficient(i) * right(i)
    {
      SplitTerm(coefficient(i), row(i), left(i), right(i));
    }
  }

  /** The basis on a window that holds u splits. */
  lemma BasicsSplit(knots: seq<real>, lo: nat, hi: nat, degree: nat, u: real)
    requires Sorted(knots) && 1 <= degree && lo < hi && hi + degree < |knots|
    requires knots[lo + degree] <= u < knots[hi]
    ensures Split(Basics(knots, degree, u), Lefts(knots, degree, u), Rights(knots, degree, u), lo, hi)
  {
    EndTermsVanish(knots, lo, hi, degree, u);
  }

  lemma TimesNothing(a: real, b: real)
    requires b == 0.0
    ensures a * b == 0.0
  {
  }

  // ---- Marsden's identity ------------------------------------------------------------------------------------

  function Duals(knots: seq<real>, degree: nat, x: real): nat -> real {
    (i: nat) => if i + degree < |knots| then Dual(knots, i, degree, x) else 0.0
  }

  /** The degree-`degree` functions with index in [lo, hi), each times its dual at x. */
  function DualSum(knots: seq<real>, lo: nat, hi: nat, degree: nat, u: real, x: real): real
    requires lo <= hi
  {
    Sum(Weighed(Duals(knots, degree, x), Basics(knots, degree, u)), lo, hi)
  }

  lemma Blend(u: real, a: real, b: real, n: real, q: real, x: real)
    requires a == b ==> n == 0.0
    ensures (x - a) * q * Share(b - u, b - a, n) + q * (x - b) * Share(u - a, b - a, n) == (x - u) * (q * n)
  {
    var r, s := Share(b - u, b - a, n), Share(u - a, b - a, n);
    SharesCentre(u, a, b, n);
    Bilinear(x, a, b, q, r, s);
    assert x * (r + s) - (a * r + b * s) == (x - u) * n;
    Reassociate(x - u, q, n);
    Reassociate(q, x - u, n);
  }

  lemma Bilinear(x: real, a: real, b: real, q: real, r: real, s: real)
    ensures (x - a) * q * r + q * (x - b) * s == q * (x * (r + s) - (a * r + b * s))
  {
  }

  /** The shares are where the parameter stands between the two knots. */
  lemma SharesCentre(u: real, a: real, b: real, n: real)
    requires a == b ==> n == 0.0
    ensures Share(b - u, b - a, n) + Share(u - a, b - a, n) == n
    ensures a * Share(b - u, b - a, n) + b * Share(u - a, b - a, n) == u * n
  {
    var r, s := Share(b - u, b - a, n), Share(u - a, b - a, n);
    ShareComplement(u, a, b, n);
    if a != b {
      ShareUndone(u - a, b - a, n);
      assert a * r + b * s == a * (r + s) + s * (b - a);
    }
  }

  lemma ShareUndone(num: real, denom: real, n: real)
    requires denom != 0.0
    ensures Share(num, denom, n) * denom == num * n
  {
    assert num / denom * n * denom == num / denom * denom * n;
  }

  /** Where the lower function can be non-zero its two outer knots differ. */
  lemma NoAverage(knots: seq<real>, index: nat, degree: nat, u: real)
    requires Sorted(knots) && 1 <= degree && index + degree + 1 < |knots|
    ensures knots[index + 1] == knots[index + degree + 1] ==> CoxDeBoor(knots, index + 1, degree - 1, u) == 0.0
  {
    LocalSupport(knots, index + 1, degree - 1, u);
  }

  /** The two terms that neighbours take, at index i, from the row n below them. */
  ghost predicate Shares(
    knots: seq<real>, degree: nat, u: real, n: nat -> real, left: nat -> real, right: nat -> real, i: nat)
  {
    && 1 <= i && i + degree < |knots| && (knots[i] == knots[i + degree] ==> n(i) == 0.0)
    && right(i - 1) == Share(knots[i + degree] - u, knots[i + degree] - knots[i], n(i))
    && left(i) == Share(u - knots[i], knots[i + degree] - knots[i], n(i))
  }

  lemma BasicsShare(knots: seq<real>, i: nat, degree: nat, u: real)
    requires Sorted(knots) && 1 <= degree && 1 <= i && i + degree < |knots|
    ensures Shares(knots, degree, u, Basics(knots, degree - 1, u), Lefts(knots, degree, u), Rights(knots, degree, u), i)
  {
    NoAverage(knots, i - 1, degree, u);
  }

  lemma AllShare(
    knots: seq<real>, lo: nat, hi: nat, degree: nat, u: real, n: nat -> real, left: nat -> real, right: nat -> real)
    requires Sorted(knots) && 1 <= degree && hi + degree < |knots|
    requires n == Basics(knots, degree - 1, u) && left == Lefts(knots, degree, u) && right == Rights(knots, degree, u)
    ensures forall i: nat :: lo < i < hi ==> Shares(knots, degree, u, n, left, right, i)
  {
    forall i: nat | lo < i < hi ensures Shares(knots, degree, u, n, left, right, i) {
      BasicsShare(knots, i, degree, u);
    }
  }

  /** How two neighbours' duals follow from the one below them: a factor at either end. */
  ghost predicate Factors(knots: seq<real>, degree: nat, x: real, dual: nat -> real, lower: nat -> real, i: nat) {
    && 1 <= i && i + degree < |knots|
    && dual(i - 1) == (x - knots[i]) * lower(i) && dual(i) == lower(i) * (x - knots[i + degree])
  }

  lemma DualsFactor(knots: seq<real>, i: nat, degree: nat, x: real)
    requires 1 <= degree && 1 <= i && i + degree < |knots|
    ensures Factors(knots, degree, x, Duals(knots, degree, x), Duals(knots, degree - 1, x), i)
  {
    DualFromFront(knots, i - 1, degree - 1, x);
  }

  lemma AllFactor(
    knots: seq<real>, lo: nat, hi: nat, degree: nat, x: real, dual: nat -> real, lower: nat -> real)
    requires 1 <= degree && hi + degree < |knots|
    requires dual == Duals(knots, degree, x) && lower == Duals(knots, degree - 1, x)
    ensures forall i: nat :: lo < i < hi ==> Factors(knots, degree, x, dual, lower, i)
  {
    forall i: nat | lo < i < hi ensures Factors(knots, degree, x, dual, lower, i) {
      DualsFactor(knots, i, degree, x);
    }
  }

  /** Two neighbours' terms in the function below them, each under its own dual, make x - u times that
      function under its dual. */
  lemma DualsJoin(
    knots: seq<real>, i: nat, degree: nat, u: real, x: real, gap: real, dual: nat -> real, lower: nat -> real,
    n: nat -> real, left: nat -> real, right: nat -> real)
    requires gap == x - u
    requires Factors(knots, degree, x, dual, lower, i) && Shares(knots, degree, u, n, left, right, i)
    ensures Joins(Weighed(dual, left), Weighed(dual, right), Scaled(gap, Weighed(lower, n)), i)
  {
    Blended(u, knots[i], knots[i + degree], n(i), lower(i), x, dual(i - 1), dual(i), right(i - 1), left(i));
  }

  lemma Blended(u: real, a: real, b: real, n: real, q: real, x: real, below: real, above: real, r: real, l: real)
    requires a == b ==> n == 0.0
    requires below == (x - a) * q && above == q * (x - b)
    requires r == Share(b - u, b - a, n) && l == Share(u - a, b - a, n)
    ensures below * r + above * l == (x - u) * (q * n)
  {
    Blend(u, a, b, n, q, x);
  }

  /** One degree down, the sum of a row under its duals loses a factor x - u. */
  lemma RowDown(
    knots: seq<real>, lo: nat, hi: nat, degree: nat, u: real, x: real, gap: real, dual: nat -> real,
    lower: nat -> real, row: nat -> real, n: nat -> real, left: nat -> real, right: nat -> real)
    requires gap == x - u && Split(row, left, right, lo, hi)
    requires forall i: nat :: lo < i < hi ==> Factors(knots, degree, x, dual, lower, i)
    requires forall i: nat :: lo < i < hi ==> Shares(knots, degree, u, n, left, right, i)
    ensures Sum(Weighed(dual, row), lo, hi) == Times(gap, Sum(Weighed(lower, n), lo + 1, hi))
  {
    var joined := Scaled(gap, Weighed(lower, n));
    WeighedSplit(dual, row, left, right, lo, hi);
    forall i: nat | lo < i < hi
      ensures Joins(Weighed(dual, left), Weighed(dual, right), joined, i)
    {
      DualsJoin(knots, i, degree, u, x, gap, dual, lower, n, left, right);
    }
    OneDegreeDown(Weighed(dual, row), Weighed(dual, left), Weighed(dual, right), joined, lo, hi);
    SumScales(gap, Weighed(lower, n), lo + 1, hi);
  }

  lemma BasisDown(
    knots: seq<real>, lo: nat, hi: nat, degree: nat, u: real, x: real, gap: real, dual: nat -> real,
    lower: nat -> real, row: nat -> real, n: nat -> real)
    requires gap == x - u && Sorted(knots) && 1 <= degree && lo < hi && hi + degree < |knots|
    requires knots[lo + degree] <= u < knots[hi]
    requires dual == Duals(knots, degree, x) && lower == Duals(knots, degree - 1, x)
    requires row == Basics(knots, degree, u) && n == Basics(knots, degree - 1, u)
    ensures Sum(Weighed(dual, row), lo, hi) == Times(gap, Sum(Weighed(lower, n), lo + 1, hi))
  {
    var left, right := Lefts(knots, degree, u), Rights(knots, degree, u);
    BasicsSplit(knots, lo, hi, degree, u);
    AllShare(knots, lo, hi, degree, u, n, left, right);
    AllFactor(knots, lo, hi, degree, x, dual, lower);
    RowDown(knots, lo, hi, degree, u, x, gap, dual, lower, row, n, left, right);
  }

  lemma PowerOfOneMore(a: real, degree: nat, below: real, whole: real)
    requires degree >= 1 && below == Power(a, degree - 1) && whole == Times(a, below)
    ensures whole == Power(a, degree)
  {
  }

  /** Of degree 0 the duals are 1. */
  lemma NothingWeighed(knots: seq<real>, lo: nat, hi: nat, u: real, x: real)
    requires Sorted(knots) && lo < hi < |knots| && knots[lo] <= u < knots[hi]
    ensures Sum(Weighed(Duals(knots, 0, x), Basics(knots, 0, u)), lo, hi) == 1.0
  {
    forall i: nat {:trigger Here(i)} | Here(i) && lo <= i < hi
      ensures Duals(knots, 0, x)(i) == 1.0
    {
      assert Dual(knots, i, 0, x) == 1.0;
    }
    SumOfAlike(Duals(knots, 0, x), Basics(knots, 0, u), 1.0, lo, hi);
    SumOfBasics(knots, lo, hi, 0, u);
    IndicatorSum(knots, lo, hi, u);
  }

  lemma {:induction false} SumOfAlike(coefficient: nat -> real, f: nat -> real, c: real, lo: nat, hi: nat)
    requires lo <= hi && forall i: nat {:trigger Here(i)} :: Here(i) && lo <= i < hi ==> coefficient(i) == c
    ensures Sum(Weighed(coefficient, f), lo, hi) == Times(c, Sum(f, lo, hi))
    decreases hi - lo
  {
    if lo == hi {
    } else {
      assert Here(hi - 1);
      SumOfAlike(coefficient, f, c, lo, hi - 1);
      Distribute(c, Sum(f, lo, hi - 1), f(hi - 1));
    }
  }

  lemma {:induction false} MarsdenOnWindow(
    knots: seq<real>, lo: nat, hi: nat, degree: nat, u: real, x: real, gap: real, dual: nat -> real,
    row: nat -> real)
    requires gap == x - u && Sorted(knots) && lo + degree < hi && hi + degree < |knots|
    requires knots[lo + degree] <= u < knots[hi]
    requires dual == Duals(knots, degree, x) && row == Basics(knots, degree, u)
    ensures Sum(Weighed(dual, row), lo, hi) == Power(gap, degree)
    decreases degree
  {
    if degree == 0 {
      NothingWeighed(knots, lo, hi, u, x);
    } else {
      var lower, n := Duals(knots, degree - 1, x), Basics(knots, degree - 1, u);
      BasisDown(knots, lo, hi, degree, u, x, gap, dual, lower, row, n);
      MarsdenOnWindow(knots, lo + 1, hi, degree - 1, u, x, gap, lower, n);
      PowerOfOneMore(gap, degree, Sum(Weighed(lower, n), lo + 1, hi), Sum(Weighed(dual, row), lo, hi));
    }
  }

  /** Marsden's identity: for every x, the basis under its duals at x sums to (x - u) to the degree. */
  lemma MarsdensIdentity(knots: seq<real>, n: nat, p: nat, u: real, x: real)
    requires Sorted(knots) && |knots| == n + p + 1 && knots[p] <= u < knots[n]
    ensures DualSum(knots, 0, n, p, u, x) == Power(x - u, p)
  {
    MarsdenOnWindow(knots, 0, n, p, u, x, x - u, Duals(knots, p, x), Basics(knots, p, u));
  }

  // ---- Linear precision ------------------------------------------------------------------------------------

  /** knots[first + 1] + .. + knots[first + count]. */
  function KnotSum(knots: seq<real>, first: nat, count: nat): real
    requires first + count < |knots|
  {
    if count == 0 then 0.0 else KnotSum(knots, first, count - 1) + knots[first + count]
  }

  lemma {:induction false} KnotSumFromFront(knots: seq<real>, first: nat, count: nat)
    requires first + count + 1 < |knots|
    ensures KnotSum(knots, first, count + 1) == knots[first + 1] + KnotSum(knots, first + 1, count)
  {
    if count == 0 {
      assert KnotSum(knots, first, 0) == 0.0;
    } else {
      KnotSumFromFront(knots, first, count - 1);
    }
  }

  function KnotSums(knots: seq<real>, degree: nat): nat -> real {
    (i: nat) => if i + degree < |knots| then KnotSum(knots, i, degree) else 0.0
  }

  lemma Average(u: real, a: real, b: real, n: real, k: real)
    requires a == b ==> n == 0.0
    ensures (a + k) * Share(b - u, b - a, n) + (k + b) * Share(u - a, b - a, n) == k * n + u * n
  {
    var r, s := Share(b - u, b - a, n), Share(u - a, b - a, n);
    SharesCentre(u, a, b, n);
    assert (a + k) * r + (k + b) * s == k * (r + s) + (a * r + b * s);
  }

  /** How two neighbours' knot sums follow from the one below them: a knot at either end. */
  ghost predicate Ends(knots: seq<real>, degree: nat, sums: nat -> real, lower: nat -> real, i: nat) {
    && 1 <= i && i + degree < |knots|
    && sums(i - 1) == knots[i] + lower(i) && sums(i) == lower(i) + knots[i + degree]
  }

  lemma KnotSumsGainEnds(knots: seq<real>, i: nat, degree: nat)
    requires 1 <= degree && 1 <= i && i + degree < |knots|
    ensures Ends(knots, degree, KnotSums(knots, degree), KnotSums(knots, degree - 1), i)
  {
    KnotSumFromFront(knots, i - 1, degree - 1);
  }

  function Gained(lower: nat -> real, n: nat -> real, u: real): nat -> real {
    (i: nat) => lower(i) * n(i) + u * n(i)
  }

  lemma KnotSumsJoin(
    knots: seq<real>, i: nat, degree: nat, u: real, sums: nat -> real, lower: nat -> real,
    n: nat -> real, left: nat -> real, right: nat -> real)
    requires Ends(knots, degree, sums, lower, i) && Shares(knots, degree, u, n, left, right, i)
    ensures Joins(Weighed(sums, left), Weighed(sums, right), Gained(lower, n, u), i)
  {
    Average(u, knots[i], knots[i + degree], n(i), lower(i));
  }

  /** One degree down, the sum of a row under its knot sums loses the parameter once. */
  lemma RowGainsParameter(
    knots: seq<real>, lo: nat, hi: nat, degree: nat, u: real, sums: nat -> real, lower: nat -> real,
    row: nat -> real, n: nat -> real, left: nat -> real, right: nat -> real)
    requires Split(row, left, right, lo, hi) && Sum(n, lo + 1, hi) == 1.0
    requires forall i: nat :: lo < i < hi ==> Ends(knots, degree, sums, lower, i)
    requires forall i: nat :: lo < i < hi ==> Shares(knots, degree, u, n, left, right, i)
    ensures Sum(Weighed(sums, row), lo, hi) == Sum(Weighed(lower, n), lo + 1, hi) + u
  {
    var joined := Gained(lower, n, u);
    WeighedSplit(sums, row, left, right, lo, hi);
    forall i: nat | lo < i < hi
      ensures Joins(Weighed(sums, left), Weighed(sums, right), joined, i)
    {
      KnotSumsJoin(knots, i, degree, u, sums, lower, n, left, right);
    }
    OneDegreeDown(Weighed(sums, row), Weighed(sums, left), Weighed(sums, right), joined, lo, hi);
    SumOfBoth(lower, n, u, lo + 1, hi);
  }

  lemma {:induction false} SumOfBoth(lower: nat -> real, n: nat -> real, u: real, lo: nat, hi: nat)
    requires lo <= hi
    ensures Sum(Gained(lower, n, u), lo, hi) == Sum(Weighed(lower, n), lo, hi) + Times(u, Sum(n, lo, hi))
    decreases hi - lo
  {
    if lo == hi {
    } else {
      SumOfBoth(lower, n, u, lo, hi - 1);
      Distribute(u, Sum(n, lo, hi - 1), n(hi - 1));
    }
  }

  lemma BasicsUnity(knots: seq<real>, lo: nat, hi: nat, degree: nat, u: real)
    requires Sorted(knots) && lo + degree < hi && hi + degree < |knots|
    requires knots[lo + degree] <= u < knots[hi]
    ensures Sum(Basics(knots, degree, u), lo, hi) == 1.0
  {
    SumOfBasics(knots, lo, hi, degree, u);
    WindowUnity(knots, lo, hi, degree, u);
  }

  /** Sums of knots, each under its function. */
  function KnotSumSum(knots: seq<real>, lo: nat, hi: nat, degree: nat, u: real): real
    requires lo <= hi
  {
    Sum(Weighed(KnotSums(knots, degree), Basics(knots, degree, u)), lo, hi)
  }

  lemma KnotSumSumDown(knots: seq<real>, lo: nat, hi: nat, degree: nat, u: real)
    requires Sorted(knots) && 1 <= degree && lo + degree < hi && hi + degree < |knots|
    requires knots[lo + degree] <= u < knots[hi]
    ensures KnotSumSum(knots, lo, hi, degree, u) == KnotSumSum(knots, lo + 1, hi, degree - 1, u) + u
  {
    var sums, lower, n := KnotSums(knots, degree), KnotSums(knots, degree - 1), Basics(knots, degree - 1, u);
    var row, left, right := Basics(knots, degree, u), Lefts(knots, degree, u), Rights(knots, degree, u);
    BasicsSplit(knots, lo, hi, degree, u);
    AllShare(knots, lo, hi, degree, u, n, left, right);
    forall i: nat | lo < i < hi ensures Ends(knots, degree, sums, lower, i) {
      KnotSumsGainEnds(knots, i, degree);
    }
    BasicsUnity(knots, lo + 1, hi, degree - 1, u);
    RowGainsParameter(knots, lo, hi, degree, u, sums, lower, row, n, left, right);
  }

  lemma NoKnots(knots: seq<real>, lo: nat, hi: nat, u: real)
    requires lo <= hi
    ensures KnotSumSum(knots, lo, hi, 0, u) == 0.0
  {
    forall i: nat {:trigger Here(i)} | Here(i) && lo <= i < hi
      ensures KnotSums(knots, 0)(i) == 0.0
    {
    }
    SumOfAlike(KnotSums(knots, 0), Basics(knots, 0, u), 0.0, lo, hi);
  }

  function Repeated(u: real, times: nat): real {
    if times == 0 then 0.0 else Repeated(u, times - 1) + u
  }

  lemma {:induction false} KnotSumsRepeat(knots: seq<real>, lo: nat, hi: nat, degree: nat, u: real)
    requires Sorted(knots) && lo + degree < hi && hi + degree < |knots|
    requires knots[lo + degree] <= u < knots[hi]
    ensures KnotSumSum(knots, lo, hi, degree, u) == Repeated(u, degree)
    decreases degree
  {
    if degree == 0 {
      NoKnots(knots, lo, hi, u);
    } else {
      KnotSumSumDown(knots, lo, hi, degree, u);
      KnotSumsRepeat(knots, lo + 1, hi, degree - 1, u);
    }
  }

  lemma {:induction false} RepeatedIsProduct(u: real, times: nat)
    ensures Repeated(u, times) == times as real * u
  {
    if times == 0 {
    } else {
      RepeatedIsProduct(u, times - 1);
      assert times as real * u == (times - 1) as real * u + u;
    }
  }

  /** Knot averages reproduce the parameter: with coefficients (knots[i+1] + .. + knots[i+p]) / p the basis
      sums to u. Stated without the division. */
  lemma LinearPrecision(knots: seq<real>, n: nat, p: nat, u: real)
    requires Sorted(knots) && |knots| == n + p + 1 && knots[p] <= u < knots[n]
    ensures KnotSumSum(knots, 0, n, p, u) == p as real * u
  {
    KnotSumsRepeat(knots, 0, n, p, u);
    RepeatedIsProduct(u, p);
  }

  // ---- What the sampler reproduces exactly -------------------------------------------------------------------

  /** The weights are the duals at x. */
  ghost predicate WeighsAs(points: seq<ControlPoint>, knots: seq<real>, p: nat, x: real) {
    |points| + p < |knots| && forall i :: 0 <= i < |points| ==> points[i].weight == Dual(knots, i, p, x)
  }

  /** The coordinates, each times its weight, are the duals at y. */
  ghost predicate CarriesAs(points: seq<ControlPoint>, knots: seq<real>, p: nat, axis: Axis, y: real) {
    && |points| + p < |knots|
    && forall i :: 0 <= i < |points| ==> points[i].At(axis) * points[i].weight == Dual(knots, i, p, y)
  }

  /** The loop's basis values are the row's. */
  ghost predicate Spells(basis: seq<real>, row: nat -> real) {
    forall i: nat {:trigger Here(i)} :: Here(i) && i < |basis| ==> basis[i] == row(i)
  }

  lemma {:induction false} TotalOfPulls(
    points: seq<ControlPoint>, basis: seq<real>, row: nat -> real, dual: nat -> real, k: nat)
    requires k <= |points| == |basis| && Spells(basis, row)
    requires forall i: nat {:trigger Here(i)} :: Here(i) && i < |points| ==> points[i].weight == dual(i)
    ensures Total(Pulls(points, basis), k) == Sum(Weighed(dual, row), 0, k)
  {
    if k == 0 {
    } else {
      assert Here(k - 1);
      TotalOfPulls(points, basis, row, dual, k - 1);
    }
  }

  lemma {:induction false} CombineOfPulls(
    points: seq<ControlPoint>, basis: seq<real>, axis: Axis, row: nat -> real, dual: nat -> real, k: nat)
    requires k <= |points| == |basis| && Spells(basis, row)
    requires forall i: nat {:trigger Here(i)} ::
      Here(i) && i < |points| ==> points[i].At(axis) * points[i].weight == dual(i)
    ensures Combine(Pulls(points, basis), points, axis, k) == Sum(Weighed(dual, row), 0, k)
  {
    if k == 0 {
    } else {
      assert Here(k - 1);
      PullIsDual(basis[k - 1], points[k - 1].weight, points[k - 1].At(axis), dual(k - 1));
      CombineOfPulls(points, basis, axis, row, dual, k - 1);
    }
  }

  lemma AxisIsDualSum(points: seq<ControlPoint>, knots: seq<real>, p: nat, u: real, axis: Axis, y: real)
    requires CarriesAs(points, knots, p, axis, y)
    ensures Combine(Pulls(points, BasisAt(knots, |points|, p, u)), points, axis, |points|)
         == DualSum(knots, 0, |points|, p, u, y)
  {
    CombineOfPulls(points, BasisAt(knots, |points|, p, u), axis, Basics(knots, p, u), Duals(knots, p, y), |points|);
  }

  lemma MassIsDualSum(points: seq<ControlPoint>, knots: seq<real>, p: nat, u: real, x: real)
    requires WeighsAs(points, knots, p, x)
    ensures Total(Pulls(points, BasisAt(knots, |points|, p, u)), |points|) == DualSum(knots, 0, |points|, p, u, x)
  {
    TotalOfPulls(points, BasisAt(knots, |points|, p, u), Basics(knots, p, u), Duals(knots, p, x), |points|);
  }

  lemma PullIsDual(n: real, w: real, a: real, dual: real)
    requires a * w == dual
    ensures a * (n * w) == dual * n
  {
  }

  /** Every point the loop returns on such a curve is the rational point it should be: east is
      ((y - u) / (x - u)) to the degree and north ((z - u) / (x - u)) to the degree. So basis, weights and
      coordinates each enter exactly as they must. */
  lemma RationalCurveReproduced(points: seq<ControlPoint>, knots: seq<real>, p: nat, u: real, x: real, y: real, z: real)
    requires Usable(points, knots) && PositiveWeights(points) && p == |knots| - |points| - 1
    requires WeighsAs(points, knots, p, x) && CarriesAs(points, knots, p, East, y)
    requires CarriesAs(points, knots, p, North, z)
    requires knots[p] <= u < knots[|points|]
    ensures 0 < |points| && Power(x - u, p) > 0.0
    ensures PointAt(points, Pulls(points, BasisAt(knots, |points|, p, u)))
         == Offset(Power(y - u, p) / Power(x - u, p), Power(z - u, p) / Power(x - u, p))
  {
    GuardsForceDegree(points, knots);
    MassIsDualSum(points, knots, p, u, x);
    AxisIsDualSum(points, knots, p, u, East, y);
    AxisIsDualSum(points, knots, p, u, North, z);
    MarsdensIdentity(knots, |points|, p, u, x);
    MarsdensIdentity(knots, |points|, p, u, y);
    MarsdensIdentity(knots, |points|, p, u, z);
    var least := Hull.LeastWeight(points);
    MassInSpan(points, knots, u, least);
  }

  /** So is every sample of such a curve, at the parameter it is taken at. */
  lemma SampledCurveReproduced(
    points: seq<ControlPoint>, knots: seq<real>, p: nat, samples: int, x: real, y: real, z: real, i: nat)
    returns (u: real)
    requires Usable(points, knots) && PositiveWeights(points) && p == |knots| - |points| - 1
    requires knots[|points|] - knots[p] >= 0.000000000001 && (i < |points| || i < samples)
    requires WeighsAs(points, knots, p, x) && CarriesAs(points, knots, p, East, y)
    requires CarriesAs(points, knots, p, North, z)
    ensures TakenAt(knots[p], knots[|points|], if samples < |points| then |points| else samples, i, u)
    ensures i < |Samples(points, knots, samples)| && Power(x - u, p) > 0.0
    ensures Samples(points, knots, samples)[i]
         == Offset(Power(y - u, p) / Power(x - u, p), Power(z - u, p) / Power(x - u, p))
  {
    u := SampledExactly(points, knots, p, samples, i);
    RationalCurveReproduced(points, knots, p, u, x, y, z);
  }
}
