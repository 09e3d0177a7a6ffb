/** The altitude envelope on its 0.1 m grid: `_quantize_m`, `_outside_rel_envelope`, and how the
    bound the vehicle advertises survives the operator's rounding. */
module Envelope {

  /** Round to the nearest integer, ties to the even one. */
  function RoundHalfEven(x: real): int {
    var low := x.Floor;
    var over := x - low as real;
    if over < 0.5 || (over == 0.5 && low % 2 == 0) then low else low + 1
  }

  /** Metres on the 0.1 m grid. */
  function Quantize(metres: real): real {
    RoundHalfEven(metres * 10.0) as real / 10.0
  }

  predicate OutsideRelEnvelope(rel: real, min: real, max: real) {
    Quantize(rel) < Quantize(min) || Quantize(rel) > Quantize(max)
  }

  /** Exactly which reals round to k or above, and to k or below. */
  lemma RoundsTo(x: real, k: int)
    ensures RoundHalfEven(x) >= k <==> (x > k as real - 0.5 || (x == k as real - 0.5 && k % 2 == 0))
    ensures RoundHalfEven(x) <= k <==> (x < k as real + 0.5 || (x == k as real + 0.5 && k % 2 == 0))
  {
    var low := x.Floor;
    if low == k - 1 {
      assert (x == k as real - 0.5) <==> (x - low as real == 0.5);
      assert k % 2 == 0 <==> low % 2 == 1;
    }
  }

  lemma RoundMonotone(x: real, y: real)
    requires x <= y
    ensures RoundHalfEven(x) <= RoundHalfEven(y)
  {
    RoundsTo(x, RoundHalfEven(x));
    RoundsTo(y, RoundHalfEven(x));
  }

  /** The flyable set, exactly: the two grid bounds widened by half a grid step, a half-step edge
      itself belonging to the set only when its bound is an even number of tenths. */
  lemma FlyableExactly(rel: real, min: real, max: real)
    ensures var lo, hi := RoundHalfEven(min * 10.0), RoundHalfEven(max * 10.0);
      !OutsideRelEnvelope(rel, min, max) <==>
        && (rel * 10.0 > lo as real - 0.5 || (rel * 10.0 == lo as real - 0.5 && lo % 2 == 0))
        && (rel * 10.0 < hi as real + 0.5 || (rel * 10.0 == hi as real + 0.5 && hi % 2 == 0))
  {
    RoundsTo(rel * 10.0, RoundHalfEven(min * 10.0));
    RoundsTo(rel * 10.0, RoundHalfEven(max * 10.0));
  }

  /** Every altitude in the band is accepted, and every accepted one is within 0.1 m of the band. */
  lemma BandAccepted(rel: real, min: real, max: real)
    ensures min <= rel <= max ==> !OutsideRelEnvelope(rel, min, max)
    ensures !OutsideRelEnvelope(rel, min, max) ==> min - 0.1 <= rel <= max + 0.1
  {
    if min <= rel <= max {
      RoundMonotone(min * 10.0, rel * 10.0);
      RoundMonotone(rel * 10.0, max * 10.0);
    }
    RoundsTo(min * 10.0, RoundHalfEven(min * 10.0));
    RoundsTo(max * 10.0, RoundHalfEven(max * 10.0));
    FlyableExactly(rel, min, max);
  }

  // ---- The advertised bound --------------------------------------------------------------------
  //
  // Home altitude arrives in whole millimetres and a limit is a whole number of tenths, so the bound
  // home + limit is a whole number of millimetres and its three-decimal text carries it exactly. The
  // operator's display then rounds it to a whole number of tenths.

  function AdvertisedMm(homeMm: int, limitTenths: int): int {
    homeMm + 100 * limitTenths
  }

  /** `tenths` is a nearest tenth of a metre; both neighbours are, on a tie. */
  predicate NearestTenth(tenths: int, mm: int) {
    -50 <= 100 * tenths - mm <= 50
  }

  /** Height above home, in metres, of an altitude given in tenths. */
  function RelOf(tenths: int, homeMm: int): real {
    (100 * tenths - homeMm) as real / 1000.0
  }

  predicate Flyable(tenths: int, homeMm: int, loTenths: int, hiTenths: int) {
    !OutsideRelEnvelope(RelOf(tenths, homeMm), loTenths as real / 10.0, hiTenths as real / 10.0)
  }

  /** In whole millimetres: heights that round to grid value k or above, and to k or below. */
  predicate Reaches(mm: int, k: int) {
    mm > 100 * k - 50 || (mm == 100 * k - 50 && k % 2 == 0)
  }

  predicate Stays(mm: int, k: int) {
    mm < 100 * k + 50 || (mm == 100 * k + 50 && k % 2 == 0)
  }

  lemma RelRoundsTo(t: int, homeMm: int, k: int)
    ensures RoundHalfEven(RelOf(t, homeMm) * 10.0) >= k <==> Reaches(100 * t - homeMm, k)
    ensures RoundHalfEven(RelOf(t, homeMm) * 10.0) <= k <==> Stays(100 * t - homeMm, k)
  {
    RelTenths(t, homeMm);
    RoundsTo(RelOf(t, homeMm) * 10.0, k);
  }

  /** The nearest tenths of mm: the one below it if mm is at most half way up, the one above it if
      at least half way. */
  lemma NearestSides(t: int, mm: int)
    requires NearestTenth(t, mm)
    ensures (100 * t == mm - mm % 100 && mm % 100 <= 50) || (100 * t == mm - mm % 100 + 100 && mm % 100 >= 50)
  {
  }

  /** The vehicle sees the limit itself again, for every way of breaking display ties, exactly when
      the limit is an even number of tenths or the display has no tie to break. */
  lemma BoundSurvivesDisplay(homeMm: int, limitTenths: int)
    ensures (forall t :: NearestTenth(t, AdvertisedMm(homeMm, limitTenths)) ==>
      RoundHalfEven(RelOf(t, homeMm) * 10.0) == limitTenths)
       <==> (limitTenths % 2 == 0 || homeMm % 100 != 50)
  {
    if limitTenths % 2 == 0 || homeMm % 100 != 50 {
      forall t | NearestTenth(t, AdvertisedMm(homeMm, limitTenths))
        ensures RoundHalfEven(RelOf(t, homeMm) * 10.0) == limitTenths
      {
        NearestSides(t, AdvertisedMm(homeMm, limitTenths));
        RelRoundsTo(t, homeMm, limitTenths);
      }
    } else {
      TieDown(homeMm, limitTenths);
    }
  }

  lemma RelTenths(t: int, homeMm: int)
    ensures RelOf(t, homeMm) * 10.0 == (100 * t - homeMm) as real / 100.0
  {
  }

  /** On a tie the display may round down or up, and an odd limit then loses or gains a whole tenth. */
  lemma TieDown(homeMm: int, limitTenths: int)
    requires limitTenths % 2 != 0 && homeMm % 100 == 50
    ensures var down := homeMm / 100 + limitTenths;
      && NearestTenth(down, AdvertisedMm(homeMm, limitTenths))
      && NearestTenth(down + 1, AdvertisedMm(homeMm, limitTenths))
      && RoundHalfEven(RelOf(down, homeMm) * 10.0) == limitTenths - 1
      && RoundHalfEven(RelOf(down + 1, homeMm) * 10.0) == limitTenths + 1
  {
    var down := homeMm / 100 + limitTenths;
    assert homeMm == 100 * (homeMm / 100) + 50;
    RelRoundsTo(down, homeMm, limitTenths - 1);
    RelRoundsTo(down + 1, homeMm, limitTenths + 1);
  }

  /** Both advertised bounds are flyable under every display tie rule exactly when each is an even
      number of tenths or home leaves no tie. The defaults 0, 10 and 500 m are even. */
  lemma AdvertisedBoundsFlyable(homeMm: int, loTenths: int, hiTenths: int)
    requires loTenths <= hiTenths
    ensures (&& (forall t :: NearestTenth(t, AdvertisedMm(homeMm, loTenths)) ==> Flyable(t, homeMm, loTenths, hiTenths))
             && (forall t :: NearestTenth(t, AdvertisedMm(homeMm, hiTenths)) ==>
               Flyable(t, homeMm, loTenths, hiTenths)))
       <==> (homeMm % 100 != 50 || (loTenths % 2 == 0 && hiTenths % 2 == 0))
  {
    RoundTenths(loTenths);
    RoundTenths(hiTenths);
    if homeMm % 100 != 50 || loTenths % 2 == 0 {
      BoundSurvivesDisplay(homeMm, loTenths);
      forall t | NearestTenth(t, AdvertisedMm(homeMm, loTenths)) ensures Flyable(t, homeMm, loTenths, hiTenths) {
        FlyableInTenths(t, homeMm, loTenths, hiTenths);
      }
    } else {
      TieDown(homeMm, loTenths);
      FlyableInTenths(homeMm / 100 + loTenths, homeMm, loTenths, hiTenths);
    }
    if homeMm % 100 != 50 || hiTenths % 2 == 0 {
      BoundSurvivesDisplay(homeMm, hiTenths);
      forall t | NearestTenth(t, AdvertisedMm(homeMm, hiTenths)) ensures Flyable(t, homeMm, loTenths, hiTenths) {
        FlyableInTenths(t, homeMm, loTenths, hiTenths);
      }
    } else {
      TieDown(homeMm, hiTenths);
      FlyableInTenths(homeMm / 100 + hiTenths + 1, homeMm, loTenths, hiTenths);
    }
  }

  lemma RoundTenths(tenths: int)
    ensures RoundHalfEven(tenths as real / 10.0 * 10.0) == tenths
  {
    assert tenths as real / 10.0 * 10.0 == tenths as real;
  }

  lemma FlyableInTenths(t: int, homeMm: int, loTenths: int, hiTenths: int)
    ensures Flyable(t, homeMm, loTenths, hiTenths)
       <==> loTenths <= RoundHalfEven(RelOf(t, homeMm) * 10.0) <= hiTenths
  {
    RoundTenths(loTenths);
    RoundTenths(hiTenths);
  }

  // ---- Any limit in whole millimetres --------------------------------------------------------------

  predicate AboveFloor(tenths: int, homeMm: int, limitMm: int) {
    Quantize(RelOf(tenths, homeMm)) >= Quantize(limitMm as real / 1000.0)
  }

  predicate BelowCeiling(tenths: int, homeMm: int, limitMm: int) {
    Quantize(RelOf(tenths, homeMm)) <= Quantize(limitMm as real / 1000.0)
  }

  /** The advertised lower bound of any whole-millimetre limit is never read as too low exactly when
      the display rounds it up, or rounds it down by `off` to a height still reaching the limit's
      own grid value. */
  lemma LowerBoundSurvives(homeMm: int, limitMm: int)
    ensures var off, k := (homeMm + limitMm) % 100, RoundHalfEven(limitMm as real / 100.0);
      (forall t :: NearestTenth(t, homeMm + limitMm) ==> AboveFloor(t, homeMm, limitMm))
        <==> (off > 50 || Reaches(limitMm - off, k))
  {
    var off, k := (homeMm + limitMm) % 100, RoundHalfEven(limitMm as real / 100.0);
    if off > 50 || Reaches(limitMm - off, k) {
      forall t | NearestTenth(t, homeMm + limitMm) ensures AboveFloor(t, homeMm, limitMm) {
        GridOf(t, homeMm, limitMm);
        NearestSides(t, homeMm + limitMm);
      }
    } else {
      var down := (homeMm + limitMm) / 100;
      GridOf(down, homeMm, limitMm);
      assert NearestTenth(down, homeMm + limitMm) && !AboveFloor(down, homeMm, limitMm);
    }
  }

  lemma UpperBoundSurvives(homeMm: int, limitMm: int)
    ensures var off, k := (homeMm + limitMm) % 100, RoundHalfEven(limitMm as real / 100.0);
      (forall t :: NearestTenth(t, homeMm + limitMm) ==> BelowCeiling(t, homeMm, limitMm))
        <==> (off < 50 || Stays(limitMm + 100 - off, k))
  {
    var off, k := (homeMm + limitMm) % 100, RoundHalfEven(limitMm as real / 100.0);
    if off < 50 || Stays(limitMm + 100 - off, k) {
      forall t | NearestTenth(t, homeMm + limitMm) ensures BelowCeiling(t, homeMm, limitMm) {
        GridOf(t, homeMm, limitMm);
        NearestSides(t, homeMm + limitMm);
      }
    } else {
      var up := (homeMm + limitMm) / 100 + 1;
      GridOf(up, homeMm, limitMm);
      assert NearestTenth(up, homeMm + limitMm) && !BelowCeiling(up, homeMm, limitMm);
    }
  }

  /** The two comparisons in whole millimetres; the limit itself passes both. */
  lemma GridOf(t: int, homeMm: int, limitMm: int)
    ensures var rel, k := 100 * t - homeMm, RoundHalfEven(limitMm as real / 100.0);
      && (AboveFloor(t, homeMm, limitMm) <==> Reaches(rel, k))
      && (BelowCeiling(t, homeMm, limitMm) <==> Stays(rel, k))
      && Reaches(limitMm, k) && Stays(limitMm, k)
  {
    var k := RoundHalfEven(limitMm as real / 100.0);
    assert limitMm as real / 1000.0 * 10.0 == limitMm as real / 100.0;
    RelRoundsTo(t, homeMm, k);
    RoundsTo(limitMm as real / 100.0, k);
  }
}
