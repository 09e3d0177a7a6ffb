/** Accepting or refusing a commanded path, hold vector or curve: the `validate_*` functions. */
module Validation {
  import opened Options
  import opened Waypoints
  import opened Envelope
  import opened Curve
  import Hull

  datatype Fault =
    | NoWaypoints | BadLatLon(index: nat) | BadAltitude(index: nat) | OutsideLimits(index: nat)
    | Unsupported | BadAltitudeRef | BadSpeedRef | BadHeadingRef | BadSpeed | BadMach | BadHeading | BadHold
    | HoldOutsideLimits
    | NoCurve | BadCenter | TooFewPoints | BadControlPoint(index: nat) | BadKnots | BadCurveAltitude

  /** The envelope and the home altitude it is measured from. */
  datatype Limits = Limits(min: real, max: real, home: Option<real>)

  function RelAlt(alt: real, home: Option<real>): real {
    if home.None? then alt else alt - home.value
  }

  predicate InLimits(alt: real, limits: Limits) {
    !OutsideRelEnvelope(RelAlt(alt, limits.home), limits.min, limits.max)
  }

  // ---- Waypoint paths ----------------------------------------------------------------------------

  function PointFault(w: Waypoint, index: nat, limits: Limits): Option<Fault> {
    if !(w.lat.Finite? && w.lon.Finite?) then Some(BadLatLon(index))
    else if w.alt.None? || !w.alt.value.Finite? then Some(BadAltitude(index))
    else if !InLimits(w.alt.value.value, limits) then Some(OutsideLimits(index))
    else None
  }

  /** A point is accepted exactly when both its angles and its altitude are there and finite and the altitude, home's
      taken off when home is known, is inside the envelope as displayed. Angles are looked at first, then whether
      there is an altitude, then the envelope. */
  lemma PointAcceptedExactly(w: Waypoint, index: nat, limits: Limits)
    ensures PointFault(w, index, limits).None? <==>
      && w.lat.Finite? && w.lon.Finite? && w.alt.Some? && w.alt.value.Finite?
      && !OutsideRelEnvelope(
           if limits.home.Some? then w.alt.value.value - limits.home.value else w.alt.value.value,
           limits.min, limits.max)
    ensures PointFault(w, index, limits) == Some(BadLatLon(index)) <==> w.lat.NonFinite? || w.lon.NonFinite?
    ensures PointFault(w, index, limits) == Some(BadAltitude(index)) <==>
      w.lat.Finite? && w.lon.Finite? && (w.alt.None? || w.alt.value.NonFinite?)
    ensures PointFault(w, index, limits).Some? ==>
      PointFault(w, index, limits).value in {BadLatLon(index), BadAltitude(index), OutsideLimits(index)}
  {
  }

  /** A point in the band that is complete is accepted, and one more than 0.1 m outside it never is. */
  lemma BandPointAccepted(lat: real, lon: real, alt: real, index: nat, limits: Limits)
    ensures var rel := if limits.home.Some? then alt - limits.home.value else alt;
      var fault := PointFault(Waypoint(Finite(lat), Finite(lon), Some(Finite(alt))), index, limits);
      && (limits.min <= rel <= limits.max ==> fault.None?)
      && (rel < limits.min - 0.1 || rel > limits.max + 0.1 ==> fault == Some(OutsideLimits(index)))
  {
    BandAccepted(RelAlt(alt, limits.home), limits.min, limits.max);
  }

  /** Accepts exactly the non-empty paths of flyable points; otherwise names the first bad point. */
  method ValidateWaypointPath(waypoints: seq<Waypoint>, limits: Limits) returns (fault: Option<Fault>)
    ensures fault.None? <==> waypoints != [] && forall i :: 0 <= i < |waypoints| ==>
      PointFault(waypoints[i], i, limits).None?
    ensures fault == Some(NoWaypoints) <==> waypoints == []
    ensures fault.Some? && waypoints != [] ==> exists i ::
      && 0 <= i < |waypoints|
      && fault == PointFault(waypoints[i], i, limits)
      && forall j :: 0 <= j < i ==> PointFault(waypoints[j], j, limits).None?
  {
    if waypoints == [] {
      return Some(NoWaypoints);
    }
    for index := 0 to |waypoints|
      invariant forall j :: 0 <= j < index ==> PointFault(waypoints[j], j, limits).None?
    {
      fault := PointFault(waypoints[index], index, limits);
      if fault.Some? {
        return;
      }
    }
    return None;
  }

  // ---- Hold vectors --------------------------------------------------------------------------------

  datatype Hold = Hold(
    altitude: Option<Num>, altitudeRef: Option<string>, speed: Option<Num>, speedRef: Option<string>,
    mach: Option<Num>, heading: Option<Num>, headingRef: Option<string>, unsupported: Option<string>)

  const ALTITUDE_REFS := {"AGL", "WGS_HAE", "MSL", "ALTITUDE_BAROMETRIC"}
  const SPEED_REFS := {"GROUNDSPEED", "TRUE_AIRSPEED", "CALIBRATED_AIRSPEED"}
  const HEADING_REFS := {"TRUE_NORTH", "MAGNETIC_NORTH"}
  const HOME_REFS := {"WGS_HAE", "MSL", "ALTITUDE_BAROMETRIC"}

  predicate Known(ref: Option<string>, refs: set<string>) {
    ref.None? || ref.value in refs
  }

  predicate NonNegativeOrAbsent(n: Option<Num>) {
    n.None? || (n.value.Finite? && n.value.value >= 0.0)
  }

  function HoldFault(hold: Option<Hold>, limits: Limits): Option<Fault> {
    if hold.None? then None else
      var h := hold.value;
      if h.unsupported.Some? && h.unsupported.value != "" then Some(Unsupported)
      else if !Known(h.altitudeRef, ALTITUDE_REFS) then Some(BadAltitudeRef)
      else if !Known(h.speedRef, SPEED_REFS) then Some(BadSpeedRef)
      else if !Known(h.headingRef, HEADING_REFS) then Some(BadHeadingRef)
      else if !NonNegativeOrAbsent(h.speed) then Some(BadSpeed)
      else if !NonNegativeOrAbsent(h.mach) then Some(BadMach)
      else if h.heading.Some? && !h.heading.value.Finite? then Some(BadHeading)
      else if h.altitude.None? then None
      else if !h.altitude.value.Finite? then Some(BadHold)
      else
        var fromHome := h.altitudeRef.Some? && h.altitudeRef.value in HOME_REFS && limits.home.Some?;
        var rel := if fromHome then h.altitude.value.value - limits.home.value else h.altitude.value.value;
        if OutsideRelEnvelope(rel, limits.min, limits.max) then Some(HoldOutsideLimits) else None
  }

  /** A hold is accepted exactly when it asks for nothing unsupported, every reference it gives is a known one,
      every number it gives is finite and no speed negative, and its altitude, if it gives one, is inside the
      envelope: measured from home when the reference is one of the three that are and home is known. */
  lemma HoldAcceptedExactly(h: Hold, limits: Limits)
    ensures HoldFault(Some(h), limits).None? <==>
      && (h.unsupported.None? || h.unsupported.value == "")
      && (h.altitudeRef.None? || h.altitudeRef.value in {"AGL", "WGS_HAE", "MSL", "ALTITUDE_BAROMETRIC"})
      && (h.speedRef.None? || h.speedRef.value in {"GROUNDSPEED", "TRUE_AIRSPEED", "CALIBRATED_AIRSPEED"})
      && (h.headingRef.None? || h.headingRef.value in {"TRUE_NORTH", "MAGNETIC_NORTH"})
      && (h.speed.Some? ==> h.speed.value.Finite? && h.speed.value.value >= 0.0)
      && (h.mach.Some? ==> h.mach.value.Finite? && h.mach.value.value >= 0.0)
      && (h.heading.Some? ==> h.heading.value.Finite?)
      && (h.altitude.Some? ==> h.altitude.value.Finite? && !OutsideRelEnvelope(
            if h.altitudeRef in {Some("WGS_HAE"), Some("MSL"), Some("ALTITUDE_BAROMETRIC")} && limits.home.Some?
            then h.altitude.value.value - limits.home.value else h.altitude.value.value, limits.min, limits.max))
  {
  }

  /** The limits a hold's altitude is really held to: home counts only for home-based references. */
  function Baseline(hold: Hold, limits: Limits): Limits {
    if hold.altitudeRef.Some? && hold.altitudeRef.value in HOME_REFS then limits else limits.(home := None)
  }

  /** One altitude rule for both kinds of command: on a hold vector that is sound otherwise, an
      altitude is accepted exactly when a waypoint at that altitude is, under the hold's baseline. */
  lemma HoldAgreesWithWaypoint(hold: Hold, altitude: real, limits: Limits)
    requires HoldFault(Some(hold.(altitude := None)), limits).None?
    ensures HoldFault(Some(hold.(altitude := Some(Finite(altitude)))), limits).None?
       <==> PointFault(Waypoint(Finite(0.0), Finite(0.0), Some(Finite(altitude))), 0, Baseline(hold, limits)).None?
  {
  }

  // ---- Curves --------------------------------------------------------------------------------------

  datatype RawPoint = RawPoint(east: Num, north: Num, weight: Num)

  datatype RawCurve = RawCurve(centerLat: Num, centerLon: Num, points: seq<RawPoint>, knots: seq<Num>)

  const MIN_CURVE_CONTROL_POINTS := 4
  const CURVE_SAMPLES := 16

  /** From a centre and an east/north offset to degrees; only its being a function matters here. */
  type Projection = (real, real, Offset) -> (real, real)

  predicate SoundPoint(p: RawPoint) {
    p.east.Finite? && p.north.Finite? && p.weight.Finite? && p.weight.value > 0.0
  }

  predicate SoundShape(curve: RawCurve) {
    && curve.centerLat.Finite? && curve.centerLon.Finite?
    && |curve.points| >= MIN_CURVE_CONTROL_POINTS
    && (forall i :: 0 <= i < |curve.points| ==> SoundPoint(curve.points[i]))
    && (forall i :: 0 <= i < |curve.knots| ==> curve.knots[i].Finite?)
  }

  function CleanPoint(p: RawPoint): ControlPoint
    requires SoundPoint(p)
  {
    ControlPoint(p.east.value, p.north.value, p.weight.value)
  }

  function Clean(points: seq<RawPoint>): seq<ControlPoint>
    requires forall i :: 0 <= i < |points| ==> SoundPoint(points[i])
  {
    seq(|points|, i requires 0 <= i < |points| => CleanPoint(points[i]))
  }

  function CleanKnots(knots: seq<Num>): seq<real>
    requires forall i :: 0 <= i < |knots| ==> knots[i].Finite?
  {
    seq(|knots|, i requires 0 <= i < |knots| => knots[i].value)
  }

  function Placed(project: Projection, lat: real, lon: real, o: Offset, altitude: real): Waypoint {
    var at := project(lat, lon, o);
    Waypoint(Finite(at.0), Finite(at.1), Some(Finite(altitude)))
  }

  /** One waypoint per sample, all at the same altitude. */
  method SampleCurveWaypoints(points: seq<ControlPoint>, knots: seq<real>, lat: real, lon: real,
                              altitude: real, project: Projection, samples: int)
    returns (waypoints: seq<Waypoint>)
    ensures |waypoints| == |Samples(points, knots, samples)| >= |points|
    ensures forall i :: 0 <= i < |waypoints| ==>
      waypoints[i] == Placed(project, lat, lon, Samples(points, knots, samples)[i], altitude)
  {
    var offsets := SampleAepOffsets(points, knots, samples);
    Hull.SampleLength(points, knots, samples);
    waypoints := [];
    for index := 0 to |offsets|
      invariant |waypoints| == index
      invariant forall i :: 0 <= i < index ==> waypoints[i] == Placed(project, lat, lon, offsets[i], altitude)
    {
      waypoints := waypoints + [Placed(project, lat, lon, offsets[index], altitude)];
    }
  }

  lemma FlownAtOneAltitude(waypoints: seq<Waypoint>, altitude: real, limits: Limits)
    requires forall i :: 0 <= i < |waypoints| ==>
      waypoints[i].lat.Finite? && waypoints[i].lon.Finite? && waypoints[i].alt == Some(Finite(altitude))
    ensures forall i :: 0 <= i < |waypoints| ==>
      PointFault(waypoints[i], i, limits) == if InLimits(altitude, limits) then None else Some(OutsideLimits(i))
  {
  }

  /** A curve is flown at one altitude, so whatever its spine and knots, acceptance is the shape
      checks and then the envelope test on that single altitude. */
  method ValidateCurveFollowing(curve: Option<RawCurve>, altitude: Num, limits: Limits, project: Projection)
    returns (fault: Option<Fault>)
    ensures fault.None? <==>
      curve.Some? && SoundShape(curve.value) && altitude.Finite? && InLimits(altitude.value, limits)
    ensures fault == Some(OutsideLimits(0)) <==>
      curve.Some? && SoundShape(curve.value) && altitude.Finite? && !InLimits(altitude.value, limits)
    ensures fault.Some? && fault.value.BadControlPoint? ==>
      && curve.Some? && fault.value.index < |curve.value.points| && !SoundPoint(curve.value.points[fault.value.index])
      && forall j :: 0 <= j < fault.value.index ==> SoundPoint(curve.value.points[j])
  {
    if curve.None? {
      return Some(NoCurve);
    }
    var c := curve.value;
    if !(c.centerLat.Finite? && c.centerLon.Finite?) {
      return Some(BadCenter);
    }
    if |c.points| < MIN_CURVE_CONTROL_POINTS {
      return Some(TooFewPoints);
    }
    for index := 0 to |c.points|
      invariant forall j :: 0 <= j < index ==> SoundPoint(c.points[j])
    {
      if !SoundPoint(c.points[index]) {
        return Some(BadControlPoint(index));
      }
    }
    if exists i :: 0 <= i < |c.knots| && !c.knots[i].Finite? {
      return Some(BadKnots);
    }
    if !altitude.Finite? {
      return Some(BadCurveAltitude);
    }
    var waypoints := SampleCurveWaypoints(Clean(c.points), CleanKnots(c.knots), c.centerLat.value, c.centerLon.value,
                                          altitude.value, project, CURVE_SAMPLES);
    FlownAtOneAltitude(waypoints, altitude.value, limits);
    assert PointFault(waypoints[0], 0, limits).None? <==> InLimits(altitude.value, limits);
    fault := ValidateWaypointPath(waypoints, limits);
  }

  /** A curve of sound shape meets what the sampler's guarantees ask for: its weights are positive, so wherever its
      control points lie in a box every waypoint it is flown through is the projection of a point in that box. */
  lemma AcceptedCurveInBox(curve: RawCurve, samples: int, lo: Offset, hi: Offset)
    requires SoundShape(curve)
    requires forall i :: 0 <= i < |curve.points| ==>
      && lo.east <= curve.points[i].east.value <= hi.east
      && lo.north <= curve.points[i].north.value <= hi.north
    ensures |Clean(curve.points)| >= 4 && PositiveWeights(Clean(curve.points))
    ensures forall o :: o in Samples(Clean(curve.points), CleanKnots(curve.knots), samples) ==>
      lo.east <= o.east <= hi.east && lo.north <= o.north <= hi.north
  {
    Hull.SamplesInBox(Clean(curve.points), CleanKnots(curve.knots), samples, lo, hi);
  }
}
