/** Turning a commanded path into an autopilot mission, `platform/px4/mission.py`: which prefix is
    skipped, what is uploaded, and where the mission ends. */
module Mission {
  import opened Options
  import opened Waypoints

  /** Great-circle distance and local east and north offsets from here, as plain functions. */
  datatype Geometry<!Here> = Geometry(distance: (Here, Waypoint) -> real, east: (Here, Waypoint) -> real,
    north: (Here, Waypoint) -> real)

  // ---- Skipping the prefix ------------------------------------------------------------------------------

  /** Captured already, or behind the vehicle as seen along the way to the goal. */
  predicate Passed<Here>(g: Geometry<Here>, here: Here, capture: real, w: Waypoint, goal: Waypoint) {
    g.distance(here, w) < capture || g.east(here, w) * g.east(here, goal) + g.north(here, w) * g.north(here, goal) < 0.0
  }

  /** What passing means on the ground: within the capture radius, or more than a right angle away from the goal as
      seen from the vehicle, where the square on the side between the two exceeds the other two squares together. */
  lemma PassedExactly<Here>(g: Geometry<Here>, here: Here, capture: real, w: Waypoint, goal: Waypoint)
    ensures var (x, y) := (g.east(here, w), g.north(here, w)); var (a, b) := (g.east(here, goal), g.north(here, goal));
      Passed(g, here, capture, w, goal) <==>
        g.distance(here, w) < capture
        || (a - x) * (a - x) + (b - y) * (b - y) > (x * x + y * y) + (a * a + b * b)
  {
    var x, y, a, b := g.east(here, w), g.north(here, w), g.east(here, goal), g.north(here, goal);
    SquareOfDifference(a, x);
    SquareOfDifference(b, y);
  }

  lemma SquareOfDifference(a: real, x: real)
    ensures (a - x) * (a - x) == a * a + x * x - 2.0 * (x * a)
  {
  }

  /** A waypoint straight on towards the goal, or at it, is never behind; so outside the capture radius it is kept. */
  lemma AheadIsKept<Here>(g: Geometry<Here>, here: Here, capture: real, w: Waypoint, goal: Waypoint, share: real)
    requires share >= 0.0 && g.distance(here, w) >= capture
    requires g.east(here, w) == share * g.east(here, goal) && g.north(here, w) == share * g.north(here, goal)
    ensures !Passed(g, here, capture, w, goal)
  {
    var a, b := g.east(here, goal), g.north(here, goal);
    NoLess(share, a);
    NoLess(share, b);
  }

  lemma NoLess(share: real, a: real)
    requires share >= 0.0
    ensures share * a * a >= 0.0
  {
    assert a * a >= 0.0;
    assert share * a * a == share * (a * a);
  }

  function Last<T>(s: seq<T>): T
    requires s != []
  {
    s[|s| - 1]
  }

  function Advanced<Here>(g: Geometry<Here>, here: Here, capture: real, waypoints: seq<Waypoint>): seq<Waypoint> {
    if |waypoints| > 1 && Passed(g, here, capture, waypoints[0], Last(waypoints))
      then Advanced(g, here, capture, waypoints[1..])
    else waypoints
  }

  method AdvanceMissionWaypoints<Here>(g: Geometry<Here>, here: Here, capture: real, waypoints: seq<Waypoint>)
    returns (kept: seq<Waypoint>)
    ensures kept == Advanced(g, here, capture, waypoints)
  {
    if |waypoints| <= 1 {
      return waypoints;
    }
    var goal := Last(waypoints);
    kept := waypoints;
    while |kept| > 1
      invariant kept != [] && Last(kept) == goal
      invariant Advanced(g, here, capture, kept) == Advanced(g, here, capture, waypoints)
    {
      if !Passed(g, here, capture, kept[0], goal) {
        break;
      }
      kept := kept[1..];
    }
  }

  /** Index i is where the flight resumes: everything before it is passed, and it is not, or is the goal. */
  ghost predicate Resumes<Here>(g: Geometry<Here>, here: Here, capture: real, waypoints: seq<Waypoint>, i: nat) {
    && i < |waypoints|
    && (forall j :: 0 <= j < i ==> Passed(g, here, capture, waypoints[j], Last(waypoints)))
    && (i == |waypoints| - 1 || !Passed(g, here, capture, waypoints[i], Last(waypoints)))
  }

  /** What is kept is the suffix from the one index where the flight resumes. */
  lemma {:induction false} KeepsFromResumption<Here>(g: Geometry<Here>, here: Here, capture: real,
    waypoints: seq<Waypoint>, i: nat)
    requires i < |waypoints|
    ensures Resumes(g, here, capture, waypoints, i) <==> Advanced(g, here, capture, waypoints) == waypoints[i..]
  {
    if |waypoints| > 1 && Passed(g, here, capture, waypoints[0], Last(waypoints)) {
      AdvancedShrinks(g, here, capture, waypoints[1..]);
      if i > 0 {
        KeepsFromResumption(g, here, capture, waypoints[1..], i - 1);
        ResumesLater(g, here, capture, waypoints, i);
      }
    }
  }

  lemma ResumesLater<Here>(g: Geometry<Here>, here: Here, capture: real, waypoints: seq<Waypoint>, i: nat)
    requires 0 < i < |waypoints| && Passed(g, here, capture, waypoints[0], Last(waypoints))
    ensures Resumes(g, here, capture, waypoints, i) <==> Resumes(g, here, capture, waypoints[1..], i - 1)
  {
    var rest := waypoints[1..];
    assert Last(rest) == Last(waypoints) && forall j :: 0 <= j < |rest| ==> rest[j] == waypoints[j + 1];
    if Resumes(g, here, capture, rest, i - 1) {
      forall j | 0 <= j < i
        ensures Passed(g, here, capture, waypoints[j], Last(waypoints))
      {
        assert j > 0 ==> waypoints[j] == rest[j - 1];
      }
    }
  }

  lemma {:induction false} AdvancedShrinks<Here>(g: Geometry<Here>, here: Here, capture: real, waypoints: seq<Waypoint>)
    ensures |Advanced(g, here, capture, waypoints)| <= |waypoints|
    ensures waypoints != [] ==>
      Advanced(g, here, capture, waypoints) != [] && Last(Advanced(g, here, capture, waypoints)) == Last(waypoints)
  {
    if |waypoints| > 1 {
      AdvancedShrinks(g, here, capture, waypoints[1..]);
    }
  }

  /** Skipping twice from the same place skips nothing more. */
  lemma {:induction false} SkippingSettles<Here>(g: Geometry<Here>, here: Here, capture: real, waypoints: seq<Waypoint>)
    ensures Advanced(g, here, capture, Advanced(g, here, capture, waypoints)) == Advanced(g, here, capture, waypoints)
  {
    if |waypoints| > 1 {
      SkippingSettles(g, here, capture, waypoints[1..]);
    }
  }

  /** A wider capture radius never keeps more. */
  lemma {:induction false} WiderKeepsLess<Here>(g: Geometry<Here>, here: Here, capture: real, wider: real,
    waypoints: seq<Waypoint>)
    requires capture <= wider
    ensures |Advanced(g, here, wider, waypoints)| <= |Advanced(g, here, capture, waypoints)|
  {
    AdvancedShrinks(g, here, wider, waypoints);
    if |waypoints| > 1 {
      WiderKeepsLess(g, here, capture, wider, waypoints[1..]);
    }
  }

  function Remaining<Here>(g: Geometry<Here>, here: Option<Here>, capture: real,
    waypoints: seq<Waypoint>): seq<Waypoint> {
    if here.None? then waypoints else Advanced(g, here.value, capture, waypoints)
  }

  // ---- The items -------------------------------------------------------------------------------------------

  datatype Command = Takeoff | NavWaypoint | LoiterUnlimited

  datatype Item = Item(command: Command, lat: Num, lon: Num, alt: Num)

  function WaypointItem(w: Waypoint): Item {
    Item(NavWaypoint, w.lat, w.lon, if w.alt.Some? then w.alt.value else Finite(50.0))
  }

  function WaypointItems(waypoints: seq<Waypoint>, k: nat): seq<Item>
    requires k <= |waypoints|
  {
    if k == 0 then [] else WaypointItems(waypoints, k - 1) + [WaypointItem(waypoints[k - 1])]
  }

  /** A takeoff over the first waypoint if asked for, the waypoints, and a loiter over the last. */
  function Items(waypoints: seq<Waypoint>, takeoff: Option<real>): seq<Item>
    requires waypoints != [] || takeoff.None?
  {
    var start := if takeoff.Some? then [Item(Takeoff, waypoints[0].lat, waypoints[0].lon, Finite(takeoff.value))]
      else [];
    var route := start + WaypointItems(waypoints, |waypoints|);
    if route == [] then [] else route + [Last(route).(command := LoiterUnlimited)]
  }

  // ---- The transfer ----------------------------------------------------------------------------------------

  /** `int` of a float, rounding toward zero. */
  function Truncated(x: real): int {
    if x >= 0.0 then x.Floor else -((-x).Floor)
  }

  function ToE7(degrees: real): int {
    Truncated(degrees * 10000000.0)
  }

  /** The wire angle is within 1e-7 degrees of the commanded one, and never past it. */
  lemma TruncationError(degrees: real)
    ensures -1.0 < ToE7(degrees) as real - degrees * 10000000.0 < 1.0
    ensures degrees >= 0.0 ==> 0.0 <= ToE7(degrees) as real <= degrees * 10000000.0
    ensures degrees <= 0.0 ==> degrees * 10000000.0 <= ToE7(degrees) as real <= 0.0
  {
  }

  datatype Message =
    | Hold | CountSent(count: nat)
    | ItemSent(index: nat, command: Command, current: bool, goOn: bool, accept: real, lat: int, lon: int, alt: Num)
    | Arm | StartMission | WaitAirborne(height: real)

  datatype Failure = NoWaypoints | NoRequest(index: nat) | BadNumber(index: nat) | NoAck | BadAck(code: int)

  datatype Outcome = Uploaded(last: int) | Raised(why: Failure)

  /** The autopilot's side: whether the k-th item request arrives in time, and the closing acknowledgement. */
  datatype Replies = Replies(requested: nat -> bool, ack: Option<int>)

  function Sent(items: seq<Item>, clearance: real, k: nat): Message
    requires k < |items| && items[k].lat.Finite? && items[k].lon.Finite?
  {
    ItemSent(k, items[k].command, k == 0, k != |items| - 1, if items[k].command.NavWaypoint? then clearance else 0.0,
             ToE7(items[k].lat.value), ToE7(items[k].lon.value), items[k].alt)
  }

  /** The messages of the first k items, and what stopped them. */
  function Transferred(items: seq<Item>, clearance: real, replies: Replies, k: nat): (seq<Message>, Option<Failure>)
    requires k <= |items|
  {
    if k == 0 then ([CountSent(|items|)], None)
    else
      var (before, failure) := Transferred(items, clearance, replies, k - 1);
      if failure.Some? then (before, failure)
      else if !replies.requested(k - 1) then (before, Some(NoRequest(k - 1)))
      else if items[k - 1].lat.NonFinite? || items[k - 1].lon.NonFinite? then (before, Some(BadNumber(k - 1)))
      else (before + [Sent(items, clearance, k - 1)], None)
  }

  function Upload(
    waypoints: seq<Waypoint>, takeoff: Option<real>, clearance: real, replies: Replies): (seq<Message>, Outcome)
  {
    if waypoints == [] && takeoff.Some? then ([], Raised(NoWaypoints))
    else
      var items := Items(waypoints, takeoff);
      var (sent, failure) := Transferred(items, clearance, replies, |items|);
      if failure.Some? then (sent, Raised(failure.value))
      else if replies.ack.None? then (sent, Raised(NoAck))
      else if replies.ack.value != 0 then (sent, Raised(BadAck(replies.ack.value)))
      else if waypoints == [] then (sent, Raised(NoWaypoints))
      else (sent, Uploaded(if |items| >= 2 then |items| - 2 else |items| - 1))
  }

  /** The goal of an executed path, the altitude it is flown at, and everything sent for it. */
  function HoldAlt(relative: real, takeoff: real): real {
    if relative >= 2.0 then relative else takeoff
  }

  function Levelled(waypoints: seq<Waypoint>, alt: real): seq<Waypoint> {
    seq(|waypoints|, i requires 0 <= i < |waypoints| => waypoints[i].(alt := Some(Finite(alt))))
  }

  datatype Flight<!Here> = Flight(here: Option<Here>, relative: real, takeoff: real, clearance: real)

  function Executed<Here>(g: Geometry<Here>, f: Flight<Here>, waypoints: seq<Waypoint>,
    replies: Replies): (seq<Message>, Outcome) {
    var airborne, alt := f.relative >= 2.0, HoldAlt(f.relative, f.takeoff);
    var route := Levelled(Remaining(g, f.here, f.clearance, waypoints), alt);
    var (sent, outcome) := Upload(route, if airborne then None else Some(alt), f.clearance, replies);
    (Wrapped(airborne, alt, sent, outcome), outcome)
  }

  /** What goes out around an upload: a hold before it when flying, the start after it when it succeeds. */
  function Wrapped(airborne: bool, alt: real, sent: seq<Message>, outcome: Outcome): seq<Message> {
    var before := (if airborne then [Hold] else []) + sent;
    if outcome.Raised? then before else before + Started(airborne, alt)
  }

  function Started(airborne: bool, alt: real): seq<Message> {
    if airborne then [Arm, StartMission] else [Arm, StartMission, WaitAirborne(alt)]
  }

  lemma Around(log: seq<Message>, airborne: bool, alt: real, sent: seq<Message>, outcome: Outcome)
    ensures var begun := (if airborne then log + [Hold] else log) + sent;
      log + Wrapped(airborne, alt, sent, outcome) == if outcome.Raised? then begun else begun + Started(airborne, alt)
  {
  }

  class MissionLink {
    const replies: Replies
    var log: seq<Message>

    constructor (replies: Replies)
      ensures this.replies == replies && log == []
    {
      this.replies := replies;
      log := [];
    }

    method Send(m: Message)
      modifies this
      ensures log == old(log) + [m]
    {
      log := log + [m];
    }

    method BuildItems(waypoints: seq<Waypoint>, takeoff: Option<real>) returns (items: seq<Item>)
      requires waypoints != [] || takeoff.None?
      ensures items == Items(waypoints, takeoff)
    {
      items := [];
      if takeoff.Some? {
        items := [Item(Takeoff, waypoints[0].lat, waypoints[0].lon, Finite(takeoff.value))];
      }
      ghost var start := items;
      for k := 0 to |waypoints|
        invariant items == start + WaypointItems(waypoints, k)
      {
        items := items + [WaypointItem(waypoints[k])];
      }
      if items != [] {
        items := items + [Last(items).(command := LoiterUnlimited)];
      }
    }

    method SendItems(items: seq<Item>, clearance: real) returns (failure: Option<Failure>)
      modifies this
      ensures var (sent, result) := Transferred(items, clearance, replies, |items|);
        log == old(log) + sent && failure == result
    {
      Send(CountSent(|items|));
      for k := 0 to |items|
        invariant Transferred(items, clearance, replies, k).1.None?
        invariant log == old(log) + Transferred(items, clearance, replies, k).0
      {
        if !replies.requested(k) {
          StaysFailed(items, clearance, replies, k + 1, |items|);
          return Some(NoRequest(k));
        }
        if items[k].lat.NonFinite? || items[k].lon.NonFinite? {
          StaysFailed(items, clearance, replies, k + 1, |items|);
          return Some(BadNumber(k));
        }
        Send(Sent(items, clearance, k));
      }
      return None;
    }

    method UploadWaypoints(waypoints: seq<Waypoint>, takeoff: Option<real>, clearance: real) returns (outcome: Outcome)
      modifies this
      ensures var (sent, result) := Upload(waypoints, takeoff, clearance, replies);
        log == old(log) + sent && outcome == result
    {
      if waypoints == [] && takeoff.Some? {
        return Raised(NoWaypoints);
      }
      var items := BuildItems(waypoints, takeoff);
      var count := |items|;
      var last := if count >= 2 then count - 2 else count - 1;
      var failure := SendItems(items, clearance);
      if failure.Some? {
        return Raised(failure.value);
      }
      if replies.ack.None? {
        return Raised(NoAck);
      }
      if replies.ack.value != 0 {
        return Raised(BadAck(replies.ack.value));
      }
      if waypoints == [] {
        return Raised(NoWaypoints);
      }
      return Uploaded(last);
    }

    method ExecuteWaypointFollowing<Here>(g: Geometry<Here>, f: Flight<Here>, waypoints: seq<Waypoint>)
      returns (outcome: Outcome)
      modifies this
      ensures var (sent, result) := Executed(g, f, waypoints, replies);
        log == old(log) + sent && outcome == result
    {
      var remaining := waypoints;
      if f.here.Some? {
        remaining := AdvanceMissionWaypoints(g, f.here.value, f.clearance, waypoints);
      }
      var airborne, alt := f.relative >= 2.0, HoldAlt(f.relative, f.takeoff);
      outcome := FlyRoute(Levelled(remaining, alt), airborne, alt, f.clearance);
    }

    method FlyRoute(route: seq<Waypoint>, airborne: bool, alt: real, clearance: real) returns (outcome: Outcome)
      modifies this
      ensures var (sent, result) := Upload(route, if airborne then None else Some(alt), clearance, replies);
        log == old(log) + Wrapped(airborne, alt, sent, result) && outcome == result
    {
      ghost var before := log;
      if airborne {
        Send(Hold);
      }
      outcome := UploadWaypoints(route, if airborne then None else Some(alt), clearance);
      if outcome.Uploaded? {
        Begin(airborne, alt);
      }
      Around(before, airborne, alt, Upload(route, if airborne then None else Some(alt), clearance, replies).0, outcome);
    }

    method Begin(airborne: bool, alt: real)
      modifies this
      ensures log == old(log) + Started(airborne, alt)
    {
      Send(Arm);
      Send(StartMission);
      if !airborne {
        Send(WaitAirborne(alt));
      }
    }
  }

  lemma {:induction false} StaysFailed(items: seq<Item>, clearance: real, replies: Replies, k: nat, n: nat)
    requires k <= n <= |items| && Transferred(items, clearance, replies, k).1.Some?
    ensures Transferred(items, clearance, replies, n) == Transferred(items, clearance, replies, k)
  {
    if k < n {
      StaysFailed(items, clearance, replies, k, n - 1);
    }
  }

  // ---- Where the mission ends ------------------------------------------------------------------------------

  /** An unbroken transfer sends the count, then every item under its own number. */
  lemma {:induction false} AllSent(items: seq<Item>, clearance: real, replies: Replies, k: nat)
    requires k <= |items| && Transferred(items, clearance, replies, k).1.None?
    ensures forall i :: 0 <= i < k ==> replies.requested(i) && items[i].lat.Finite? && items[i].lon.Finite?
    ensures var sent := Transferred(items, clearance, replies, k).0;
      && |sent| == k + 1 && sent[0] == CountSent(|items|)
      && forall i :: 0 <= i < k ==> sent[i + 1] == Sent(items, clearance, i)
  {
    if k == 0 {
    } else {
      AllSent(items, clearance, replies, k - 1);
    }
  }

  /** Items laid out for a path: perhaps a takeoff over the first point, the points in order, and a
      loiter over the last. */
  ghost predicate LaidOut(items: seq<Item>, waypoints: seq<Waypoint>, takeoff: Option<real>)
    requires waypoints != []
  {
    var first := if takeoff.Some? then 1 else 0;
    && |items| == first + |waypoints| + 1
    && (takeoff.Some? ==> items[0] == Item(Takeoff, waypoints[0].lat, waypoints[0].lon, Finite(takeoff.value)))
    && (forall i :: 0 <= i < |waypoints| ==> items[first + i] == WaypointItem(waypoints[i]))
    && items[|items| - 1] == items[|items| - 2].(command := LoiterUnlimited)
  }

  lemma {:induction false} WaypointItemsAt(waypoints: seq<Waypoint>, k: nat)
    requires k <= |waypoints|
    ensures |WaypointItems(waypoints, k)| == k
    ensures forall i :: 0 <= i < k ==> WaypointItems(waypoints, k)[i] == WaypointItem(waypoints[i])
  {
    if k == 0 {
    } else {
      WaypointItemsAt(waypoints, k - 1);
    }
  }

  lemma ItemsLaidOut(waypoints: seq<Waypoint>, takeoff: Option<real>)
    requires waypoints != []
    ensures LaidOut(Items(waypoints, takeoff), waypoints, takeoff)
  {
    WaypointItemsAt(waypoints, |waypoints|);
    var route := WaypointItems(waypoints, |waypoints|);
    if takeoff.Some? {
      var start := Item(Takeoff, waypoints[0].lat, waypoints[0].lon, Finite(takeoff.value));
      assert Items(waypoints, takeoff) == [start] + route + [Last(route).(command := LoiterUnlimited)];
    } else {
      assert Items(waypoints, takeoff) == route + [Last(route).(command := LoiterUnlimited)];
    }
  }

  /** Whatever prefix is skipped and whether or not a takeoff is flown first, a mission that uploads has,
      under the sequence number it returns, a waypoint at the commanded goal; nothing but a loiter over
      the same point comes after it; and that many items went out. */
  lemma MissionEndsAtGoal<Here>(g: Geometry<Here>, f: Flight<Here>, waypoints: seq<Waypoint>, replies: Replies)
    requires Executed(g, f, waypoints, replies).1.Uploaded?
    ensures waypoints != [] && Last(waypoints).lat.Finite? && Last(waypoints).lon.Finite?
    ensures var (sent, outcome) := Executed(g, f, waypoints, replies);
      var goal, alt := Last(waypoints), Finite(if f.relative >= 2.0 then f.relative else f.takeoff);
      var at := outcome.last + 2 - if f.relative >= 2.0 then 0 else 1;
      && 0 <= outcome.last && 0 < at < |sent| - 1
      && sent[at] == ItemSent(outcome.last, NavWaypoint, outcome.last == 0, true, f.clearance,
                              ToE7(goal.lat.value), ToE7(goal.lon.value), alt)
      && sent[at + 1] == ItemSent(outcome.last + 1, LoiterUnlimited, false, false, 0.0,
                                  ToE7(goal.lat.value), ToE7(goal.lon.value), alt)
      && sent[at - outcome.last - 1] == CountSent(outcome.last + 2)
  {
    var alt := HoldAlt(f.relative, f.takeoff);
    var remaining := Remaining(g, f.here, f.clearance, waypoints);
    var route, takeoff := Levelled(remaining, alt), if f.relative >= 2.0 then None else Some(alt);
    if f.here.Some? {
      AdvancedShrinks(g, f.here.value, f.clearance, waypoints);
    }
    UploadEndsAtGoal(route, takeoff, f.clearance, replies);
    assert Last(route) == Last(remaining).(alt := Some(Finite(alt)));
  }

  lemma UploadEndsAtGoal(waypoints: seq<Waypoint>, takeoff: Option<real>, clearance: real, replies: Replies)
    requires Upload(waypoints, takeoff, clearance, replies).1.Uploaded?
    ensures waypoints != [] && Last(waypoints).lat.Finite? && Last(waypoints).lon.Finite?
    ensures var (sent, outcome) := Upload(waypoints, takeoff, clearance, replies);
      var goal, item := Last(waypoints), WaypointItem(Last(waypoints));
      && outcome.last == |waypoints| - 1 + (if takeoff.Some? then 1 else 0) && |sent| == outcome.last + 3
      && sent[0] == CountSent(outcome.last + 2)
      && sent[outcome.last + 1] == ItemSent(outcome.last, NavWaypoint, outcome.last == 0, true, clearance,
                                            ToE7(goal.lat.value), ToE7(goal.lon.value), item.alt)
      && sent[outcome.last + 2] == ItemSent(outcome.last + 1, LoiterUnlimited, false, false, 0.0,
                                            ToE7(goal.lat.value), ToE7(goal.lon.value), item.alt)
  {
    ItemsLaidOut(waypoints, takeoff);
    AllSent(Items(waypoints, takeoff), clearance, replies, |Items(waypoints, takeoff)|);
    EndsOf(Items(waypoints, takeoff), waypoints, takeoff);
  }

  lemma EndsOf(items: seq<Item>, waypoints: seq<Waypoint>, takeoff: Option<real>)
    requires waypoints != [] && LaidOut(items, waypoints, takeoff)
    ensures |items| == |waypoints| + 1 + if takeoff.Some? then 1 else 0
    ensures items[|items| - 2] == WaypointItem(Last(waypoints))
    ensures items[|items| - 1] == WaypointItem(Last(waypoints)).(command := LoiterUnlimited)
  {
    var first := if takeoff.Some? then 1 else 0;
    assert items[first + (|waypoints| - 1)] == WaypointItem(waypoints[|waypoints| - 1]);
  }

  /** A mission uploads exactly when there is a path, every item is asked for in time and has a finite
      position, and the autopilot accepts it. */
  lemma UploadsExactly(waypoints: seq<Waypoint>, takeoff: Option<real>, clearance: real, replies: Replies)
    ensures Upload(waypoints, takeoff, clearance, replies).1.Uploaded? <==>
      && waypoints != [] && replies.ack == Some(0)
      && (forall i :: 0 <= i < |Items(waypoints, takeoff)| ==> replies.requested(i))
      && (forall w :: w in waypoints ==> Located(w.lat, w.lon))
  {
    if waypoints != [] {
      TransfersExactly(Items(waypoints, takeoff), clearance, replies, |Items(waypoints, takeoff)|);
      ItemsFinite(waypoints, takeoff);
    }
  }

  lemma {:induction false} TransfersExactly(items: seq<Item>, clearance: real, replies: Replies, k: nat)
    requires k <= |items|
    ensures Transferred(items, clearance, replies, k).1.None?
      <==> forall i :: 0 <= i < k ==> replies.requested(i) && Located(items[i].lat, items[i].lon)
  {
    if k == 0 {
    } else {
      TransfersExactly(items, clearance, replies, k - 1);
    }
  }

  predicate Located(lat: Num, lon: Num) {
    lat.Finite? && lon.Finite?
  }

  /** The items have finite positions exactly when the waypoints do. */
  lemma ItemsFinite(waypoints: seq<Waypoint>, takeoff: Option<real>)
    requires waypoints != []
    ensures (forall w :: w in waypoints ==> Located(w.lat, w.lon))
      <==> forall i :: 0 <= i < |Items(waypoints, takeoff)| ==>
        Located(Items(waypoints, takeoff)[i].lat, Items(waypoints, takeoff)[i].lon)
  {
    ItemsLaidOut(waypoints, takeoff);
    SamePositions(Items(waypoints, takeoff), waypoints, takeoff);
  }

  lemma SamePositions(items: seq<Item>, waypoints: seq<Waypoint>, takeoff: Option<real>)
    requires waypoints != [] && LaidOut(items, waypoints, takeoff)
    ensures (forall w :: w in waypoints ==> Located(w.lat, w.lon))
      <==> forall i :: 0 <= i < |items| ==> Located(items[i].lat, items[i].lon)
  {
    var first := if takeoff.Some? then 1 else 0;
    forall j | 0 <= j < |waypoints|
      ensures waypoints[j].lat == items[first + j].lat && waypoints[j].lon == items[first + j].lon
    {
      assert items[first + j] == WaypointItem(waypoints[j]);
    }
    forall i | 0 <= i < |items|
      ensures exists j :: 0 <= j < |waypoints| && items[i].lat == waypoints[j].lat && items[i].lon == waypoints[j].lon
    {
      var j := if i < first then 0 else if i == |items| - 1 then |waypoints| - 1 else i - first;
      assert items[first + j].lat == waypoints[j].lat;
      assert items[i].lat == waypoints[j].lat && items[i].lon == waypoints[j].lon;
    }
  }
}
