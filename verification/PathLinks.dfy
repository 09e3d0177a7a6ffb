/** Reading and writing Path elements, `codec/path.py`, over the tree searches of `codec/xmlutil.py`. */
module PathLinks {
  import opened Options
  import opened Text
  import opened Waypoints
  import opened Links
  import opened Logs
  import opened Gathering

  /** An element with its local name; attributes and namespaces play no part. */
  datatype Node = Node(tag: string, text: Option<string>, kids: seq<Node>)

  /** How numbers are written and read, and radians per degree. `read` is None where `float` raises. */
  datatype Format = Format(
    scale: real, angle: Num -> string, plain: Num -> string, read: string -> Option<Num>, uuid: nat -> string)

  type Wire = f: Format | f.scale != 0.0 witness Format(1.0, x => "", x => "", s => None, n => "")

  // ---- Text --------------------------------------------------------------------------------------------

  function Lower(c: char): char {
    if 'A' <= c <= 'Z' then (c as int + 32) as char else c
  }

  function Dashless(s: string): string {
    if s == "" then "" else (if s[0] == '-' then "" else [s[0]]) + Dashless(s[1..])
  }

  /** A segment id with dashes, padding and case removed; None when nothing is left. */
  function HexId(text: Option<string>): Option<string> {
    if text.None? then None
    else
      var bare := Strip(Dashless(text.value));
      if bare == "" then None else Some(seq(|bare|, i requires 0 <= i < |bare| => Lower(bare[i])))
  }

  // ---- Searching the tree ------------------------------------------------------------------------------

  /** The element, then everything below it, in document order. */
  function Iter(n: Node): seq<Node> {
    [n] + IterAll(n.kids)
  }

  function IterAll(ns: seq<Node>): seq<Node> {
    if ns == [] then [] else Iter(ns[0]) + IterAll(ns[1..])
  }

  function First(ns: seq<Node>, tags: set<string>): Option<Node> {
    if ns == [] then None else if ns[0].tag in tags then Some(ns[0]) else First(ns[1..], tags)
  }

  function Tagged(ns: seq<Node>, tags: set<string>): seq<Node> {
    Collect(ns, n => Kept(n, tags))
  }

  function Kept(n: Node, tags: set<string>): seq<Node> {
    if n.tag in tags then [n] else []
  }

  function FindOne(n: Node, tag: string): Option<Node> {
    First(Iter(n), {tag})
  }

  function FindText(n: Node, tag: string): Option<string> {
    var found := FindOne(n, tag);
    if found.None? || found.value.text.None? then None else Some(Strip(found.value.text.value))
  }

  function IdUnder(n: Option<Node>): Option<string> {
    if n.None? then None else HexId(FindText(n.value, "UUID"))
  }

  // ---- One path -------------------------------------------------------------------------------------------

  function Segments(path: Node): seq<Node> {
    Tagged(path.kids, {"PathSegment", "Segment"})
  }

  function SegmentId(seg: Node): Option<string> {
    IdUnder(FindOne(seg, "PathSegmentID"))
  }

  function FirstId(path: Node): Option<string> {
    IdUnder(First(path.kids, {"FirstInPathSegmentID"}))
  }

  function NextId(seg: Node): Option<string> {
    var next := First(seg.kids, {"NextPathSegment"});
    if next.None? then None else IdUnder(FindOne(next.value, "PathSegmentID"))
  }

  const SEGMENTS := Linking(SegmentId, NextId)

  function Degrees(wire: Wire, radians: Num): Num {
    if radians.NonFinite? then radians else Finite(radians.value / wire.scale)
  }

  function Radians(wire: Wire, degrees: Num): Num {
    if degrees.NonFinite? then degrees else Finite(degrees.value * wire.scale)
  }

  /** At most one point, from the texts found; None where reading a number raises. */
  function Read(wire: Wire, lat: Option<string>, lon: Option<string>, alt: Option<string>): Option<seq<Waypoint>> {
    if lat.None? || lat.value == "" || lon.None? || lon.value == "" then Some([])
    else
      var x, y := wire.read(lat.value), wire.read(lon.value);
      if x.None? || y.None? then None
      else if alt.None? || alt.value == "" then Some([Waypoint(Degrees(wire, x.value), Degrees(wire, y.value), None)])
      else
        var z := wire.read(alt.value);
        if z.None? then None else Some([Waypoint(Degrees(wire, x.value), Degrees(wire, y.value), z)])
  }

  function SegmentPoint(wire: Wire, seg: Node): Option<seq<Waypoint>> {
    var point := First(Iter(seg), {"Point2D", "Position"});
    if point.None? then Some([])
    else Read(wire, FindText(point.value, "Latitude"), FindText(point.value, "Longitude"),
      FindText(point.value, "Altitude"))
  }

  /** Text of the last direct child so named, padding removed, "" if it has none. */
  function LastText(kids: seq<Node>, tag: string): Option<string> {
    if kids == [] then None
    else
      var last := kids[|kids| - 1];
      if last.tag == tag then Some(if last.text.None? then "" else Strip(last.text.value))
        else LastText(kids[..|kids| - 1], tag)
  }

  function DirectPoint(wire: Wire, n: Node): Option<seq<Waypoint>> {
    Read(wire, LastText(n.kids, "Latitude"), LastText(n.kids, "Longitude"), LastText(n.kids, "Altitude"))
  }

  function SegmentReader(wire: Wire): Node -> Option<seq<Waypoint>> {
    n => SegmentPoint(wire, n)
  }

  function DirectReader(wire: Wire): Node -> Option<seq<Waypoint>> {
    n => DirectPoint(wire, n)
  }

  function PathPoints(wire: Wire, path: Node): Option<seq<Waypoint>> {
    All(SegmentReader(wire), Ordered(SEGMENTS, Segments(path), FirstId(path)))
  }

  function PathReader(wire: Wire): Node -> Option<seq<Waypoint>> {
    n => PathPoints(wire, n)
  }

  function Parsed(wire: Wire, node: Node): Option<seq<Waypoint>> {
    var linked := All(PathReader(wire), Tagged(Iter(node), {"Path"}));
    if linked == Some([]) then All(DirectReader(wire), Iter(node)) else linked
  }

  // ---- The reader ------------------------------------------------------------------------------------------

  method ReadSegments(wire: Wire, ordered: seq<Node>) returns (points: Option<seq<Waypoint>>)
    ensures points == All(SegmentReader(wire), ordered)
  {
    ghost var read := SegmentReader(wire);
    var found: seq<Waypoint> := [];
    for k := 0 to |ordered|
      invariant Gathered(read, ordered, k) == Some(found)
    {
      var more := SegmentPoint(wire, ordered[k]);
      OneMore(read, ordered, k, found, more);
      if more.None? {
        return None;
      }
      found := found + more.value;
    }
    return Some(found);
  }

  method PathSegmentWaypoints(wire: Wire, path: Node) returns (points: Option<seq<Waypoint>>)
    ensures points == PathReader(wire)(path)
  {
    var segs := Segments(path);
    if segs == [] {
      return Some([]);
    }
    var known := IndexAll(SEGMENTS, segs);
    var ordered := Follow(SEGMENTS, known, FirstId(path));
    if ordered == [] {
      ordered := segs;
    }
    points := ReadSegments(wire, ordered);
  }

  method LinkedWaypoints(wire: Wire, paths: seq<Node>) returns (points: Option<seq<Waypoint>>)
    ensures points == All(PathReader(wire), paths)
  {
    ghost var read := PathReader(wire);
    var found: seq<Waypoint> := [];
    for k := 0 to |paths|
      invariant Gathered(read, paths, k) == Some(found)
    {
      var more := PathSegmentWaypoints(wire, paths[k]);
      OneMore(read, paths, k, found, more);
      if more.None? {
        return None;
      }
      found := found + more.value;
    }
    return Some(found);
  }

  method DirectTexts(n: Node) returns (lat: Option<string>, lon: Option<string>, alt: Option<string>)
    ensures lat == LastText(n.kids, "Latitude") && lon == LastText(n.kids, "Longitude") &&
      alt == LastText(n.kids, "Altitude")
  {
    lat, lon, alt := None, None, None;
    for k := 0 to |n.kids|
      invariant lat == LastText(n.kids[..k], "Latitude")
      invariant lon == LastText(n.kids[..k], "Longitude")
      invariant alt == LastText(n.kids[..k], "Altitude")
    {
      assert n.kids[..k + 1][..k] == n.kids[..k];
      var kid := n.kids[k];
      var text := if kid.text.None? then "" else Strip(kid.text.value);
      if kid.tag == "Latitude" {
        lat := Some(text);
      } else if kid.tag == "Longitude" {
        lon := Some(text);
      } else if kid.tag == "Altitude" {
        alt := Some(text);
      }
    }
    assert n.kids[..|n.kids|] == n.kids;
  }

  method DocumentOrder(wire: Wire, all: seq<Node>) returns (points: Option<seq<Waypoint>>)
    ensures points == All(DirectReader(wire), all)
  {
    ghost var read := DirectReader(wire);
    var found: seq<Waypoint> := [];
    for k := 0 to |all|
      invariant Gathered(read, all, k) == Some(found)
    {
      var lat, lon, alt := DirectTexts(all[k]);
      var more := Read(wire, lat, lon, alt);
      OneMore(read, all, k, found, more);
      if more.None? {
        return None;
      }
      found := found + more.value;
    }
    return Some(found);
  }

  method ParsePathWaypoints(wire: Wire, node: Node) returns (points: Option<seq<Waypoint>>)
    ensures points == Parsed(wire, node)
  {
    points := LinkedWaypoints(wire, Tagged(Iter(node), {"Path"}));
    if points == Some([]) {
      points := DocumentOrder(wire, Iter(node));
    }
  }

  // ---- What is read ----------------------------------------------------------------------------------------

  /** With distinct ids and a first link that resolves, the order the segments are written in is
      irrelevant to what is read. */
  lemma DocumentOrderIrrelevant(wire: Wire, path: Node, shuffled: Node)
    requires multiset(Segments(path)) == multiset(Segments(shuffled)) && FirstId(path) == FirstId(shuffled)
    requires DistinctIds(SEGMENTS, Segments(path))
    requires FirstId(path).Some? && Names(SEGMENTS, Segments(path), FirstId(path).value)
    ensures PathPoints(wire, path) == PathPoints(wire, shuffled)
  {
    ListedOrderIrrelevant(SEGMENTS, Segments(path), Segments(shuffled), FirstId(path).value);
  }

  /** However its segments are laid out in the document, a linked path is read in flight order. */
  lemma ReadInFlightOrder(wire: Wire, path: Node, flight: seq<Node>)
    requires DistinctIds(SEGMENTS, Segments(path)) && Route(SEGMENTS, Segments(path), FirstId(path), flight)
    ensures PathPoints(wire, path) == All(SegmentReader(wire), flight)
  {
    WalkedAlongRoute(SEGMENTS, Segments(path), FirstId(path), flight);
  }

  /** When the first link names no segment the document order is all there is. */
  lemma UnresolvedKeepsDocumentOrder(wire: Wire, path: Node)
    requires FirstId(path).Some? ==> !Names(SEGMENTS, Segments(path), FirstId(path).value)
    ensures PathPoints(wire, path) == All(SegmentReader(wire), Segments(path))
  {
    UnresolvedKeepsListed(SEGMENTS, Segments(path), FirstId(path));
  }

  // ---- The writer ------------------------------------------------------------------------------------------

  function Leaf(tag: string, text: string): Node {
    Node(tag, Some(text), [])
  }

  function IdNode(tag: string, id: string, caption: Option<string>): Node {
    Node(tag, None, [Leaf("UUID", id)] + if caption.Some? then [Leaf("DescriptiveLabel", caption.value)] else [])
  }

  function PointNode(wire: Wire, w: Waypoint): Node {
    Node("Position", None,
      [Leaf("Latitude", wire.angle(Radians(wire, w.lat))), Leaf("Longitude", wire.angle(Radians(wire, w.lon)))]
      + if w.alt.Some? then [Leaf("Altitude", wire.plain(w.alt.value))] else [])
  }

  function SegmentNode(wire: Wire, w: Waypoint, number: nat): Node {
    Node("Segment", None, [IdNode("PathSegmentID", wire.uuid(number), None), PointNode(wire, w)])
  }

  /** The segments of the first k waypoints, numbered from 1. */
  function SegmentNodes(wire: Wire, waypoints: seq<Waypoint>, k: nat): seq<Node>
    requires k <= |waypoints|
  {
    if k == 0 then [] else SegmentNodes(wire, waypoints, k - 1) + [SegmentNode(wire, waypoints[k - 1], k)]
  }

  function Heading(wire: Wire, kind: string): seq<Node> {
    [IdNode("PathID", wire.uuid(1), Some("path-1")), Leaf("PathType", kind)]
  }

  function FieldLinks(airfield: Option<string>, runway: Option<string>): seq<Node> {
    (if airfield.Some? then [IdNode("AirfieldID", airfield.value, Some("home-field"))] else [])
    + (if runway.Some? then [IdNode("RunwayID", runway.value, Some("home-runway"))] else [])
  }

  function Built(wire: Wire, waypoints: seq<Waypoint>, kind: string, airfield: Option<string>,
    runway: Option<string>): Node {
    Node("Path", None, Heading(wire, kind) + SegmentNodes(wire, waypoints, |waypoints|) + FieldLinks(airfield, runway))
  }

  method BuildPathElement(wire: Wire, waypoints: seq<Waypoint>, kind: string, airfield: Option<string>,
    runway: Option<string>)
    returns (path: Node)
    ensures path == Built(wire, waypoints, kind, airfield, runway)
  {
    var children := [IdNode("PathID", wire.uuid(1), Some("path-1")), Leaf("PathType", kind)];
    for k := 0 to |waypoints|
      invariant children == Heading(wire, kind) + SegmentNodes(wire, waypoints, k)
    {
      var w := waypoints[k];
      var kids := [Leaf("Latitude", wire.angle(Radians(wire, w.lat))),
        Leaf("Longitude", wire.angle(Radians(wire, w.lon)))];
      if w.alt.Some? {
        kids := kids + [Leaf("Altitude", wire.plain(w.alt.value))];
      }
      var position := Node("Position", None, kids);
      assert position == PointNode(wire, w);
      children := children + [Node("Segment", None, [IdNode("PathSegmentID", wire.uuid(k + 1), None), position])];
    }
    ghost var all := children;
    if airfield.Some? {
      children := children + [IdNode("AirfieldID", airfield.value, Some("home-field"))];
    }
    if runway.Some? {
      children := children + [IdNode("RunwayID", runway.value, Some("home-runway"))];
    }
    assert children == all + FieldLinks(airfield, runway);
    path := Node("Path", None, children);
  }

  // ---- The round trip --------------------------------------------------------------------------------------

  /** Nothing at or below the element has one of these names. */
  predicate Free(n: Node, tags: set<string>) {
    n.tag !in tags && forall i :: 0 <= i < |n.kids| ==> Free(n.kids[i], tags)
  }

  lemma TaggedAppend(a: seq<Node>, b: seq<Node>, tags: set<string>)
    ensures Tagged(a + b, tags) == Tagged(a, tags) + Tagged(b, tags)
  {
    CollectAppend(a, b, n => Kept(n, tags));
  }

  lemma {:induction false} FirstAppend(a: seq<Node>, b: seq<Node>, tags: set<string>)
    ensures First(a + b, tags) == if First(a, tags).Some? then First(a, tags) else First(b, tags)
  {
    if a == [] {
      assert a + b == b;
    } else {
      FirstAppend(a[1..], b, tags);
      assert (a + b)[0] == a[0] && (a + b)[1..] == a[1..] + b;
    }
  }

  lemma NoneTagged(ns: seq<Node>, tags: set<string>)
    requires forall i :: 0 <= i < |ns| ==> ns[i].tag !in tags
    ensures Tagged(ns, tags) == []
  {
    CollectNothing(ns, n => Kept(n, tags));
  }

  lemma {:induction false} NoneFirst(ns: seq<Node>, tags: set<string>)
    requires forall i :: 0 <= i < |ns| ==> ns[i].tag !in tags
    ensures First(ns, tags) == None
  {
    if ns == [] {
    } else {
      NoneFirst(ns[1..], tags);
    }
  }

  lemma AllTagged(ns: seq<Node>, tags: set<string>)
    requires forall i :: 0 <= i < |ns| ==> ns[i].tag in tags
    ensures Tagged(ns, tags) == ns
  {
    CollectSame(ns, n => Kept(n, tags));
  }

  lemma {:induction false} FreeIter(n: Node, tags: set<string>)
    requires Free(n, tags)
    ensures forall i :: 0 <= i < |Iter(n)| ==> Free(Iter(n)[i], tags)
  {
    FreeIterAll(n.kids, tags);
  }

  lemma {:induction false} FreeIterAll(ns: seq<Node>, tags: set<string>)
    requires forall i :: 0 <= i < |ns| ==> Free(ns[i], tags)
    ensures forall i :: 0 <= i < |IterAll(ns)| ==> Free(IterAll(ns)[i], tags)
  {
    if ns == [] {
    } else {
      FreeIter(ns[0], tags);
      FreeIterAll(ns[1..], tags);
    }
  }

  lemma IterTwo(a: Node, b: Node)
    ensures IterAll([a, b]) == Iter(a) + Iter(b)
  {
    assert [a, b][1..] == [b] && [b][1..] == [];
    assert IterAll([b]) == Iter(b);
  }

  lemma {:induction false} IterLeaves(ns: seq<Node>)
    requires forall i :: 0 <= i < |ns| ==> ns[i].kids == []
    ensures IterAll(ns) == ns
  {
    if ns == [] {
    } else {
      IterLeaves(ns[1..]);
      assert IterAll(ns[0].kids) == [];
      assert Iter(ns[0]) == [ns[0]];
      assert ns == [ns[0]] + ns[1..];
    }
  }

  // What a number's text gives back is the format's business: the lemmas say which waypoints survive it.

  /** The text of a number is neither empty nor unreadable, and reads as that number. */
  predicate ReadsBack(wire: Wire, text: string, x: Num) {
    Strip(text) != "" && wire.read(Strip(text)) == Some(x)
  }

  /** Each number of the waypoint reads back from the text it is written as. */
  predicate Survives(wire: Wire, w: Waypoint) {
    && ReadsBack(wire, wire.angle(Radians(wire, w.lat)), Radians(wire, w.lat))
    && ReadsBack(wire, wire.angle(Radians(wire, w.lon)), Radians(wire, w.lon))
    && (w.alt.Some? ==> ReadsBack(wire, wire.plain(w.alt.value), w.alt.value))
  }

  /** What reading the texts of a waypoint gives: a point, nothing, or a `ValueError`. */
  function AsRead(wire: Wire, w: Waypoint): Option<seq<Waypoint>> {
    Read(wire, Some(Strip(wire.angle(Radians(wire, w.lat)))), Some(Strip(wire.angle(Radians(wire, w.lon)))),
         if w.alt.Some? then Some(Strip(wire.plain(w.alt.value))) else None)
  }

  function WaypointReader(wire: Wire): Waypoint -> Option<seq<Waypoint>> {
    w => AsRead(wire, w)
  }

  lemma DegreesUndo(wire: Wire, radians: Num, degrees: Num)
    ensures Degrees(wire, radians) == degrees <==> radians == Radians(wire, degrees)
  {
    if radians.Finite? && degrees.Finite? {
      assert radians.value / wire.scale * wire.scale == radians.value;
      assert degrees.value * wire.scale / wire.scale == degrees.value;
    }
  }

  /** A waypoint is read back as itself exactly when each of its numbers is. */
  lemma SurvivesExactly(wire: Wire, w: Waypoint)
    ensures AsRead(wire, w) == Some([w]) <==> Survives(wire, w)
  {
    var x := wire.read(Strip(wire.angle(Radians(wire, w.lat))));
    var y := wire.read(Strip(wire.angle(Radians(wire, w.lon))));
    if x.Some? && y.Some? {
      DegreesUndo(wire, x.value, w.lat);
      DegreesUndo(wire, y.value, w.lon);
    }
    var read := AsRead(wire, w);
    if read.Some? && read.value != [] {
      assert read == Some([w]) <==> read.value[0] == w;
    }
  }

  /** A written point is found in its position by name. */
  lemma PointTexts(wire: Wire, w: Waypoint)
    ensures var p := PointNode(wire, w);
      && FindText(p, "Latitude") == Some(Strip(wire.angle(Radians(wire, w.lat))))
      && FindText(p, "Longitude") == Some(Strip(wire.angle(Radians(wire, w.lon))))
      && FindText(p, "Altitude") == if w.alt.Some? then Some(Strip(wire.plain(w.alt.value))) else None
  {
    var p := PointNode(wire, w);
    IterLeaves(p.kids);
    var lat, lon := Leaf("Latitude", wire.angle(Radians(wire, w.lat))),
      Leaf("Longitude", wire.angle(Radians(wire, w.lon)));
    var rest := if w.alt.Some? then [Leaf("Altitude", wire.plain(w.alt.value))] else [];
    assert Iter(p) == [p, lat, lon] + rest;
    FirstAppend([p, lat, lon], rest, {"Latitude"});
    FirstAppend([p, lat, lon], rest, {"Longitude"});
    FirstAppend([p, lat, lon], rest, {"Altitude"});
    FirstOfThree(p, lat, lon, {"Latitude"});
    FirstOfThree(p, lat, lon, {"Longitude"});
    FirstOfThree(p, lat, lon, {"Altitude"});
  }

  lemma FirstOfThree(a: Node, b: Node, c: Node, tags: set<string>)
    ensures First([a, b, c], tags) ==
      if a.tag in tags then Some(a) else if b.tag in tags then Some(b) else if c.tag in tags then Some(c) else None
  {
    assert [a, b, c][1..] == [b, c] && [b, c][1..] == [c] && [c][1..] == [];
    assert First([c], tags) == if c.tag in tags then Some(c) else None;
    assert First([b, c], tags) == if b.tag in tags then Some(b) else First([c], tags);
  }

  /** A written segment reads as the texts of its waypoint do. */
  lemma SegmentBack(wire: Wire, w: Waypoint, number: nat)
    ensures SegmentPoint(wire, SegmentNode(wire, w, number)) == AsRead(wire, w)
  {
    var seg, id, p := SegmentNode(wire, w, number), IdNode("PathSegmentID", wire.uuid(number), None),
      PointNode(wire, w);
    var tags := {"Point2D", "Position"};
    IterTwo(id, p);
    assert id.kids == [Leaf("UUID", wire.uuid(number))];
    IterLeaves(id.kids);
    assert Iter(seg) == [seg, id, id.kids[0]] + Iter(p);
    FirstOfThree(seg, id, id.kids[0], tags);
    FirstAppend([seg, id, id.kids[0]], Iter(p), tags);
    assert First(Iter(seg), tags) == Some(p);
    PointTexts(wire, w);
  }

  lemma {:induction false} SegmentNodesAt(wire: Wire, waypoints: seq<Waypoint>, k: nat)
    requires k <= |waypoints|
    ensures |SegmentNodes(wire, waypoints, k)| == k
    ensures forall i :: 0 <= i < k ==> SegmentNodes(wire, waypoints, k)[i] == SegmentNode(wire, waypoints[i], i + 1)
  {
    if k == 0 {
    } else {
      SegmentNodesAt(wire, waypoints, k - 1);
    }
  }

  lemma TaggedBetween(head: seq<Node>, middle: seq<Node>, tail: seq<Node>, tags: set<string>)
    requires forall i :: 0 <= i < |head| ==> head[i].tag !in tags
    requires forall i :: 0 <= i < |middle| ==> middle[i].tag in tags
    requires forall i :: 0 <= i < |tail| ==> tail[i].tag !in tags
    ensures Tagged(head + middle + tail, tags) == middle
  {
    TaggedAppend(head + middle, tail, tags);
    TaggedAppend(head, middle, tags);
    NoneTagged(head, tags);
    AllTagged(middle, tags);
    NoneTagged(tail, tags);
  }

  /** A path holds exactly its own segments, in order. */
  lemma BuiltSegments(wire: Wire, waypoints: seq<Waypoint>, kind: string, airfield: Option<string>,
    runway: Option<string>)
    ensures Segments(Built(wire, waypoints, kind, airfield, runway)) == SegmentNodes(wire, waypoints, |waypoints|)
  {
    SegmentNodesAt(wire, waypoints, |waypoints|);
    TaggedBetween(Heading(wire, kind), SegmentNodes(wire, waypoints, |waypoints|), FieldLinks(airfield, runway),
      {"PathSegment", "Segment"});
  }

  /** A written path names no first segment. */
  lemma BuiltUnlinked(wire: Wire, waypoints: seq<Waypoint>, kind: string, airfield: Option<string>,
    runway: Option<string>)
    ensures FirstId(Built(wire, waypoints, kind, airfield, runway)) == None
  {
    SegmentNodesAt(wire, waypoints, |waypoints|);
    NoneFirst(Built(wire, waypoints, kind, airfield, runway).kids, {"FirstInPathSegmentID"});
  }

  lemma SegmentsBack(wire: Wire, waypoints: seq<Waypoint>, segs: seq<Node>)
    requires |segs| == |waypoints|
    requires forall i :: 0 <= i < |segs| ==> segs[i] == SegmentNode(wire, waypoints[i], i + 1)
    ensures All(SegmentReader(wire), segs) == All(WaypointReader(wire), waypoints)
  {
    forall i | 0 <= i < |segs|
      ensures SegmentReader(wire)(segs[i]) == WaypointReader(wire)(waypoints[i])
    {
      SegmentBack(wire, waypoints[i], i + 1);
    }
    SameReadings(SegmentReader(wire), segs, WaypointReader(wire), waypoints, |segs|);
  }

  /** A written path reads as the texts of its waypoints do. */
  lemma PathBack(wire: Wire, waypoints: seq<Waypoint>, kind: string, airfield: Option<string>, runway: Option<string>)
    ensures PathPoints(wire, Built(wire, waypoints, kind, airfield, runway)) == All(WaypointReader(wire), waypoints)
  {
    BuiltSegments(wire, waypoints, kind, airfield, runway);
    BuiltUnlinked(wire, waypoints, kind, airfield, runway);
    UnlinkedKeepsListed(SEGMENTS, SegmentNodes(wire, waypoints, |waypoints|));
    SegmentNodesAt(wire, waypoints, |waypoints|);
    SegmentsBack(wire, waypoints, SegmentNodes(wire, waypoints, |waypoints|));
  }

  lemma OnePath(wire: Wire, path: Node)
    ensures All(PathReader(wire), [path]) == PathPoints(wire, path)
  {
    OneMore(PathReader(wire), [path], 0, [], PathPoints(wire, path));
    if PathPoints(wire, path).Some? {
      assert [] + PathPoints(wire, path).value == PathPoints(wire, path).value;
    }
  }

  /** Wherever the one Path of an element is a written path that gives a point or fails, the element
      reads as the path's waypoints do; so waypoints that survive are read back. */
  lemma ReadsAnywhere(
    wire: Wire, node: Node, waypoints: seq<Waypoint>, kind: string, airfield: Option<string>, runway: Option<string>)
    requires Tagged(Iter(node), {"Path"}) == [Built(wire, waypoints, kind, airfield, runway)]
    ensures All(WaypointReader(wire), waypoints) != Some([]) ==>
      Parsed(wire, node) == All(WaypointReader(wire), waypoints)
    ensures waypoints != [] && (forall w :: w in waypoints ==> Survives(wire, w)) ==>
      Parsed(wire, node) == Some(waypoints)
  {
    PathBack(wire, waypoints, kind, airfield, runway);
    OnePath(wire, Built(wire, waypoints, kind, airfield, runway));
    ListSurvivesExactly(wire, waypoints);
  }

  /** A list is read back as itself exactly when each waypoint survives. */
  lemma ListSurvivesExactly(wire: Wire, waypoints: seq<Waypoint>)
    ensures All(WaypointReader(wire), waypoints) == Some(waypoints)
      <==> forall w :: w in waypoints ==> Survives(wire, w)
  {
    forall i | 0 <= i < |waypoints|
      ensures WaypointReader(wire)(waypoints[i]) == Some([waypoints[i]]) <==> Survives(wire, waypoints[i])
    {
      SurvivesExactly(wire, waypoints[i]);
    }
    assert waypoints[..|waypoints|] == waypoints;
    if forall w :: w in waypoints ==> Survives(wire, w) {
      EachGives(WaypointReader(wire), waypoints, waypoints, |waypoints|);
    }
    if All(WaypointReader(wire), waypoints) == Some(waypoints) {
      EachGave(WaypointReader(wire), waypoints, waypoints, |waypoints|);
    }
  }

  lemma IdFree(tag: string, id: string, caption: Option<string>, tags: set<string>)
    requires tag !in tags && "UUID" !in tags && "DescriptiveLabel" !in tags
    ensures Free(IdNode(tag, id, caption), tags)
  {
  }

  lemma SegmentFree(wire: Wire, w: Waypoint, number: nat)
    ensures Free(SegmentNode(wire, w, number), {"Path"})
  {
    var seg := SegmentNode(wire, w, number);
    IdFree("PathSegmentID", wire.uuid(number), None, {"Path"});
    assert forall i :: 0 <= i < |PointNode(wire, w).kids| ==> Free(PointNode(wire, w).kids[i], {"Path"});
    assert Free(PointNode(wire, w), {"Path"});
  }

  lemma EndsFree(wire: Wire, kind: string, airfield: Option<string>, runway: Option<string>)
    ensures forall i :: 0 <= i < |Heading(wire, kind)| ==> Free(Heading(wire, kind)[i], {"Path"})
    ensures forall i :: 0 <= i < |FieldLinks(airfield, runway)| ==> Free(FieldLinks(airfield, runway)[i], {"Path"})
  {
    IdFree("PathID", wire.uuid(1), Some("path-1"), {"Path"});
    if airfield.Some? {
      IdFree("AirfieldID", airfield.value, Some("home-field"), {"Path"});
    }
    if runway.Some? {
      IdFree("RunwayID", runway.value, Some("home-runway"), {"Path"});
    }
  }

  lemma BuiltKidsFree(
    wire: Wire, waypoints: seq<Waypoint>, kind: string, airfield: Option<string>, runway: Option<string>)
    ensures forall i :: 0 <= i < |Built(wire, waypoints, kind, airfield, runway).kids| ==>
      Free(Built(wire, waypoints, kind, airfield, runway).kids[i], {"Path"})
  {
    var segs := SegmentNodes(wire, waypoints, |waypoints|);
    SegmentNodesAt(wire, waypoints, |waypoints|);
    forall i | 0 <= i < |segs|
      ensures Free(segs[i], {"Path"})
    {
      SegmentFree(wire, waypoints[i], i + 1);
    }
    EndsFree(wire, kind, airfield, runway);
  }

  // ---- When no segment gives a point -----------------------------------------------------------------------

  /** The scan finds no point at the element or below it. */
  predicate Blank(wire: Wire, n: Node) {
    DirectPoint(wire, n) == Some([]) && forall i :: 0 <= i < |n.kids| ==> Blank(wire, n.kids[i])
  }

  lemma {:induction false} BlankIter(wire: Wire, n: Node)
    requires Blank(wire, n)
    ensures forall i :: 0 <= i < |Iter(n)| ==> DirectPoint(wire, Iter(n)[i]) == Some([])
  {
    BlankIterAll(wire, n.kids);
  }

  lemma {:induction false} BlankIterAll(wire: Wire, ns: seq<Node>)
    requires forall i :: 0 <= i < |ns| ==> Blank(wire, ns[i])
    ensures forall i :: 0 <= i < |IterAll(ns)| ==> DirectPoint(wire, IterAll(ns)[i]) == Some([])
  {
    if ns == [] {
    } else {
      BlankIter(wire, ns[0]);
      BlankIterAll(wire, ns[1..]);
    }
  }

  lemma NothingToScan(wire: Wire, path: Node)
    requires Blank(wire, path)
    ensures All(DirectReader(wire), Iter(path)) == Some([])
  {
    BlankIter(wire, path);
    NothingGiven(DirectReader(wire), Iter(path), |Iter(path)|);
  }

  lemma {:induction false} NoSuchText(kids: seq<Node>, tag: string)
    requires forall i :: 0 <= i < |kids| ==> kids[i].tag != tag
    ensures LastText(kids, tag) == None
  {
    if kids == [] {
    } else {
      NoSuchText(kids[..|kids| - 1], tag);
    }
  }

  /** An element whose children are blank and no latitude. */
  lemma BlankParent(wire: Wire, n: Node)
    requires forall i :: 0 <= i < |n.kids| ==> n.kids[i].tag != "Latitude" && Blank(wire, n.kids[i])
    ensures Blank(wire, n)
  {
    NoSuchText(n.kids, "Latitude");
  }

  lemma IdBlank(wire: Wire, tag: string, id: string, caption: Option<string>)
    ensures Blank(wire, IdNode(tag, id, caption))
  {
    var n := IdNode(tag, id, caption);
    forall i | 0 <= i < |n.kids|
      ensures n.kids[i].tag != "Latitude" && Blank(wire, n.kids[i])
    {
      BlankParent(wire, n.kids[i]);
    }
    BlankParent(wire, n);
  }

  /** The scan reads a written point from the same texts. */
  lemma PointScanned(wire: Wire, w: Waypoint)
    ensures DirectPoint(wire, PointNode(wire, w)) == AsRead(wire, w)
  {
    var lat, lon := Leaf("Latitude", wire.angle(Radians(wire, w.lat))),
      Leaf("Longitude", wire.angle(Radians(wire, w.lon)));
    var rest := if w.alt.Some? then [Leaf("Altitude", wire.plain(w.alt.value))] else [];
    assert PointNode(wire, w).kids == [lat, lon] + rest && [lat, lon] == [lat] + [lon] && [lat] == [] + [lat];
    forall tag: string
      ensures LastText([lat, lon], tag) == if tag == lon.tag then Some(Strip(lon.text.value)) else LastText([lat], tag)
      ensures LastText([lat], tag) == if tag == lat.tag then Some(Strip(lat.text.value)) else None
    {
      LastTextAppend([lat], lon, tag);
      LastTextAppend([], lat, tag);
    }
    if w.alt.Some? {
      LastTextAppend([lat, lon], rest[0], "Latitude");
      LastTextAppend([lat, lon], rest[0], "Longitude");
      LastTextAppend([lat, lon], rest[0], "Altitude");
    } else {
      assert [lat, lon] + rest == [lat, lon];
    }
  }

  lemma LastTextAppend(kids: seq<Node>, last: Node, tag: string)
    ensures LastText(kids + [last], tag) ==
      if last.tag == tag then Some(if last.text.None? then "" else Strip(last.text.value)) else LastText(kids, tag)
  {
    assert (kids + [last])[..|kids|] == kids;
  }

  lemma SegmentBlank(wire: Wire, w: Waypoint, number: nat)
    requires AsRead(wire, w) == Some([])
    ensures Blank(wire, SegmentNode(wire, w, number))
  {
    var p := PointNode(wire, w);
    forall i | 0 <= i < |p.kids|
      ensures Blank(wire, p.kids[i])
    {
      BlankParent(wire, p.kids[i]);
    }
    PointScanned(wire, w);
    IdBlank(wire, "PathSegmentID", wire.uuid(number), None);
    BlankParent(wire, SegmentNode(wire, w, number));
  }

  lemma BuiltBlank(
    wire: Wire, waypoints: seq<Waypoint>, kind: string, airfield: Option<string>, runway: Option<string>)
    requires forall i :: 0 <= i < |waypoints| ==> AsRead(wire, waypoints[i]) == Some([])
    ensures Blank(wire, Built(wire, waypoints, kind, airfield, runway))
  {
    var segs := SegmentNodes(wire, waypoints, |waypoints|);
    SegmentNodesAt(wire, waypoints, |waypoints|);
    forall i | 0 <= i < |segs|
      ensures segs[i].tag != "Latitude" && Blank(wire, segs[i])
    {
      SegmentBlank(wire, waypoints[i], i + 1);
    }
    EndsBlank(wire, kind, airfield, runway);
    BlankParent(wire, Built(wire, waypoints, kind, airfield, runway));
  }

  lemma EndsBlank(wire: Wire, kind: string, airfield: Option<string>, runway: Option<string>)
    ensures forall i :: 0 <= i < |Heading(wire, kind)| ==>
      Heading(wire, kind)[i].tag != "Latitude" && Blank(wire, Heading(wire, kind)[i])
    ensures forall i :: 0 <= i < |FieldLinks(airfield, runway)| ==>
      FieldLinks(airfield, runway)[i].tag != "Latitude" && Blank(wire, FieldLinks(airfield, runway)[i])
  {
    IdBlank(wire, "PathID", wire.uuid(1), Some("path-1"));
    BlankParent(wire, Leaf("PathType", kind));
    if airfield.Some? {
      IdBlank(wire, "AirfieldID", airfield.value, Some("home-field"));
    }
    if runway.Some? {
      IdBlank(wire, "RunwayID", runway.value, Some("home-runway"));
    }
  }

  // ---- The round trip, exactly ---------------------------------------------------------------------------

  lemma OnlyPath(
    wire: Wire, waypoints: seq<Waypoint>, kind: string, airfield: Option<string>, runway: Option<string>)
    ensures var path := Built(wire, waypoints, kind, airfield, runway); Tagged(Iter(path), {"Path"}) == [path]
  {
    var path := Built(wire, waypoints, kind, airfield, runway);
    BuiltKidsFree(wire, waypoints, kind, airfield, runway);
    FreeIterAll(path.kids, {"Path"});
    NoneTagged(IterAll(path.kids), {"Path"});
    TaggedAppend([path], IterAll(path.kids), {"Path"});
    AllTagged([path], {"Path"});
  }

  /** Whatever the number format, reading a written path gives what its waypoints' texts give, point by
      point: by the segments, or, when they give no point at all, by the scan, which finds none either. */
  lemma WrittenPathReads(
    wire: Wire, waypoints: seq<Waypoint>, kind: string, airfield: Option<string>, runway: Option<string>)
    ensures Parsed(wire, Built(wire, waypoints, kind, airfield, runway)) == All(WaypointReader(wire), waypoints)
  {
    var path := Built(wire, waypoints, kind, airfield, runway);
    OnlyPath(wire, waypoints, kind, airfield, runway);
    PathBack(wire, waypoints, kind, airfield, runway);
    OnePath(wire, path);
    if All(WaypointReader(wire), waypoints) == Some([]) {
      NothingGave(WaypointReader(wire), waypoints, |waypoints|);
      BuiltBlank(wire, waypoints, kind, airfield, runway);
      NothingToScan(wire, path);
    }
  }

  /** What is written is read back, for every list of waypoints, exactly when every number in it reads back
      from its own text. */
  lemma WrittenPathReadsBack(
    wire: Wire, waypoints: seq<Waypoint>, kind: string, airfield: Option<string>, runway: Option<string>)
    ensures Parsed(wire, Built(wire, waypoints, kind, airfield, runway)) == Some(waypoints)
      <==> forall w :: w in waypoints ==> Survives(wire, w)
  {
    WrittenPathReads(wire, waypoints, kind, airfield, runway);
    ListSurvivesExactly(wire, waypoints);
  }
}
