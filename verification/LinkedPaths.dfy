/** Linked paths as trees: the elements of one, listed in any order, read back in flight order. */
module LinkedPaths {
  import opened Options
  import opened Text
  import opened Waypoints
  import opened Links
  import opened Gathering
  import opened PathLinks

  // ---- How an id may be spelled ------------------------------------------------------------------------------

  /** An id in its plainest spelling: some characters, none of them a dash, a space or a capital. */
  predicate Plain(id: string) {
    id != "" && forall i :: 0 <= i < |id| ==> id[i] != '-' && !IsSpace(id[i]) && !('A' <= id[i] <= 'Z')
  }

  /** The same character, or its capital. */
  predicate SameLetter(c: char, plain: char) {
    c == plain || ('a' <= plain <= 'z' && c as int == plain as int - 32)
  }

  /** The text spells the id in either case, with dashes anywhere. */
  predicate Spelling(text: string, id: string) {
    if text == "" then id == ""
    else if text[0] == '-' then Spelling(text[1..], id)
    else id != "" && SameLetter(text[0], id[0]) && Spelling(text[1..], id[1..])
  }

  predicate AllSpace(s: string) {
    forall i :: 0 <= i < |s| ==> IsSpace(s[i])
  }

  /** Padding at either end is what Strip removes, and all it removes. */
  lemma PaddingRemoved(before: string, core: string, after: string)
    requires AllSpace(before) && AllSpace(after)
    requires core != "" ==> !IsSpace(core[0]) && !IsSpace(core[|core| - 1])
    ensures Strip(before + core + after) == core
  {
    assert before + core + after == before + (core + after);
    if core == "" {
      LeftRemoved(before + after, "");
      assert before + core + after == (before + after) + "";
    } else {
      LeftRemoved(before, core + after);
      RightRemoved(core, after);
    }
  }

  lemma {:induction false} LeftRemoved(before: string, rest: string)
    requires AllSpace(before) && (rest != "" ==> !IsSpace(rest[0]))
    ensures StripLeft(before + rest) == rest
  {
    if before == "" {
      assert before + rest == rest;
    } else {
      LeftRemoved(before[1..], rest);
      assert (before + rest)[1..] == before[1..] + rest;
    }
  }

  lemma {:induction false} RightRemoved(rest: string, after: string)
    requires AllSpace(after) && (rest != "" ==> !IsSpace(rest[|rest| - 1]))
    ensures StripRight(rest + after) == rest
  {
    if after == "" {
      assert rest + after == rest;
    } else {
      var front := after[..|after| - 1];
      RightRemoved(rest, front);
      assert (rest + after)[..|rest + after| - 1] == rest + front;
    }
  }

  lemma {:induction false} DashesRemoved(text: string, id: string)
    requires Spelling(text, id)
    ensures |Dashless(text)| == |id|
    ensures forall i :: 0 <= i < |id| ==> SameLetter(Dashless(text)[i], id[i])
  {
    if text == "" {
    } else if text[0] == '-' {
      DashesRemoved(text[1..], id);
      assert Dashless(text) == Dashless(text[1..]);
    } else {
      DashesRemoved(text[1..], id[1..]);
      assert Dashless(text) == [text[0]] + Dashless(text[1..]);
    }
  }

  lemma LetterRead(c: char, plain: char)
    requires SameLetter(c, plain) && plain != '-' && !IsSpace(plain) && !('A' <= plain <= 'Z')
    ensures !IsSpace(c) && Lower(c) == plain
  {
  }

  /** Every spelling of an id is read as its plainest one. */
  lemma SpellingRead(text: string, id: string)
    requires Plain(id) && Spelling(text, id)
    ensures HexId(Some(text)) == Some(id)
  {
    DashesRemoved(text, id);
    var bare := Dashless(text);
    forall i | 0 <= i < |bare|
      ensures !IsSpace(bare[i]) && Lower(bare[i]) == id[i]
    {
      LetterRead(bare[i], id[i]);
    }
    NothingRemoved(bare);
    assert seq(|bare|, i requires 0 <= i < |bare| => Lower(bare[i])) == id;
  }

  lemma NothingRemoved(s: string)
    requires forall i :: 0 <= i < |s| ==> !IsSpace(s[i])
    ensures Strip(s) == s
  {
    PaddingRemoved("", s, "");
    assert "" + s + "" == s;
  }

  // ---- A linked path as elements -----------------------------------------------------------------------------

  /** One leg: its id, how its own segment and how the link to it spell that, and where it ends. */
  datatype Leg = Leg(id: string, own: string, link: string, tag: string, at: Waypoint)

  /** Both spellings are of the id, padding apart, and the segment goes by one of its two names. */
  predicate WellSpelled(leg: Leg) {
    && Plain(leg.id) && Spelling(Strip(leg.own), leg.id) && Spelling(Strip(leg.link), leg.id)
    && (leg.tag == "PathSegment" || leg.tag == "Segment")
  }

  ghost predicate Linkable(legs: seq<Leg>) {
    && legs != [] && (forall i :: 0 <= i < |legs| ==> WellSpelled(legs[i]))
    && forall i, j :: 0 <= i < j < |legs| ==> legs[i].id != legs[j].id
  }

  function NextNode(link: string): Node {
    Node("NextPathSegment", None, [IdNode("PathSegmentID", link, None)])
  }

  /** A leg's segment: its id, its position and, but for the last, the link to the one after it. */
  function LegNode(wire: Wire, legs: seq<Leg>, i: nat): Node
    requires i < |legs|
  {
    Node(legs[i].tag, None,
      [IdNode("PathSegmentID", legs[i].own, None), PointNode(wire, legs[i].at)]
      + if i + 1 < |legs| then [NextNode(legs[i + 1].link)] else [])
  }

  function LegNodes(wire: Wire, legs: seq<Leg>): seq<Node> {
    seq(|legs|, i requires 0 <= i < |legs| => LegNode(wire, legs, i))
  }

  /** The path: which leg is first, then the segments in whatever order they come. */
  function LinkedPath(legs: seq<Leg>, segs: seq<Node>): Node
    requires legs != []
  {
    Node("Path", None, [IdNode("FirstInPathSegmentID", legs[0].link, None)] + segs)
  }

  function Ends(legs: seq<Leg>): seq<Waypoint> {
    seq(|legs|, i requires 0 <= i < |legs| => legs[i].at)
  }

  // ---- What the elements say ---------------------------------------------------------------------------------

  lemma FirstOfTwo(a: Node, b: Node, tags: set<string>)
    ensures First([a, b], tags) == if a.tag in tags then Some(a) else if b.tag in tags then Some(b) else None
  {
    assert [a, b][1..] == [b] && [b][1..] == [];
    assert First([b], tags) == if b.tag in tags then Some(b) else None;
  }

  lemma IdRead(tag: string, text: string, id: string)
    requires Plain(id) && Spelling(Strip(text), id) && tag != "UUID"
    ensures Iter(IdNode(tag, text, None)) == [IdNode(tag, text, None), Leaf("UUID", text)]
    ensures IdUnder(Some(IdNode(tag, text, None))) == Some(id)
  {
    var n, leaf := IdNode(tag, text, None), Leaf("UUID", text);
    assert n.kids == [leaf];
    IterLeaves([leaf]);
    assert Iter(n) == [n, leaf];
    FirstOfTwo(n, leaf, {"UUID"});
    SpellingRead(Strip(text), id);
  }

  lemma LegIter(wire: Wire, legs: seq<Leg>, i: nat)
    requires i < |legs|
    ensures var seg, id := LegNode(wire, legs, i), IdNode("PathSegmentID", legs[i].own, None);
      exists rest :: Iter(seg) == [seg, id, Leaf("UUID", legs[i].own)] + Iter(PointNode(wire, legs[i].at)) + rest
  {
    var seg, id := LegNode(wire, legs, i), IdNode("PathSegmentID", legs[i].own, None);
    var p := PointNode(wire, legs[i].at);
    var tail := seg.kids[2..];
    assert seg.kids[1..] == [p] + tail && ([p] + tail)[1..] == tail;
    assert id.kids == [Leaf("UUID", legs[i].own)];
    IterLeaves(id.kids);
    assert Iter(id) == [id, Leaf("UUID", legs[i].own)];
    assert IterAll(seg.kids) == Iter(id) + IterAll([p] + tail);
    assert IterAll([p] + tail) == Iter(p) + IterAll(tail);
    assert Iter(seg) == [seg, id, Leaf("UUID", legs[i].own)] + Iter(p) + IterAll(tail);
  }

  lemma LegNamed(wire: Wire, legs: seq<Leg>, i: nat)
    requires Linkable(legs) && i < |legs|
    ensures SegmentId(LegNode(wire, legs, i)) == Some(legs[i].id)
  {
    var seg, id := LegNode(wire, legs, i), IdNode("PathSegmentID", legs[i].own, None);
    LegIter(wire, legs, i);
    var rest :| Iter(seg) == [seg, id, Leaf("UUID", legs[i].own)] + Iter(PointNode(wire, legs[i].at)) + rest;
    FirstOfThree(seg, id, Leaf("UUID", legs[i].own), {"PathSegmentID"});
    FirstAppend([seg, id, Leaf("UUID", legs[i].own)] + Iter(PointNode(wire, legs[i].at)), rest, {"PathSegmentID"});
    FirstAppend([seg, id, Leaf("UUID", legs[i].own)], Iter(PointNode(wire, legs[i].at)), {"PathSegmentID"});
    IdRead("PathSegmentID", legs[i].own, legs[i].id);
  }

  lemma LegReads(wire: Wire, legs: seq<Leg>, i: nat)
    requires Linkable(legs) && i < |legs|
    ensures SegmentPoint(wire, LegNode(wire, legs, i)) == AsRead(wire, legs[i].at)
  {
    var seg, id, p := LegNode(wire, legs, i), IdNode("PathSegmentID", legs[i].own, None), PointNode(wire, legs[i].at);
    var tags := {"Point2D", "Position"};
    LegIter(wire, legs, i);
    var rest :| Iter(seg) == [seg, id, Leaf("UUID", legs[i].own)] + Iter(p) + rest;
    FirstOfThree(seg, id, Leaf("UUID", legs[i].own), tags);
    FirstAppend([seg, id, Leaf("UUID", legs[i].own)] + Iter(p), rest, tags);
    FirstAppend([seg, id, Leaf("UUID", legs[i].own)], Iter(p), tags);
    assert First(Iter(seg), tags) == Some(p);
    PointTexts(wire, legs[i].at);
  }

  lemma LegLinks(wire: Wire, legs: seq<Leg>, i: nat)
    requires Linkable(legs) && i < |legs|
    ensures NextId(LegNode(wire, legs, i)) == if i + 1 < |legs| then Some(legs[i + 1].id) else None
  {
    var seg, id, p := LegNode(wire, legs, i), IdNode("PathSegmentID", legs[i].own, None), PointNode(wire, legs[i].at);
    var tags := {"NextPathSegment"};
    assert seg.kids == [id, p] + seg.kids[2..];
    NoneFirst([id, p], tags);
    FirstAppend([id, p], seg.kids[2..], tags);
    if i + 1 < |legs| {
      var next, named := NextNode(legs[i + 1].link), IdNode("PathSegmentID", legs[i + 1].link, None);
      assert seg.kids[2..] == [next];
      IdRead("PathSegmentID", legs[i + 1].link, legs[i + 1].id);
      assert IterAll([named]) == Iter(named) + IterAll([named][1..]) == Iter(named);
      assert Iter(next) == [next, named, Leaf("UUID", legs[i + 1].link)];
      FirstOfThree(next, named, Leaf("UUID", legs[i + 1].link), {"PathSegmentID"});
      assert FindOne(next, "PathSegmentID") == Some(named);
    }
  }

  lemma FirstNamed(legs: seq<Leg>, segs: seq<Node>)
    requires Linkable(legs)
    ensures FirstId(LinkedPath(legs, segs)) == Some(legs[0].id)
  {
    IdRead("FirstInPathSegmentID", legs[0].link, legs[0].id);
  }

  // ---- Flight order ------------------------------------------------------------------------------------------

  lemma MembersAreLegs(wire: Wire, legs: seq<Leg>, segs: seq<Node>)
    requires multiset(segs) == multiset(LegNodes(wire, legs))
    ensures forall k :: 0 <= k < |segs| ==> exists i: nat :: i < |legs| && segs[k] == LegNode(wire, legs, i)
    ensures forall i :: 0 <= i < |legs| ==> LegNodes(wire, legs)[i] in segs
  {
    forall k | 0 <= k < |segs|
      ensures exists i: nat :: i < |legs| && segs[k] == LegNode(wire, legs, i)
    {
      assert segs[k] in multiset(segs);
      assert segs[k] in LegNodes(wire, legs);
      var i: nat :| i < |legs| && LegNodes(wire, legs)[i] == segs[k];
      assert segs[k] == LegNode(wire, legs, i);
    }
    forall i | 0 <= i < |legs|
      ensures LegNodes(wire, legs)[i] in segs
    {
      assert LegNodes(wire, legs)[i] in multiset(LegNodes(wire, legs));
      assert LegNodes(wire, legs)[i] in multiset(segs);
    }
  }

  /** The segments of the path are those listed, and nothing else. */
  lemma LinkedSegments(wire: Wire, legs: seq<Leg>, segs: seq<Node>)
    requires Linkable(legs) && multiset(segs) == multiset(LegNodes(wire, legs))
    ensures Segments(LinkedPath(legs, segs)) == segs
  {
    var tags := {"PathSegment", "Segment"};
    var first := IdNode("FirstInPathSegmentID", legs[0].link, None);
    MembersAreLegs(wire, legs, segs);
    TaggedBetween([first], segs, [], tags);
    assert [first] + segs + [] == [first] + segs;
  }

  lemma LegsDistinct(wire: Wire, legs: seq<Leg>, segs: seq<Node>)
    requires Linkable(legs) && multiset(segs) == multiset(LegNodes(wire, legs))
    ensures DistinctIds(SEGMENTS, segs)
  {
    var nodes := LegNodes(wire, legs);
    forall i: nat, j: nat | i < j < |nodes|
      ensures SEGMENTS.id(nodes[i]) != SEGMENTS.id(nodes[j])
    {
      LegNamed(wire, legs, i);
      LegNamed(wire, legs, j);
    }
    DistinctShuffled(SEGMENTS, nodes, segs);
  }

  /** The i-th thing names itself as listed and links to the one after it, the last to none. */
  ghost predicate InTurn<K, T>(l: Linking<K, T>, route: seq<T>, ids: seq<K>, i: nat) {
    && i < |ids| == |route| && l.id(route[i]) == Some(ids[i])
    && l.next(route[i]) == if i + 1 < |ids| then Some(ids[i + 1]) else None
  }

  /** Things each in turn make a route. */
  lemma InTurnIsRoute<K(!new), T>(l: Linking<K, T>, things: seq<T>, route: seq<T>, ids: seq<K>)
    requires ids != [] && forall i, j :: 0 <= i < j < |ids| ==> ids[i] != ids[j]
    requires forall i: nat :: i < |ids| ==> InTurn(l, route, ids, i)
    requires forall thing :: thing in route ==> thing in things
    ensures Route(l, things, Some(ids[0]), route)
  {
    assert InTurn(l, route, ids, |ids| - 1) && InTurn(l, route, ids, 0);
    forall i: nat | i < |route|
      ensures l.id(route[i]) == Some(ids[i]) && route[i] in things
      ensures 0 < i ==> l.next(route[i - 1]) == Some(ids[i])
    {
      assert InTurn(l, route, ids, i);
      if i > 0 {
        assert InTurn(l, route, ids, i - 1);
      }
    }
  }

  function Ids(legs: seq<Leg>): seq<string> {
    seq(|legs|, i requires 0 <= i < |legs| => legs[i].id)
  }

  lemma LegInTurn(wire: Wire, legs: seq<Leg>, i: nat)
    requires Linkable(legs) && i < |legs|
    ensures InTurn(SEGMENTS, LegNodes(wire, legs), Ids(legs), i)
  {
    LegNamed(wire, legs, i);
    LegLinks(wire, legs, i);
  }

  /** Followed by their links the legs are in flight order. */
  lemma LegsAreRoute(wire: Wire, legs: seq<Leg>, segs: seq<Node>)
    requires Linkable(legs) && multiset(segs) == multiset(LegNodes(wire, legs))
    ensures Route(SEGMENTS, segs, Some(legs[0].id), LegNodes(wire, legs))
  {
    MembersAreLegs(wire, legs, segs);
    forall i: nat | i < |Ids(legs)| ensures InTurn(SEGMENTS, LegNodes(wire, legs), Ids(legs), i) {
      LegInTurn(wire, legs, i);
    }
    InTurnIsRoute(SEGMENTS, segs, LegNodes(wire, legs), Ids(legs));
  }

  lemma LinkedPoints(wire: Wire, legs: seq<Leg>, segs: seq<Node>)
    requires Linkable(legs) && multiset(segs) == multiset(LegNodes(wire, legs))
    ensures PathPoints(wire, LinkedPath(legs, segs)) == All(WaypointReader(wire), Ends(legs))
  {
    var nodes := LegNodes(wire, legs);
    LinkedSegments(wire, legs, segs);
    FirstNamed(legs, segs);
    LegsDistinct(wire, legs, segs);
    LegsAreRoute(wire, legs, segs);
    WalkedAlongRoute(SEGMENTS, segs, Some(legs[0].id), nodes);
    forall i | 0 <= i < |nodes|
      ensures SegmentReader(wire)(nodes[i]) == WaypointReader(wire)(Ends(legs)[i])
    {
      LegReads(wire, legs, i);
    }
    SameReadings(SegmentReader(wire), nodes, WaypointReader(wire), Ends(legs), |nodes|);
  }

  // ---- The whole element -------------------------------------------------------------------------------------

  lemma NextFree(link: string)
    ensures Free(NextNode(link), {"Path"})
  {
    IdFree("PathSegmentID", link, None, {"Path"});
  }

  lemma LegFree(wire: Wire, legs: seq<Leg>, i: nat)
    requires Linkable(legs) && i < |legs|
    ensures Free(LegNode(wire, legs, i), {"Path"})
  {
    IdFree("PathSegmentID", legs[i].own, None, {"Path"});
    var p := PointNode(wire, legs[i].at);
    assert forall k :: 0 <= k < |p.kids| ==> Free(p.kids[k], {"Path"});
    assert Free(p, {"Path"});
    if i + 1 < |legs| {
      NextFree(legs[i + 1].link);
    }
  }

  lemma OnlyLinkedPath(wire: Wire, legs: seq<Leg>, segs: seq<Node>)
    requires Linkable(legs) && multiset(segs) == multiset(LegNodes(wire, legs))
    ensures Tagged(Iter(LinkedPath(legs, segs)), {"Path"}) == [LinkedPath(legs, segs)]
  {
    var path := LinkedPath(legs, segs);
    MembersAreLegs(wire, legs, segs);
    IdFree("FirstInPathSegmentID", legs[0].link, None, {"Path"});
    forall k | 0 <= k < |segs|
      ensures Free(segs[k], {"Path"})
    {
      var i: nat :| i < |legs| && segs[k] == LegNode(wire, legs, i);
      LegFree(wire, legs, i);
    }
    FreeIterAll(path.kids, {"Path"});
    NoneTagged(IterAll(path.kids), {"Path"});
    TaggedAppend([path], IterAll(path.kids), {"Path"});
    AllTagged([path], {"Path"});
  }

  lemma LegBlank(wire: Wire, legs: seq<Leg>, i: nat)
    requires Linkable(legs) && i < |legs| && AsRead(wire, legs[i].at) == Some([])
    ensures Blank(wire, LegNode(wire, legs, i))
  {
    var p := PointNode(wire, legs[i].at);
    forall k | 0 <= k < |p.kids|
      ensures Blank(wire, p.kids[k])
    {
      BlankParent(wire, p.kids[k]);
    }
    PointScanned(wire, legs[i].at);
    IdBlank(wire, "PathSegmentID", legs[i].own, None);
    if i + 1 < |legs| {
      IdBlank(wire, "PathSegmentID", legs[i + 1].link, None);
      BlankParent(wire, NextNode(legs[i + 1].link));
    }
    BlankParent(wire, LegNode(wire, legs, i));
  }

  lemma LinkedBlank(wire: Wire, legs: seq<Leg>, segs: seq<Node>)
    requires Linkable(legs) && multiset(segs) == multiset(LegNodes(wire, legs))
    requires forall i :: 0 <= i < |legs| ==> AsRead(wire, legs[i].at) == Some([])
    ensures Blank(wire, LinkedPath(legs, segs))
  {
    MembersAreLegs(wire, legs, segs);
    forall k | 0 <= k < |segs|
      ensures segs[k].tag != "Latitude" && Blank(wire, segs[k])
    {
      var i: nat :| i < |legs| && segs[k] == LegNode(wire, legs, i);
      LegBlank(wire, legs, i);
    }
    IdBlank(wire, "FirstInPathSegmentID", legs[0].link, None);
    BlankParent(wire, LinkedPath(legs, segs));
  }

  /** A linked path reads as its waypoints' texts do, in flight order, in whatever order its segments are listed
      and however each link spells the id it names. */
  lemma LinkedPathReads(wire: Wire, legs: seq<Leg>, segs: seq<Node>)
    requires Linkable(legs) && multiset(segs) == multiset(LegNodes(wire, legs))
    ensures Parsed(wire, LinkedPath(legs, segs)) == All(WaypointReader(wire), Ends(legs))
  {
    var path := LinkedPath(legs, segs);
    OnlyLinkedPath(wire, legs, segs);
    LinkedPoints(wire, legs, segs);
    OnePath(wire, path);
    if All(WaypointReader(wire), Ends(legs)) == Some([]) {
      NothingGave(WaypointReader(wire), Ends(legs), |legs|);
      forall i | 0 <= i < |legs|
        ensures AsRead(wire, legs[i].at) == Some([])
      {
        assert WaypointReader(wire)(Ends(legs)[i]) == Some([]);
      }
      LinkedBlank(wire, legs, segs);
      NothingToScan(wire, path);
    }
  }

  /** So it gives back its waypoints, in flight order, exactly when every number in them survives its text. */
  lemma LinkedPathReadsBack(wire: Wire, legs: seq<Leg>, segs: seq<Node>)
    requires Linkable(legs) && multiset(segs) == multiset(LegNodes(wire, legs))
    ensures Parsed(wire, LinkedPath(legs, segs)) == Some(Ends(legs))
      <==> forall i :: 0 <= i < |legs| ==> Survives(wire, legs[i].at)
  {
    LinkedPathReads(wire, legs, segs);
    ListSurvivesExactly(wire, Ends(legs));
    assert forall i :: 0 <= i < |legs| ==> Ends(legs)[i] == legs[i].at && Ends(legs)[i] in Ends(legs);
  }
}
