/** Following links from a first id through a set of linked things, whatever order they are listed in. */
module Links {
  import opened Options

  /** How a thing names itself and the thing after it; either may be missing. */
  datatype Linking<!K(==), !T> = Linking(id: T -> Option<K>, next: T -> Option<K>)

  /** The first k things by id; a repeated id keeps the later one. */
  function Index<K, T>(l: Linking<K, T>, things: seq<T>, k: nat): map<K, T>
    requires k <= |things|
  {
    if k == 0 then map[] else
      var id := l.id(things[k - 1]);
      if id.Some? then Index(l, things, k - 1)[id.value := things[k - 1]] else Index(l, things, k - 1)
  }

  lemma Smaller<K>(a: set<K>, b: set<K>)
    requires a < b
    ensures |a| < |b|
  {
    var x :| x in b && x !in a;
    assert x in b - a;
    assert b == a + (b - a);
  }

  /** The ids reached from `cur` by following links, until one is missing, unknown or already seen. */
  function Chain<K, T>(l: Linking<K, T>, known: map<K, T>, cur: Option<K>, seen: set<K>): (ids: seq<K>)
    ensures forall i :: 0 <= i < |ids| ==> ids[i] in known
    decreases |known.Keys - seen|
  {
    if cur.None? || cur.value in seen || cur.value !in known then []
    else
      Smaller(known.Keys - (seen + {cur.value}), known.Keys - seen);
      [cur.value] + Chain(l, known, l.next(known[cur.value]), seen + {cur.value})
  }

  function Resolved<K, T>(known: map<K, T>, ids: seq<K>): seq<T>
    requires forall i :: 0 <= i < |ids| ==> ids[i] in known
  {
    seq(|ids|, i requires 0 <= i < |ids| => known[ids[i]])
  }

  /** The things in link order, or in listed order when the first link resolves to nothing. */
  function Ordered<K, T>(l: Linking<K, T>, things: seq<T>, first: Option<K>): seq<T> {
    var known := Index(l, things, |things|);
    var walked := Resolved(known, Chain(l, known, first, {}));
    if walked == [] then things else walked
  }

  lemma OneLink<K, T>(l: Linking<K, T>, known: map<K, T>, id: K, seen: set<K>, ids: seq<K>)
    requires id in known && id !in seen
    ensures |known.Keys - (seen + {id})| < |known.Keys - seen|
    ensures ids + Chain(l, known, Some(id), seen) == (ids + [id]) + Chain(l, known, l.next(known[id]), seen + {id})
  {
    Smaller(known.Keys - (seen + {id}), known.Keys - seen);
  }

  method IndexAll<K, T>(l: Linking<K, T>, things: seq<T>) returns (known: map<K, T>)
    ensures known == Index(l, things, |things|)
  {
    known := map[];
    for k := 0 to |things|
      invariant known == Index(l, things, k)
    {
      var id := l.id(things[k]);
      if id.Some? {
        known := known[id.value := things[k]];
      }
    }
  }

  /** The walk ends on every link graph, cyclic or dangling. */
  method Follow<K, T>(l: Linking<K, T>, known: map<K, T>, first: Option<K>) returns (walked: seq<T>)
    ensures walked == Resolved(known, Chain(l, known, first, {}))
  {
    walked := [];
    var seen: set<K> := {};
    var cur := first;
    ghost var ids: seq<K> := [];
    while cur.Some? && cur.value !in seen
      invariant |walked| == |ids| && forall i :: 0 <= i < |ids| ==> ids[i] in known && walked[i] == known[ids[i]]
      invariant ids + Chain(l, known, cur, seen) == Chain(l, known, first, {})
      decreases |known.Keys - seen|
    {
      var id := cur.value;
      if id !in known {
        break;
      }
      OneLink(l, known, id, seen, ids);
      seen := seen + {id};
      walked := walked + [known[id]];
      ids := ids + [id];
      cur := l.next(known[id]);
    }
    assert ids == Chain(l, known, first, {});
  }

  // ---- The walk ------------------------------------------------------------------------------------------

  function After<K, T>(l: Linking<K, T>, known: map<K, T>, id: K): Option<K> {
    if id in known then l.next(known[id]) else None
  }

  /** A walk that has already been through `seen`: it starts at `cur`, follows every link it can, repeats
      nothing, and stops only where the next link is missing, unknown, or back to something it has used. */
  ghost predicate IsWalk<K(!new), T>(l: Linking<K, T>, known: map<K, T>, cur: Option<K>, seen: set<K>, ids: seq<K>) {
    && (forall i :: 0 <= i < |ids| ==> ids[i] in known && ids[i] !in seen)
    && (forall i, j :: 0 <= i < j < |ids| ==> ids[i] != ids[j])
    && (ids != [] ==> cur == Some(ids[0]))
    && (forall i :: 0 < i < |ids| ==> After(l, known, ids[i - 1]) == Some(ids[i]))
    && (var end := if ids == [] then cur else After(l, known, ids[|ids| - 1]);
        end.None? || end.value !in known || end.value in seen || end.value in ids)
  }

  lemma WalkTail<K(!new), T>(l: Linking<K, T>, known: map<K, T>, id: K, seen: set<K>, rest: seq<K>)
    requires IsWalk(l, known, Some(id), seen, [id] + rest)
    ensures id in known && IsWalk(l, known, l.next(known[id]), seen + {id}, rest)
  {
    var ids := [id] + rest;
    assert ids[0] == id;
    forall i | 0 <= i < |rest|
      ensures rest[i] == ids[i + 1] && rest[i] in known && rest[i] !in seen && rest[i] != ids[0]
    {
      assert rest[i] == ids[i + 1];
    }
    TailLinked(l, known, ids, rest);
    assert ids[|ids| - 1] == if rest == [] then id else rest[|rest| - 1];
  }

  lemma TailLinked<K(!new), T>(l: Linking<K, T>, known: map<K, T>, ids: seq<K>, rest: seq<K>)
    requires ids != [] && rest == ids[1..]
    requires forall i :: 0 < i < |ids| ==> After(l, known, ids[i - 1]) == Some(ids[i])
    ensures rest != [] ==> After(l, known, ids[0]) == Some(rest[0])
    ensures forall i :: 0 < i < |rest| ==> After(l, known, rest[i - 1]) == Some(rest[i])
  {
    forall i | 0 < i < |rest|
      ensures After(l, known, rest[i - 1]) == Some(rest[i])
    {
      assert After(l, known, ids[i]) == Some(ids[i + 1]);
    }
    if rest != [] {
      assert After(l, known, ids[0]) == Some(ids[1]);
    }
  }

  lemma WalkHead<K(!new), T>(l: Linking<K, T>, known: map<K, T>, id: K, seen: set<K>, rest: seq<K>)
    requires id in known && id !in seen && IsWalk(l, known, l.next(known[id]), seen + {id}, rest)
    ensures IsWalk(l, known, Some(id), seen, [id] + rest)
  {
    var ids := [id] + rest;
    forall i | 0 < i < |ids|
      ensures ids[i] in known && ids[i] !in seen && ids[i] != id && After(l, known, ids[i - 1]) == Some(ids[i])
    {
      assert ids[i] == rest[i - 1];
      assert i > 1 ==> After(l, known, rest[i - 2]) == Some(rest[i - 1]);
    }
    forall i, j | 0 <= i < j < |ids|
      ensures ids[i] != ids[j]
    {
      assert i > 0 ==> ids[i] == rest[i - 1] && ids[j] == rest[j - 1];
    }
    assert ids[|ids| - 1] == if rest == [] then id else rest[|rest| - 1];
  }

  /** There is exactly one walk, and it is the one taken. */
  lemma {:induction false} ChainIsTheWalk<K(!new), T>(
    l: Linking<K, T>, known: map<K, T>, cur: Option<K>, seen: set<K>, ids: seq<K>)
    ensures IsWalk(l, known, cur, seen, ids) <==> ids == Chain(l, known, cur, seen)
    decreases |known.Keys - seen|
  {
    if cur.None? || cur.value in seen || cur.value !in known {
      if ids != [] {
        assert ids[0] == ids[0];
      }
    } else if ids != [] && ids[0] == cur.value {
      var id := cur.value;
      Smaller(known.Keys - (seen + {id}), known.Keys - seen);
      var rest := ids[1..];
      assert ids == [id] + rest;
      ChainIsTheWalk(l, known, l.next(known[id]), seen + {id}, rest);
      if IsWalk(l, known, cur, seen, ids) {
        WalkTail(l, known, id, seen, rest);
      }
      if IsWalk(l, known, l.next(known[id]), seen + {id}, rest) {
        WalkHead(l, known, id, seen, rest);
      }
    } else if ids != [] {
      assert ids[0] != cur.value;
    }
  }

  // ---- Listed order does not matter ------------------------------------------------------------------------

  /** No two things share an id; a thing may have none. */
  ghost predicate DistinctIds<K, T>(l: Linking<K, T>, things: seq<T>) {
    forall i, j :: 0 <= i < j < |things| && l.id(things[i]).Some? ==> l.id(things[i]) != l.id(things[j])
  }

  ghost predicate Names<K, T>(l: Linking<K, T>, things: seq<T>, id: K) {
    exists thing | thing in things :: l.id(thing) == Some(id)
  }

  /** With distinct ids the index holds each thing under its own id, and nothing else. */
  lemma {:induction false} IndexIsExact<K(!new), T>(l: Linking<K, T>, things: seq<T>, k: nat)
    requires DistinctIds(l, things) && k <= |things|
    ensures forall id :: id in Index(l, things, k) ==>
      Index(l, things, k)[id] in things[..k] && l.id(Index(l, things, k)[id]) == Some(id)
    ensures forall i :: 0 <= i < k && l.id(things[i]).Some? ==>
      l.id(things[i]).value in Index(l, things, k) && Index(l, things, k)[l.id(things[i]).value] == things[i]
  {
    if k == 0 {
    } else {
      IndexIsExact(l, things, k - 1);
      assert things[..k] == things[..k - 1] + [things[k - 1]];
    }
  }

  lemma TwiceCounted<T>(s: seq<T>, i: nat, j: nat)
    requires i < j < |s| && s[i] == s[j]
    ensures multiset(s)[s[i]] >= 2
  {
    assert s == s[..j] + [s[j]] + s[j + 1..];
    assert s[..j][i] == s[i];
    assert s[i] in multiset(s[..j]);
  }

  lemma {:induction false} OnceCounted<T>(s: seq<T>, x: T)
    requires forall i, j :: 0 <= i < j < |s| ==> !(s[i] == x && s[j] == x)
    ensures multiset(s)[x] <= 1
  {
    if s == [] {
    } else {
      var n := |s| - 1;
      OnceCounted(s[..n], x);
      assert s == s[..n] + [s[n]];
      assert x in s[..n] <==> multiset(s[..n])[x] > 0;
    }
  }

  /** Listing the things otherwise keeps their ids distinct. */
  lemma DistinctShuffled<K(!new), T>(l: Linking<K, T>, things: seq<T>, shuffled: seq<T>)
    requires multiset(things) == multiset(shuffled) && DistinctIds(l, things)
    ensures DistinctIds(l, shuffled)
  {
    forall i, j | 0 <= i < j < |shuffled| && l.id(shuffled[i]).Some?
      ensures l.id(shuffled[i]) != l.id(shuffled[j])
    {
      if l.id(shuffled[i]) == l.id(shuffled[j]) {
        var x, y := shuffled[i], shuffled[j];
        assert x in multiset(things) && y in multiset(things);
        var p :| 0 <= p < |things| && things[p] == x;
        var q :| 0 <= q < |things| && things[q] == y;
        assert p == q;
        TwiceCounted(shuffled, i, j);
        OnceCounted(things, x);
      }
    }
  }

  /** Two lists of the same things index alike. */
  lemma SameIndex<K(!new), T>(l: Linking<K, T>, things: seq<T>, shuffled: seq<T>)
    requires multiset(things) == multiset(shuffled) && DistinctIds(l, things) && DistinctIds(l, shuffled)
    ensures Index(l, things, |things|) == Index(l, shuffled, |shuffled|)
  {
    Carried(l, things, shuffled);
    Carried(l, shuffled, things);
  }

  lemma Carried<K(!new), T>(l: Linking<K, T>, things: seq<T>, others: seq<T>)
    requires multiset(things) == multiset(others) && DistinctIds(l, things) && DistinctIds(l, others)
    ensures forall id :: id in Index(l, things, |things|) ==>
      id in Index(l, others, |others|) && Index(l, others, |others|)[id] == Index(l, things, |things|)[id]
  {
    IndexIsExact(l, things, |things|);
    IndexIsExact(l, others, |others|);
    forall id | id in Index(l, things, |things|)
      ensures id in Index(l, others, |others|) && Index(l, others, |others|)[id] == Index(l, things, |things|)[id]
    {
      var thing := Index(l, things, |things|)[id];
      assert thing in things[..|things|];
      assert thing in multiset(others);
      var i :| 0 <= i < |others| && others[i] == thing;
    }
  }

  /** With distinct ids and a first link that names one of them, the order they are listed in is
      irrelevant to the order they are walked in. */
  lemma ListedOrderIrrelevant<K(!new), T>(l: Linking<K, T>, things: seq<T>, shuffled: seq<T>, first: K)
    requires multiset(things) == multiset(shuffled) && DistinctIds(l, things)
    requires Names(l, things, first)
    ensures Ordered(l, things, Some(first)) == Ordered(l, shuffled, Some(first))
  {
    DistinctShuffled(l, things, shuffled);
    SameIndex(l, things, shuffled);
    IndexIsExact(l, things, |things|);
    var thing :| thing in things && l.id(thing) == Some(first);
    var i :| 0 <= i < |things| && things[i] == thing;
    assert first in Index(l, things, |things|);
    assert Chain(l, Index(l, things, |things|), Some(first), {}) != [];
  }

  lemma {:induction false} IndexOnlyNames<K(!new), T>(l: Linking<K, T>, things: seq<T>, k: nat)
    requires k <= |things|
    ensures forall id :: id in Index(l, things, k) ==> Names(l, things, id)
  {
    if k == 0 {
    } else {
      IndexOnlyNames(l, things, k - 1);
      assert things[k - 1] in things;
    }
  }

  /** When the first link names nothing, the listed order is kept. */
  lemma UnresolvedKeepsListed<K(!new), T>(l: Linking<K, T>, things: seq<T>, first: Option<K>)
    requires first.Some? ==> !Names(l, things, first.value)
    ensures Ordered(l, things, first) == things
  {
    IndexOnlyNames(l, things, |things|);
  }

  lemma UnlinkedKeepsListed<K(!new), T>(l: Linking<K, T>, things: seq<T>)
    ensures Ordered(l, things, None) == things
  {
  }

  /** A route through the things: each links to the next, the first link names the first of them, and
      the last leads nowhere new. */
  ghost predicate Route<K(!new), T>(l: Linking<K, T>, things: seq<T>, first: Option<K>, route: seq<T>) {
    && route != []
    && (forall i :: 0 <= i < |route| ==> route[i] in things && l.id(route[i]).Some?)
    && (forall i, j :: 0 <= i < j < |route| ==> l.id(route[i]) != l.id(route[j]))
    && l.id(route[0]) == first
    && (forall i :: 0 < i < |route| ==> l.next(route[i - 1]) == l.id(route[i]))
    && (var end := l.next(route[|route| - 1]);
        end.Some? && Names(l, things, end.value) ==> exists i :: 0 <= i < |route| && l.id(route[i]) == end)
  }

  /** However the things are listed, they are walked along the route. */
  lemma WalkedAlongRoute<K(!new), T>(l: Linking<K, T>, things: seq<T>, first: Option<K>, route: seq<T>)
    requires DistinctIds(l, things) && Route(l, things, first, route)
    ensures Ordered(l, things, first) == route
  {
    var known := Index(l, things, |things|);
    var ids := RouteIds(l, things, first, route);
    RouteIsWalk(l, things, first, route);
    ChainIsTheWalk(l, known, first, {}, ids);
    assert Resolved(known, ids) == route;
  }

  ghost function RouteIds<K(!new), T>(l: Linking<K, T>, things: seq<T>, first: Option<K>, route: seq<T>): seq<K>
    requires Route(l, things, first, route)
  {
    seq(|route|, i requires 0 <= i < |route| => l.id(route[i]).value)
  }

  lemma RouteIsWalk<K(!new), T>(l: Linking<K, T>, things: seq<T>, first: Option<K>, route: seq<T>)
    requires DistinctIds(l, things) && Route(l, things, first, route)
    ensures var known, ids := Index(l, things, |things|), RouteIds(l, things, first, route);
      && IsWalk(l, known, first, {}, ids)
      && forall i :: 0 <= i < |ids| ==> known[ids[i]] == route[i]
  {
    var known, ids := Index(l, things, |things|), RouteIds(l, things, first, route);
    IndexIsExact(l, things, |things|);
    forall i | 0 <= i < |ids|
      ensures ids[i] in known && known[ids[i]] == route[i]
    {
      var j :| 0 <= j < |things| && things[j] == route[i];
    }
    var end := After(l, known, ids[|ids| - 1]);
    if end.Some? && end.value in known {
      assert known[end.value] in things;
      assert Names(l, things, end.value);
      var i :| 0 <= i < |route| && l.id(route[i]) == end;
      assert ids[i] == end.value;
    }
  }
}
