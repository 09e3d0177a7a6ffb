/** Optional values and identifiers shared by the other modules. */
module Options {
  datatype Option<+T> = None | Some(value: T)

  /** An identifier. `Own(k)` is the k-th one this process drew from its generator, which never
      repeats; `Peer(k)` was chosen by someone else. */
  datatype Uuid = Own(serial: nat) | Peer(name: nat)
}

/** A dictionary that remembers insertion order; putting an existing key keeps its place. */
module Dicts {
  import opened Options

  datatype Dict<K(==), V> = Dict(keys: seq<K>, at: map<K, V>) {
    ghost predicate Valid() {
      && (forall i :: 0 <= i < |keys| ==> keys[i] in at)
      && (forall k | k in at :: k in keys)
      && (forall i, j :: 0 <= i < j < |keys| ==> keys[i] != keys[j])
    }

    function Put(k: K, v: V): Dict<K, V> {
      Dict(if k in at then keys else keys + [k], at[k := v])
    }
  }
}

/** Reading a log through a pick from each entry. */
module Logs {
  function Collect<E, M>(log: seq<E>, pick: E -> seq<M>): seq<M> {
    if log == [] then [] else Collect(log[..|log| - 1], pick) + pick(log[|log| - 1])
  }

  lemma {:induction false} CollectAppend<E, M>(log: seq<E>, more: seq<E>, pick: E -> seq<M>)
    ensures Collect(log + more, pick) == Collect(log, pick) + Collect(more, pick)
  {
    if more == [] {
      assert log + more == log;
    } else {
      CollectAppend(log, more[..|more| - 1], pick);
      assert (log + more)[..|log + more| - 1] == log + more[..|more| - 1];
    }
  }

  lemma {:induction false} CollectNothing<E, M>(log: seq<E>, pick: E -> seq<M>)
    requires forall i :: 0 <= i < |log| ==> pick(log[i]) == []
    ensures Collect(log, pick) == []
  {
    if log == [] {
    } else {
      CollectNothing(log[..|log| - 1], pick);
    }
  }

  lemma {:induction false} CollectSame<E>(log: seq<E>, pick: E -> seq<E>)
    requires forall i :: 0 <= i < |log| ==> pick(log[i]) == [log[i]]
    ensures Collect(log, pick) == log
  {
    if log == [] {
    } else {
      CollectSame(log[..|log| - 1], pick);
    }
  }

  lemma CollectOne<E, M>(e: E, pick: E -> seq<M>)
    ensures Collect([e], pick) == pick(e)
  {
    assert [e][..0] == [];
    assert Collect([e], pick) == [] + pick(e);
  }

  lemma CollectThree<E, M>(a: E, b: E, c: E, pick: E -> seq<M>)
    ensures Collect([a, b, c], pick) == pick(a) + pick(b) + pick(c)
  {
    assert [a, b, c][..2] == [a, b] && [a, b][..1] == [a] && [a][..0] == [];
    assert Collect([a], pick) == pick(a);
    assert Collect([a, b], pick) == pick(a) + pick(b);
  }
}

/** Reading a list of things that each give some values, or fail. */
module Gathering {
  import opened Options

  /** The values of the first k things in order; None when one of them fails. */
  function Gathered<E, M>(read: E -> Option<seq<M>>, things: seq<E>, k: nat): Option<seq<M>>
    requires k <= |things|
  {
    if k == 0 then Some([])
    else
      var before, last := Gathered(read, things, k - 1), read(things[k - 1]);
      if before.None? || last.None? then None else Some(before.value + last.value)
  }

  function All<E, M>(read: E -> Option<seq<M>>, things: seq<E>): Option<seq<M>> {
    Gathered(read, things, |things|)
  }

  /** One more thing read: its values join those before it, or the whole reading has failed. */
  lemma OneMore<E, M>(read: E -> Option<seq<M>>, things: seq<E>, k: nat, before: seq<M>, more: Option<seq<M>>)
    requires k < |things| && Gathered(read, things, k) == Some(before) && read(things[k]) == more
    ensures more.None? ==> All(read, things).None?
    ensures more.Some? ==> Gathered(read, things, k + 1) == Some(before + more.value)
  {
    if more.None? {
      OneFails(read, things, k, |things|);
    }
  }

  lemma {:induction false} OneFails<E, M>(read: E -> Option<seq<M>>, things: seq<E>, k: nat, n: nat)
    requires k < n <= |things| && read(things[k]).None?
    ensures Gathered(read, things, n).None?
  {
    if k < n - 1 {
      OneFails(read, things, k, n - 1);
    }
  }

  /** When each thing gives one value, the list gives them all. */
  lemma {:induction false} EachGives<E, M>(read: E -> Option<seq<M>>, things: seq<E>, values: seq<M>, k: nat)
    requires |things| == |values| && k <= |things|
    requires forall i :: 0 <= i < k ==> read(things[i]) == Some([values[i]])
    ensures Gathered(read, things, k) == Some(values[..k])
  {
    if k == 0 {
    } else {
      EachGives(read, things, values, k - 1);
      assert values[..k] == values[..k - 1] + [values[k - 1]];
    }
  }

  /** Where none gives more than one value, k values from the first k things are one from each. */
  lemma {:induction false} EachGave<E, M>(read: E -> Option<seq<M>>, things: seq<E>, values: seq<M>, k: nat)
    requires |things| == |values| && k <= |things|
    requires forall x :: read(x).Some? ==> |read(x).value| <= 1
    requires Gathered(read, things, k) == Some(values[..k])
    ensures forall i :: 0 <= i < k ==> read(things[i]) == Some([values[i]])
  {
    if k == 0 {
    } else {
      var before, last := Gathered(read, things, k - 1), read(things[k - 1]);
      NoMoreThanOneEach(read, things, k - 1);
      var all := values[..k];
      assert all == before.value + last.value && |before.value| == k - 1 && |last.value| == 1;
      assert before.value == all[..k - 1] == values[..k - 1];
      assert last.value[0] == all[k - 1] && last.value == [values[k - 1]];
      EachGave(read, things, values, k - 1);
    }
  }

  lemma {:induction false} NoMoreThanOneEach<E, M>(read: E -> Option<seq<M>>, things: seq<E>, k: nat)
    requires k <= |things| && forall x :: read(x).Some? ==> |read(x).value| <= 1
    ensures Gathered(read, things, k).Some? ==> |Gathered(read, things, k).value| <= k
  {
    if k == 0 {
    } else {
      NoMoreThanOneEach(read, things, k - 1);
    }
  }

  lemma {:induction false} NothingGiven<E, M>(read: E -> Option<seq<M>>, things: seq<E>, k: nat)
    requires k <= |things| && forall i :: 0 <= i < k ==> read(things[i]) == Some([])
    ensures Gathered(read, things, k) == Some([])
  {
    if k == 0 {
    } else {
      NothingGiven(read, things, k - 1);
      var none: seq<M> := [];
      assert none + none == none;
    }
  }

  lemma {:induction false} NothingGave<E, M>(read: E -> Option<seq<M>>, things: seq<E>, k: nat)
    requires k <= |things| && Gathered(read, things, k) == Some([])
    ensures forall i :: 0 <= i < k ==> read(things[i]) == Some([])
  {
    if k == 0 {
    } else {
      var before, last := Gathered(read, things, k - 1).value, read(things[k - 1]).value;
      assert |before + last| == |before| + |last|;
      NothingGave(read, things, k - 1);
    }
  }

  /** Lists read alike, thing by thing, give the same. */
  lemma {:induction false} SameReadings<E, F, M>(
    read: E -> Option<seq<M>>, things: seq<E>, peruse: F -> Option<seq<M>>, others: seq<F>, k: nat)
    requires k <= |things| == |others|
    requires forall i :: 0 <= i < |things| ==> read(things[i]) == peruse(others[i])
    ensures Gathered(read, things, k) == Gathered(peruse, others, k)
  {
    if k == 0 {
    } else {
      SameReadings(read, things, peruse, others, k - 1);
    }
  }
}

/** Geodetic points as the codec and the backends see them. */
module Waypoints {
  import opened Options

  /** A float on the wire: a real, or one of the non-finite values. */
  datatype Num = NonFinite | Finite(value: real)

  datatype Waypoint = Waypoint(lat: Num, lon: Num, alt: Option<Num>)
}

/** Trimming text, for ASCII white space. */
module Text {
  predicate IsSpace(c: char) {
    c == ' ' || '\t' <= c <= '\r'
  }

  function StripLeft(s: string): string {
    if s != "" && IsSpace(s[0]) then StripLeft(s[1..]) else s
  }

  function StripRight(s: string): string {
    if s != "" && IsSpace(s[|s| - 1]) then StripRight(s[..|s| - 1]) else s
  }

  function Strip(s: string): string {
    StripRight(StripLeft(s))
  }
}
