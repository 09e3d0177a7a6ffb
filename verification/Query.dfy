/** Answering a data query: which ids are listed and which plans are sent, `isolator/handlers/query.py`. */
module Query {
  import opened Options
  import opened Logs
  import opened Routes

  datatype Kind = CapabilityKind | RouteKind | AirfieldKind

  datatype Caption = OfCapability | OfPlan | OfField

  datatype Listing = Listing(id: Uuid, caption: Caption)

  /** This vehicle's own ids, and the plans linked to its home field. */
  datatype Home = Home(texts: Texts, system: Uuid, service: Uuid, capability: Uuid, field: Uuid, fieldPlans: seq<Uuid>)

  const EVERY_KIND := {CapabilityKind, RouteKind, AirfieldKind}

  /** The stored text's digest is the one stored beside it. */
  predicate Intact(home: Home, store: Store, id: Uuid) {
    var stored := Lookup(store, id);
    stored.Some? ==> home.texts.digest(stored.value.xml) == stored.value.digest
  }

  /** Those of the first k ids that can be handed out, each once, leaving out the ones to skip. */
  function Servable(store: Store, ids: seq<Uuid>, k: nat, skip: set<Uuid>): seq<Uuid>
    requires k <= |ids|
  {
    if k == 0 then [] else
      var before, id := Servable(store, ids, k - 1, skip), ids[k - 1];
      if Lookup(store, id).None? || id in skip || id in before then before else before + [id]
  }

  function PlanListings(ids: seq<Uuid>): seq<Listing> {
    seq(|ids|, i requires 0 <= i < |ids| => Listing(ids[i], OfPlan))
  }

  function Ids(listed: seq<Listing>): set<Uuid> {
    set l | l in listed :: l.id
  }

  /** What a query of these kinds lists: the capability, then stored plans, then the field and its plans. */
  function Listings(home: Home, store: Store, kinds: set<Kind>): seq<Listing> {
    var capability := if CapabilityKind in kinds then [Listing(home.capability, OfCapability)] else [];
    var routes := if RouteKind in kinds then MorePlans(store, Listed(store, |store.keys|), capability) else capability;
    if AirfieldKind !in kinds then routes
    else
      var listed := if home.field in Ids(routes) then routes else routes + [Listing(home.field, OfField)];
      MorePlans(store, home.fieldPlans, listed)
  }

  /** The servable ones of these plans not listed yet, after those that are. */
  function MorePlans(store: Store, ids: seq<Uuid>, listed: seq<Listing>): seq<Listing> {
    listed + PlanListings(Servable(store, ids, |ids|, Ids(listed)))
  }

  /** The digest check passes for every plan the query looks at. */
  predicate AllIntact(home: Home, store: Store, kinds: set<Kind>) {
    && (RouteKind in kinds ==> forall id :: id in Listed(store, |store.keys|) ==> Intact(home, store, id))
    && (AirfieldKind in kinds ==> forall id :: id in home.fieldPlans ==> Intact(home, store, id))
  }

  /** The plans a query of these kinds sends. */
  function PlansSent(home: Home, store: Store, kinds: set<Kind>): seq<Uuid> {
    if RouteKind in kinds then Servable(store, Listed(store, |store.keys|), |Listed(store, |store.keys|)|, {})
    else if AirfieldKind in kinds then Servable(store, home.fieldPlans, |home.fieldPlans|, {})
    else []
  }

  // ---- The handler's loops -----------------------------------------------------------------------------

  method CollectPlans(home: Home, store: Store, ids: seq<Uuid>, listed: seq<Listing>)
    returns (result: Option<seq<Listing>>)
    ensures result == if forall id :: id in ids ==> Intact(home, store, id) then Some(MorePlans(store, ids, listed))
      else None
  {
    var collected, seen := listed, Ids(listed);
    for k := 0 to |ids|
      invariant forall i :: 0 <= i < k ==> Intact(home, store, ids[i])
      invariant collected == listed + PlanListings(Servable(store, ids, k, Ids(listed)))
      invariant forall id :: id in seen <==> id in Ids(listed) || id in Servable(store, ids, k, Ids(listed))
    {
      var id := ids[k];
      var stored := Lookup(store, id);
      if stored.None? {
        continue;
      }
      if home.texts.digest(stored.value.xml) != stored.value.digest {
        assert !Intact(home, store, id);
        return None;
      }
      if id !in seen {
        PlanListingsGrow(Servable(store, ids, k, Ids(listed)), id);
        collected := collected + [Listing(id, OfPlan)];
        seen := seen + {id};
      }
    }
    return Some(collected);
  }

  lemma PlanListingsGrow(ids: seq<Uuid>, id: Uuid)
    ensures PlanListings(ids + [id]) == PlanListings(ids) + [Listing(id, OfPlan)]
  {
  }

  method CollectListings(home: Home, routes: RouteStore, kinds: set<Kind>) returns (result: Option<seq<Listing>>)
    ensures result == if AllIntact(home, routes.routes, kinds) then Some(Listings(home, routes.routes, kinds)) else None
  {
    var collected: seq<Listing> := [];
    if CapabilityKind in kinds {
      collected := [Listing(home.capability, OfCapability)];
    }
    if RouteKind in kinds {
      var ids := routes.IngestedIds();
      result := CollectPlans(home, routes.routes, ids, collected);
      if result.None? {
        return;
      }
      collected := result.value;
    }
    if AirfieldKind in kinds {
      if home.field !in Ids(collected) {
        collected := collected + [Listing(home.field, OfField)];
      }
      result := CollectPlans(home, routes.routes, home.fieldPlans, collected);
      return;
    }
    return Some(collected);
  }

  // ---- Listed and sent ------------------------------------------------------------------------------------

  /** What a query sends is each of the plans asked for that can be handed out, once. */
  lemma {:induction false} ServableExactly(store: Store, ids: seq<Uuid>, k: nat, skip: set<Uuid>)
    requires k <= |ids|
    ensures forall id ::
      id in Servable(store, ids, k, skip) <==> id in ids[..k] && Lookup(store, id).Some? && id !in skip
    ensures forall i, j :: 0 <= i < j < |Servable(store, ids, k, skip)| ==>
      Servable(store, ids, k, skip)[i] != Servable(store, ids, k, skip)[j]
  {
    if k == 0 {
    } else {
      ServableExactly(store, ids, k - 1, skip);
      assert ids[..k] == ids[..k - 1] + [ids[k - 1]];
    }
  }

  /** Skipping nothing that is there lists everything that is sent, in the same order. */
  lemma {:induction false} SkippingNothing(store: Store, ids: seq<Uuid>, k: nat, skip: set<Uuid>)
    requires k <= |ids|
    ensures (forall id :: id in Servable(store, ids, k, {}) ==> id !in skip)
      <==> Servable(store, ids, k, skip) == Servable(store, ids, k, {})
  {
    if k == 0 {
    } else {
      SkippingNothing(store, ids, k - 1, skip);
      ServableExactly(store, ids, k, skip);
      ServableExactly(store, ids, k, {});
      ServableExactly(store, ids, k - 1, {});
      ServableExactly(store, ids, k - 1, skip);
      var all, some := Servable(store, ids, k - 1, {}), Servable(store, ids, k - 1, skip);
      if exists id :: id in all && id in skip {
        var id :| id in all && id in skip;
        assert id in Servable(store, ids, k, {}) && id !in Servable(store, ids, k, skip);
      }
    }
  }

  /** The ids listed as plans. */
  function ListedPlans(listed: seq<Listing>): seq<Uuid> {
    Collect(listed, l => PlanOf(l))
  }

  function PlanOf(l: Listing): seq<Uuid> {
    if l.caption.OfPlan? then [l.id] else []
  }

  lemma ListedPlansAppend(a: seq<Listing>, b: seq<Listing>)
    ensures ListedPlans(a + b) == ListedPlans(a) + ListedPlans(b)
  {
    CollectAppend(a, b, l => PlanOf(l));
  }

  lemma {:induction false} PlansOfListings(ids: seq<Uuid>)
    ensures ListedPlans(PlanListings(ids)) == ids
  {
    if ids == [] {
    } else {
      var before, last := ids[..|ids| - 1], ids[|ids| - 1];
      PlansOfListings(before);
      assert ids == before + [last];
      PlanListingsGrow(before, last);
      ListedPlansAppend(PlanListings(before), [Listing(last, OfPlan)]);
      assert [Listing(last, OfPlan)][..0] == [];
    }
  }

  lemma MorePlansListed(store: Store, ids: seq<Uuid>, listed: seq<Listing>)
    ensures ListedPlans(MorePlans(store, ids, listed)) == ListedPlans(listed) + Servable(store, ids, |ids|, Ids(listed))
    ensures forall id ::
      id in Ids(MorePlans(store, ids, listed)) <==> id in Ids(listed) || id in Servable(store, ids, |ids|, Ids(listed))
  {
    var more := Servable(store, ids, |ids|, Ids(listed));
    ListedPlansAppend(listed, PlanListings(more));
    PlansOfListings(more);
    forall id | id in Ids(listed) || id in more
      ensures id in Ids(listed + PlanListings(more))
    {
      if id in more {
        var i :| 0 <= i < |more| && more[i] == id;
        assert PlanListings(more)[i] in listed + PlanListings(more);
      } else {
        var l :| l in listed && l.id == id;
        assert l in listed + PlanListings(more);
      }
    }
  }

  /** No plan sent has an id the listing has already given to something else: the capability's, when it is
      listed too, or the field's, when the field's plans alone are. */
  ghost predicate NoClash(home: Home, store: Store, kinds: set<Kind>) {
    forall id :: id in PlansSent(home, store, kinds) ==>
      && (CapabilityKind in kinds ==> id != home.capability)
      && (RouteKind !in kinds ==> id != home.field)
  }

  /** A query lists as plans exactly the plans it sends, in the order it sends them, if and only if no
      plan's id clashes. */
  lemma ListsExactlyWhatItSends(home: Home, store: Store, kinds: set<Kind>)
    requires store.Valid()
    ensures ListedPlans(Listings(home, store, kinds)) == PlansSent(home, store, kinds) <==> NoClash(home, store, kinds)
  {
    var capability := if CapabilityKind in kinds then [Listing(home.capability, OfCapability)] else [];
    var taken := if CapabilityKind in kinds then {home.capability} else {};
    CapabilityListed(home, capability);
    assert Ids(capability) == taken;
    if RouteKind in kinds {
      RoutesListed(home, store, kinds, capability);
      SkippingNothing(store, Listed(store, |store.keys|), |Listed(store, |store.keys|)|, taken);
    } else if AirfieldKind in kinds {
      FieldListed(home, store, capability);
      SkippingNothing(store, home.fieldPlans, |home.fieldPlans|, taken + {home.field});
    }
  }

  lemma CapabilityListed(home: Home, capability: seq<Listing>)
    requires capability == [] || capability == [Listing(home.capability, OfCapability)]
    ensures ListedPlans(capability) == []
    ensures Ids(capability) == if capability == [] then {} else {home.capability}
  {
    CollectNothing(capability, l => PlanOf(l));
    if capability != [] {
      assert capability[0] in capability;
    }
  }

  lemma FieldJoins(home: Home, listed: seq<Listing>)
    ensures ListedPlans(listed + [Listing(home.field, OfField)]) == ListedPlans(listed)
    ensures Ids(listed + [Listing(home.field, OfField)]) == Ids(listed) + {home.field}
  {
    var field := [Listing(home.field, OfField)];
    ListedPlansAppend(listed, field);
    CollectNothing(field, l => PlanOf(l));
    assert field[0] in listed + field;
    forall id | id in Ids(listed)
      ensures id in Ids(listed + field)
    {
      var l :| l in listed && l.id == id;
      assert l in listed + field;
    }
  }

  /** With stored plans listed, the field adds no plan. */
  lemma RoutesListed(home: Home, store: Store, kinds: set<Kind>, capability: seq<Listing>)
    requires store.Valid() && RouteKind in kinds && ListedPlans(capability) == []
    requires capability == if CapabilityKind in kinds then [Listing(home.capability, OfCapability)] else []
    ensures ListedPlans(Listings(home, store, kinds)) ==
      Servable(store, Listed(store, |store.keys|), |Listed(store, |store.keys|)|, Ids(capability))
  {
    var ids := Listed(store, |store.keys|);
    var routes := MorePlans(store, ids, capability);
    MorePlansListed(store, ids, capability);
    assert ListedPlans(routes) == Servable(store, ids, |ids|, Ids(capability));
    if AirfieldKind in kinds {
      var before := if home.field in Ids(routes) then routes else routes + [Listing(home.field, OfField)];
      FieldJoins(home, routes);
      MorePlansListed(store, home.fieldPlans, before);
      NothingMore(store, ids, home.fieldPlans, Ids(capability), Ids(before));
    }
  }

  lemma NothingMore(store: Store, ids: seq<Uuid>, others: seq<Uuid>, skip: set<Uuid>, taken: set<Uuid>)
    requires store.Valid() && ids == Listed(store, |store.keys|) && skip <= taken
    requires forall id :: id in Servable(store, ids, |ids|, skip) ==> id in taken
    ensures Servable(store, others, |others|, taken) == []
  {
    var more := Servable(store, others, |others|, taken);
    ServableExactly(store, others, |others|, taken);
    ServableExactly(store, ids, |ids|, skip);
    assert ids[..|ids|] == ids;
    forall id | Lookup(store, id).Some?
      ensures id in taken
    {
      StoredIsListed(store, id);
      assert id in skip || id in Servable(store, ids, |ids|, skip);
    }
    assert forall i :: 0 <= i < |more| ==> more[i] !in more;
  }

  /** Whatever can be handed out is among the ids handed out. */
  lemma StoredIsListed(store: Store, id: Uuid)
    requires store.Valid() && Lookup(store, id).Some?
    ensures id in Listed(store, |store.keys|)
  {
    ListedExactly(store, |store.keys|);
    assert store.keys[..|store.keys|] == store.keys;
    assert id in store.at;
  }

  lemma FieldListed(home: Home, store: Store, capability: seq<Listing>)
    requires ListedPlans(capability) == []
    ensures var before := if home.field in Ids(capability) then capability
      else capability + [Listing(home.field, OfField)];
      ListedPlans(MorePlans(store, home.fieldPlans, before)) ==
        Servable(store, home.fieldPlans, |home.fieldPlans|, Ids(capability) + {home.field})
  {
    var before := if home.field in Ids(capability) then capability else capability + [Listing(home.field, OfField)];
    FieldJoins(home, capability);
    MorePlansListed(store, home.fieldPlans, before);
    assert Ids(before) == Ids(capability) + {home.field};
  }

  // ---- What is listed ----------------------------------------------------------------------------------------

  ghost predicate ListedOnce(listed: seq<Listing>) {
    forall i, j :: 0 <= i < j < |listed| ==> listed[i].id != listed[j].id
  }

  /** Listing more plans adds those that can be handed out, and lists nothing twice. */
  lemma MoreListed(store: Store, ids: seq<Uuid>, listed: seq<Listing>)
    requires ListedOnce(listed)
    ensures ListedOnce(MorePlans(store, ids, listed))
    ensures forall id :: id in Ids(MorePlans(store, ids, listed)) <==>
      id in Ids(listed) || (id in ids && Lookup(store, id).Some?)
  {
    var more := Servable(store, ids, |ids|, Ids(listed));
    ServableExactly(store, ids, |ids|, Ids(listed));
    assert ids[..|ids|] == ids;
    var all := listed + PlanListings(more);
    forall id
      ensures id in Ids(all) <==> id in Ids(listed) || id in more
    {
      if id in Ids(listed) {
        var l :| l in listed && l.id == id;
        assert l in all;
      }
      if id in more {
        var i :| 0 <= i < |more| && more[i] == id;
        assert PlanListings(more)[i] == Listing(id, OfPlan) && Listing(id, OfPlan) in all;
      }
    }
    forall i, j | 0 <= i < j < |all|
      ensures all[i].id != all[j].id
    {
      if i < |listed| <= j {
        assert listed[i] in listed && more[j - |listed|] in more;
      }
    }
  }

  lemma StoredListed(store: Store, id: Uuid)
    requires store.Valid()
    ensures id in Listed(store, |store.keys|) <==> Lookup(store, id).Some?
  {
    ListedExactly(store, |store.keys|);
    assert store.keys[..|store.keys|] == store.keys;
  }

  /** The ids a query lists are, each once, those it asks for: the capability's own; every plan that can be handed
      out; the home field's, and its plans among those. */
  lemma ListsExactlyWhatIsAskedFor(home: Home, store: Store, kinds: set<Kind>)
    requires store.Valid()
    ensures ListedOnce(Listings(home, store, kinds))
    ensures forall id :: id in Ids(Listings(home, store, kinds)) <==>
      || (CapabilityKind in kinds && id == home.capability)
      || (RouteKind in kinds && Lookup(store, id).Some?)
      || (AirfieldKind in kinds && (id == home.field || (id in home.fieldPlans && Lookup(store, id).Some?)))
  {
    var capability := if CapabilityKind in kinds then [Listing(home.capability, OfCapability)] else [];
    var ids := Listed(store, |store.keys|);
    var routes := if RouteKind in kinds then MorePlans(store, ids, capability) else capability;
    MoreListed(store, ids, capability);
    forall id ensures id in ids <==> Lookup(store, id).Some? {
      StoredListed(store, id);
    }
    CapabilityIds(home, capability);
    if AirfieldKind in kinds {
      var listed := if home.field in Ids(routes) then routes else routes + [Listing(home.field, OfField)];
      FieldListedOnce(home, routes, listed);
      MoreListed(store, home.fieldPlans, listed);
    }
  }

  lemma CapabilityIds(home: Home, capability: seq<Listing>)
    requires capability == [] || capability == [Listing(home.capability, OfCapability)]
    ensures Ids(capability) == if capability == [] then {} else {home.capability}
  {
    if capability != [] {
      assert capability[0] in capability;
    }
  }

  lemma FieldListedOnce(home: Home, routes: seq<Listing>, listed: seq<Listing>)
    requires ListedOnce(routes)
    requires listed == if home.field in Ids(routes) then routes else routes + [Listing(home.field, OfField)]
    ensures ListedOnce(listed) && Ids(listed) == Ids(routes) + {home.field}
  {
    if home.field !in Ids(routes) {
      forall id
        ensures id in Ids(listed) <==> id in Ids(routes) || id == home.field
      {
        if id in Ids(routes) {
          var l :| l in routes && l.id == id;
          assert l in listed;
        }
        assert listed[|routes|] in listed;
      }
      forall i | 0 <= i < |routes| ensures routes[i].id != home.field {
        assert routes[i] in routes;
      }
    }
  }
}
