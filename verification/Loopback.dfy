/** The synchronous loopback bus with the Isolator's handlers on it: what is published is handled at once,
    on the same thread, before the publisher goes on (`asb/memory.py` and the handlers' own-message guards). */
module Loopback {
  import opened Options
  import opened Dicts
  import opened Logs
  import opened Routes
  import opened Query
  import Session
  import SessionRuns
  import Control

  datatype QueryState = Queued | InProgress | Completed | Failed

  /** Messages by what a handler reads of them. The first seven are subscribed to; the Isolator publishes
      four of those itself. `OtherRequest` is any request not listed, with what its handler publishes: what
      it does besides is in Session.dfy and Control.dfy. */
  datatype Message =
    | ServiceStatus(service: Option<Uuid>)
    | FlightCapability(publisher: Option<Uuid>, capability: Option<Uuid>, removed: bool, modes: seq<string>)
    | MaTask(publisher: Option<Uuid>, task: Option<Uuid>, removed: bool)
    | RoutePlan(xml: string)
    | StatusRequest(request: Option<Uuid>, subsystem: bool)
    | QueryRequest(request: Option<Uuid>, kinds: set<Kind>, identifiersOnly: bool)
    | OtherRequest(outs: seq<Out>)
    | QueryStatus(asked: Uuid, state: QueryState, listed: seq<Listing>)
    | AirfieldReport | FileLocation(plan: Uuid) | FileMetadata(plan: Uuid)
    | Unsubscribed  // every other out

  /** A session event, a control entry, or an out of the handlers without either: validation, system
      management, task commands. */
  datatype Out = OfSession(event: Session.Event) | OfControl(entry: Control.Event) | Plain

  datatype Loop = Loop(store: Store, overlay: Option<seq<string>>, tasks: set<Uuid>, log: seq<Message>)

  /** The Isolator's own offer, heartbeat and suggested task, by what tells them from another's; the modes
      offered play no part. */
  function Offer(home: Home): Message {
    FlightCapability(Some(home.system), Some(home.capability), false, [])
  }

  function Heartbeat(home: Home): Message {
    ServiceStatus(Some(home.service))
  }

  function Suggestion(home: Home, task: Uuid): Message {
    MaTask(Some(home.system), Some(task), false)
  }

  /** The bus message of a session event. */
  function EventMessage(home: Home, event: Session.Event): Message {
    match event
    case SuggestTask(task) => Suggestion(home, task)
    case FileLocation(plan) => FileLocation(plan)
    case FileMetadata(plan) => FileMetadata(plan)
    case CommandStatus(_, _) | ActivityOut(_, _) | ActivationStatus(_, _, _, _, _) | PlanDeactivated(_, _) =>
      Unsubscribed
    case ResponseExecution(_) | IdleExecutions | RouteExecutionStatus(_, _, _, _) => Unsubscribed
    case MissionExecutionStatus(_, _) | PlanStored(_) | FailsafeNoted(_) => Unsubscribed
  }

  function OnBus(home: Home, out: Out): Message {
    match out
    case OfSession(event) => EventMessage(home, event)
    case OfControl(_) | Plain => Unsubscribed
  }

  /** Nothing that the session, the control desk or another handler publishes is answered. */
  function AllOnBus(home: Home, outs: seq<Out>): (ms: seq<Message>)
    ensures |ms| == |outs| && forall i :: 0 <= i < |ms| ==> ms[i] == OnBus(home, outs[i]) && Rank(home, ms[i]) == 0
  {
    seq(|outs|, i requires 0 <= i < |outs| => OnBus(home, outs[i]))
  }

  /** How far from silence a message is: 0 is answered with nothing, whatever the state; 1 only with such
      messages; 2 with those. */
  function Rank(home: Home, m: Message): nat {
    match m
    case ServiceStatus(service) => if service == Some(home.service) then 0 else 1
    case FlightCapability(publisher, _, _, _) => if publisher == Some(home.system) then 0 else 1
    case MaTask(publisher, _, _) => if publisher == Some(home.system) then 0 else 1
    case RoutePlan(_) => 1
    case StatusRequest(_, _) => 1
    case OtherRequest(_) => 1
    case QueryRequest(_, _, _) => 2
    case _ => 0
  }

  // ---- Publishing and handling, each calling the other -----------------------------------------------

  function Published(home: Home, s: Loop, m: Message): Loop
    decreases Rank(home, m), 2, 0
  {
    Handled(home, s.(log := s.log + [m]), m)
  }

  /** The first k messages published one after another. */
  function PublishedAll(home: Home, s: Loop, ms: seq<Message>, k: nat, above: nat): Loop
    requires k <= |ms| && forall i :: 0 <= i < |ms| ==> Rank(home, ms[i]) < above
    decreases above, 0, k
  {
    if k == 0 then s else Published(home, PublishedAll(home, s, ms, k - 1, above), ms[k - 1])
  }

  /** Answers that depend on the message and the state it finds, for everything but plans and queries. */
  function Answers(home: Home, s: Loop, m: Message): (ms: seq<Message>)
    ensures forall i :: 0 <= i < |ms| ==> Rank(home, ms[i]) < 1
    ensures Rank(home, m) == 0 ==> ms == []
  {
    match m
    case ServiceStatus(service) => if service == Some(home.service) then [] else [Heartbeat(home)]
    case FlightCapability(publisher, capability, _, _) =>
      if publisher == Some(home.system) || (capability.Some? && capability != Some(home.capability)) then []
      else [Offer(home), Unsubscribed]
    case MaTask(publisher, task, removed) =>
      if publisher == Some(home.system) || task.None? || removed || task.value in s.tasks then [] else [Unsubscribed]
    case StatusRequest(request, subsystem) =>
      if request.None? then []
      else if subsystem then [Unsubscribed]
      else [Unsubscribed, Unsubscribed, Unsubscribed, Unsubscribed]
    case OtherRequest(outs) => AllOnBus(home, outs)
    case _ => []
  }

  /** What the handler records before it answers. */
  function Recorded(home: Home, s: Loop, m: Message): Loop {
    match m
    case FlightCapability(publisher, capability, removed, modes) =>
      if publisher == Some(home.system) || (capability.Some? && capability != Some(home.capability)) then s
      else s.(overlay := if removed then None else Some(modes))
    case MaTask(publisher, task, removed) =>
      if publisher == Some(home.system) || task.None? then s
      else if removed then s.(tasks := s.tasks - {task.value})
      else s.(tasks := s.tasks + {task.value})
    case _ => s
  }

  function PlanAnswers(plan: Uuid): seq<Message> {
    [Unsubscribed, FileLocation(plan), FileMetadata(plan)]
  }

  function QueryLadder(request: Uuid, listed: Option<seq<Listing>>): seq<Message> {
    [QueryStatus(request, Queued, []), QueryStatus(request, InProgress, []),
     if listed.Some? then QueryStatus(request, Completed, listed.value) else QueryStatus(request, Failed, [])]
  }

  function Handled(home: Home, s: Loop, m: Message): Loop
    decreases Rank(home, m), 1, 1
  {
    match m
    case RoutePlan(xml) => PlanHandled(home, s, xml)
    case QueryRequest(request, kinds, identifiersOnly) =>
      if request.None? then s
      else QueryHandled(home, s, request.value, if kinds == {} then EVERY_KIND else kinds, identifiersOnly)
    case _ => PublishedAll(home, Recorded(home, s, m), Answers(home, s, m), |Answers(home, s, m)|, Rank(home, m))
  }

  function PlanHandled(home: Home, s: Loop, xml: string): Loop
    decreases 1, 1, 0
  {
    var id := home.texts.planId(xml);
    if id.None? then s
    else
      var stored := s.(store := Ingested(home.texts, s.store, id.value, xml));
      if Lookup(s.store, id.value).Some? then stored else PublishedAll(home, stored, PlanAnswers(id.value), 3, 1)
  }

  function QueryHandled(home: Home, s: Loop, request: Uuid, kinds: set<Kind>, identifiersOnly: bool): Loop
    decreases 2, 1, 0
  {
    var listed := ListedFor(home, s.store, kinds);
    var told := PublishedAll(home, s, QueryLadder(request, listed), 3, 1);
    if listed.None? || identifiersOnly then told else Sent(home, told, kinds)
  }

  function ListedFor(home: Home, store: Store, kinds: set<Kind>): Option<seq<Listing>> {
    if AllIntact(home, store, kinds) then Some(Listings(home, store, kinds)) else None
  }

  /** The offer, the plans and the airfield report a query asks for. */
  function Sent(home: Home, s: Loop, kinds: set<Kind>): Loop
    decreases 2, 0, 0
  {
    PlansAndFieldSent(home, if CapabilityKind in kinds then Published(home, s, Offer(home)) else s, kinds)
  }

  function PlansAndFieldSent(home: Home, s: Loop, kinds: set<Kind>): Loop
    decreases 1, 5, 0
  {
    var ids := Listed(s.store, |s.store.keys|);
    var routed := if RouteKind in kinds then PlansPublished(home, s, ids, |ids|).0 else s;
    if AirfieldKind !in kinds then routed
    else
      var reported := Published(home, routed, AirfieldReport);
      if RouteKind in kinds then reported else PlansPublished(home, reported, home.fieldPlans, |home.fieldPlans|).0
  }

  /** The first k ids: each plan that can be handed out and was not sent yet. */
  function PlansPublished(home: Home, s: Loop, ids: seq<Uuid>, k: nat): (Loop, set<Uuid>)
    requires k <= |ids|
    decreases 1, 4, k
  {
    if k == 0 then (s, {})
    else
      var (before, sent) := PlansPublished(home, s, ids, k - 1);
      var id := ids[k - 1];
      var stored := Lookup(before.store, id);
      if id in sent || stored.None? then (before, sent)
      else (PlanPublished(home, before, id, stored.value.xml), sent + {id})
  }

  function PlanPublished(home: Home, s: Loop, id: Uuid, xml: string): Loop
    decreases 1, 3, 0
  {
    Published(home, Published(home, Published(home, s, FileLocation(id)), FileMetadata(id)), RoutePlan(xml))
  }

  class LoopbackBus {
    const home: Home
    const routes: RouteStore
    var overlay: Option<seq<string>>
    var tasks: set<Uuid>
    var log: seq<Message>

    ghost predicate Valid() {
      routes.texts == home.texts
    }

    ghost function View(): Loop
      reads this, routes
    {
      Loop(routes.routes, overlay, tasks, log)
    }

    constructor (home: Home)
      ensures Valid() && this.home == home && fresh(routes) && View() == Loop(Dict([], map[]), None, {}, [])
    {
      this.home := home;
      routes := new RouteStore(home.texts);
      overlay, tasks, log := None, {}, [];
    }

    /** Recorded, then handled before this returns. */
    method Publish(m: Message)
      requires Valid()
      modifies this, routes
      ensures View() == Published(home, old(View()), m)
      decreases Rank(home, m), 2, 0
    {
      log := log + [m];
      Dispatch(m);
    }

    method PublishAll(ms: seq<Message>, ghost above: nat)
      requires Valid() && forall i :: 0 <= i < |ms| ==> Rank(home, ms[i]) < above
      modifies this, routes
      ensures View() == PublishedAll(home, old(View()), ms, |ms|, above)
      decreases above, 0, 0
    {
      for k := 0 to |ms|
        invariant View() == PublishedAll(home, old(View()), ms, k, above)
      {
        Publish(ms[k]);
      }
    }

    method Dispatch(m: Message)
      requires Valid()
      modifies this, routes
      ensures View() == Handled(home, old(View()), m)
      decreases Rank(home, m), 1, 1
    {
      match m {
        case RoutePlan(xml) => HandleRoutePlan(xml);
        case QueryRequest(request, kinds, identifiersOnly) =>
          if request.Some? {
            HandleQuery(request.value, if kinds == {} then EVERY_KIND else kinds, identifiersOnly);
          }
        case _ =>
          var answers := Answers(home, Loop(routes.routes, overlay, tasks, log), m);
          Record(m);
          PublishAll(answers, Rank(home, m));
      }
    }

    method Record(m: Message)
      modifies this
      ensures View() == Recorded(home, old(View()), m)
    {
      match m {
        case FlightCapability(publisher, capability, removed, modes) =>
          if publisher == Some(home.system) {
            return;
          }
          if capability.Some? && capability != Some(home.capability) {
            return;
          }
          overlay := if removed then None else Some(modes);
        case MaTask(publisher, task, removed) =>
          if publisher == Some(home.system) || task.None? {
            return;
          }
          tasks := if removed then tasks - {task.value} else tasks + {task.value};
        case _ =>
      }
    }

    method HandleRoutePlan(xml: string)
      requires Valid()
      modifies this, routes
      ensures View() == PlanHandled(home, old(View()), xml)
      decreases 1, 1, 0
    {
      var id := home.texts.planId(xml);
      if id.None? {
        return;
      }
      var already := Lookup(routes.routes, id.value).Some?;
      routes.Ingest(id.value, xml);
      if already {
        return;
      }
      PublishAll(PlanAnswers(id.value), 1);
    }

    method HandleQuery(request: Uuid, kinds: set<Kind>, identifiersOnly: bool)
      requires Valid()
      modifies this, routes
      ensures View() == QueryHandled(home, old(View()), request, kinds, identifiersOnly)
      decreases 2, 1, 0
    {
      var listed := CollectListings(home, routes, kinds);
      PublishAll(QueryLadder(request, listed), 1);
      if listed.Some? && !identifiersOnly {
        PublishNative(kinds);
      }
    }

    method PublishNative(kinds: set<Kind>)
      requires Valid()
      modifies this, routes
      ensures View() == Sent(home, old(View()), kinds)
      decreases 2, 0, 0
    {
      if CapabilityKind in kinds {
        Publish(Offer(home));
      }
      if RouteKind in kinds {
        var ids := routes.IngestedIds();
        PublishRoutes(ids);
      }
      if AirfieldKind in kinds {
        Publish(AirfieldReport);
        if RouteKind !in kinds {
          PublishRoutes(home.fieldPlans);
        }
      }
    }

    method PublishRoutes(ids: seq<Uuid>)
      requires Valid()
      modifies this, routes
      ensures View() == PlansPublished(home, old(View()), ids, |ids|).0
      decreases 1, 3, 0
    {
      var sent: set<Uuid> := {};
      for k := 0 to |ids|
        invariant (View(), sent) == PlansPublished(home, old(View()), ids, k)
      {
        var stored := Lookup(routes.routes, ids[k]);
        if ids[k] !in sent && stored.Some? {
          Publish(FileLocation(ids[k]));
          Publish(FileMetadata(ids[k]));
          Publish(RoutePlan(stored.value.xml));
          sent := sent + {ids[k]};
        }
      }
    }
  }

  // ---- The cascade is one step deep ----------------------------------------------------------------------

  /** The Isolator's own offer, heartbeat and task, and everything it does not subscribe to, change nothing
      and are answered with nothing. */
  lemma SilenceAnswersSilence(home: Home, s: Loop, m: Message)
    requires Rank(home, m) == 0
    ensures Handled(home, s, m) == s
  {
  }

  lemma {:induction false} QuietlyPublished(home: Home, s: Loop, ms: seq<Message>, k: nat, above: nat)
    requires k <= |ms| && above > 0 && forall i :: 0 <= i < |ms| ==> Rank(home, ms[i]) == 0
    ensures PublishedAll(home, s, ms, k, above) == s.(log := s.log + ms[..k])
  {
    if k == 0 {
    } else {
      QuietlyPublished(home, s, ms, k - 1, above);
      var before := PublishedAll(home, s, ms, k - 1, above);
      SilenceAnswersSilence(home, before.(log := before.log + [ms[k - 1]]), ms[k - 1]);
      assert ms[..k] == ms[..k - 1] + [ms[k - 1]];
    }
  }

  /** Two stores hand out the same texts under the same ids. */
  ghost predicate SameOffer(store: Store, store': Store) {
    && store'.keys == store.keys && store'.at.Keys == store.at.Keys
    && forall id :: id in store.at ==> store'.at[id] == store.at[id].(state := store'.at[id].state)
  }

  function Revived(state: PlanState): PlanState {
    if state.Inactive? || state.Deactivated? then ReadyForUpload else state
  }

  function WithRevived(store: Store, id: Uuid): Store
    requires id in store.at
  {
    store.Put(id, store.at[id].(state := Revived(store.at[id].state)))
  }

  /** Storing a plan's own text again only revives it. */
  lemma OwnTextRevives(home: Home, store: Store, id: Uuid)
    requires SoundStore(home.texts, store) && Lookup(store, id).Some?
    ensures Ingested(home.texts, store, id, Lookup(store, id).value.xml) == WithRevived(store, id)
    ensures home.texts.planId(Lookup(store, id).value.xml) == Some(id)
  {
    assert SoundRecord(home.texts, id, store.at[id]);
  }

  /** Sending a stored plan puts its messages on the log and nothing else: its own text comes back under
      its own id, which is stored already. It does move a DEACTIVATED plan to READY_FOR_UPLOAD. */
  lemma PlanSentQuietly(home: Home, s: Loop, id: Uuid)
    requires SoundStore(home.texts, s.store) && Lookup(s.store, id).Some?
    ensures PlanPublished(home, s, id, Lookup(s.store, id).value.xml) ==
      s.(store := WithRevived(s.store, id), log := s.log + PlanMessages(s.store, id))
  {
    var xml := Lookup(s.store, id).value.xml;
    OwnTextRevives(home, s.store, id);
    var s1 := s.(log := s.log + [FileLocation(id)]);
    var s2 := s1.(log := s1.log + [FileMetadata(id)]);
    var s3 := s2.(log := s2.log + [RoutePlan(xml)]);
    SilenceAnswersSilence(home, s1, FileLocation(id));
    SilenceAnswersSilence(home, s2, FileMetadata(id));
    assert Published(home, s, FileLocation(id)) == s1 && Published(home, s1, FileMetadata(id)) == s2;
    assert Handled(home, s3, RoutePlan(xml)) == PlanHandled(home, s3, xml);
    assert Published(home, s2, RoutePlan(xml)) == s3.(store := WithRevived(s.store, id));
    assert s3.log == s.log + PlanMessages(s.store, id);
  }

  function PlanMessages(store: Store, id: Uuid): seq<Message> {
    var stored := Lookup(store, id);
    if stored.None? then [] else [FileLocation(id), FileMetadata(id), RoutePlan(stored.value.xml)]
  }

  function PlansMessages(store: Store, ids: seq<Uuid>): seq<Message> {
    Collect(ids, id => PlanMessages(store, id))
  }

  /** The store after these plans were sent. */
  function RevivedAll(store: Store, plans: seq<Uuid>): Store {
    if plans == [] then store
    else
      var before, last := RevivedAll(store, plans[..|plans| - 1]), plans[|plans| - 1];
      if last in before.at then WithRevived(before, last) else before
  }

  /** Those of the plans that were DEACTIVATED are READY_FOR_UPLOAD; nothing else differs. */
  ghost predicate OnlyRevived(store: Store, store': Store, plans: seq<Uuid>) {
    && SameOffer(store, store')
    && forall id :: id in store.at ==>
         store'.at[id].state == if id in plans then Revived(store.at[id].state) else store.at[id].state
  }

  lemma {:induction false} RevivesOnly(home: Home, store: Store, plans: seq<Uuid>)
    requires SoundStore(home.texts, store)
    ensures SoundStore(home.texts, RevivedAll(store, plans)) && OnlyRevived(store, RevivedAll(store, plans), plans)
  {
    if plans == [] {
    } else {
      var before, last := plans[..|plans| - 1], plans[|plans| - 1];
      RevivesOnly(home, store, before);
      assert plans == before + [last];
      RevivesOneMore(home, store, RevivedAll(store, before), before, last);
    }
  }

  lemma RevivesOneMore(home: Home, store: Store, store': Store, plans: seq<Uuid>, last: Uuid)
    requires SoundStore(home.texts, store') && OnlyRevived(store, store', plans)
    ensures last in store'.at ==>
      SoundStore(home.texts, WithRevived(store', last)) && OnlyRevived(store, WithRevived(store', last), plans + [last])
    ensures last !in store'.at ==> OnlyRevived(store, store', plans + [last])
  {
    if last in store'.at {
      assert SoundRecord(home.texts, last, store'.at[last]);
    }
  }

  lemma SameLookup(store: Store, store': Store, id: Uuid)
    requires SameOffer(store, store')
    ensures Lookup(store', id).Some? <==> Lookup(store, id).Some?
    ensures PlanMessages(store', id) == PlanMessages(store, id)
  {
  }

  /** From s: these messages said, these plans revived, and nothing else done. */
  function Done(s: Loop, out: seq<Message>, plans: seq<Uuid>): Loop {
    s.(store := RevivedAll(s.store, plans), log := s.log + out)
  }

  /** On the loopback bus the plans go out exactly as they would with nobody listening. */
  lemma {:induction false} PlansSentQuietly(home: Home, s: Loop, ids: seq<Uuid>, k: nat)
    requires SoundStore(home.texts, s.store) && k <= |ids|
    ensures var served := Servable(s.store, ids, k, {});
      PlansPublished(home, s, ids, k).0 == Done(s, PlansMessages(s.store, served), served)
    ensures forall id :: id in PlansPublished(home, s, ids, k).1 <==> id in Servable(s.store, ids, k, {})
  {
    if k == 0 {
    } else {
      PlansSentQuietly(home, s, ids, k - 1);
      NextPlanSent(home, s, Servable(s.store, ids, k - 1, {}), PlansPublished(home, s, ids, k - 1).1, ids[k - 1]);
    }
  }

  lemma NextPlanSent(home: Home, s: Loop, served: seq<Uuid>, sent: set<Uuid>, id: Uuid)
    requires SoundStore(home.texts, s.store) && forall x :: x in sent <==> x in served
    ensures var before := Done(s, PlansMessages(s.store, served), served);
      var stored := Lookup(before.store, id);
      && (stored.Some? <==> Lookup(s.store, id).Some?)
      && (stored.Some? && id !in sent ==>
            PlanPublished(home, before, id, stored.value.xml) ==
              Done(s, PlansMessages(s.store, served + [id]), served + [id]))
  {
    RevivesOnly(home, s.store, served);
    SameLookup(s.store, RevivedAll(s.store, served), id);
    if id !in sent && Lookup(s.store, id).Some? {
      OnePlanSent(home, s, served, id);
    }
  }

  lemma OnePlanSent(home: Home, s: Loop, served: seq<Uuid>, id: Uuid)
    requires SoundStore(home.texts, s.store) && Lookup(s.store, id).Some?
    ensures var before := Done(s, PlansMessages(s.store, served), served);
      && Lookup(before.store, id).Some?
      && PlanPublished(home, before, id, Lookup(before.store, id).value.xml) ==
        Done(s, PlansMessages(s.store, served + [id]), served + [id])
  {
    var before := Done(s, PlansMessages(s.store, served), served);
    RevivesOnly(home, s.store, served);
    SameLookup(s.store, before.store, id);
    PlanSentQuietly(home, before, id);
    OneMoreDone(s, served, id);
  }

  lemma OneMoreDone(s: Loop, served: seq<Uuid>, id: Uuid)
    requires id in RevivedAll(s.store, served).at
    ensures var before := Done(s, PlansMessages(s.store, served), served);
      Done(s, PlansMessages(s.store, served + [id]), served + [id]) ==
        before.(store := WithRevived(before.store, id), log := before.log + PlanMessages(s.store, id))
  {
    OneMoreMessage(s.store, served, id);
    assert (served + [id])[..|served|] == served;
    assert RevivedAll(s.store, served + [id]) == WithRevived(RevivedAll(s.store, served), id);
  }

  lemma OneMoreMessage(store: Store, served: seq<Uuid>, id: Uuid)
    ensures PlansMessages(store, served + [id]) == PlansMessages(store, served) + PlanMessages(store, id)
  {
    CollectAppend(served, [id], x => PlanMessages(store, x));
    assert [id][..0] == [];
  }

  function Native(home: Home, store: Store, kinds: set<Kind>): seq<Message> {
    (if CapabilityKind in kinds then [Offer(home)] else []) + PlansAndField(home, store, kinds)
  }

  function PlansAndField(home: Home, store: Store, kinds: set<Kind>): seq<Message> {
    var plans := PlansMessages(store, PlansSent(home, store, kinds));
    var report := if AirfieldKind in kinds then [AirfieldReport] else [];
    if RouteKind in kinds then plans + report else report + plans
  }

  lemma PublishedQuietly(home: Home, s: Loop, m: Message)
    requires Rank(home, m) == 0
    ensures Published(home, s, m) == s.(log := s.log + [m])
  {
    SilenceAnswersSilence(home, s.(log := s.log + [m]), m);
  }

  lemma PlansAndFieldExactly(home: Home, s: Loop, kinds: set<Kind>)
    requires SoundStore(home.texts, s.store)
    ensures PlansAndFieldSent(home, s, kinds) ==
      Done(s, PlansAndField(home, s.store, kinds), PlansSent(home, s.store, kinds))
  {
    if RouteKind in kinds {
      var ids := Listed(s.store, |s.store.keys|);
      PlansSentQuietly(home, s, ids, |ids|);
      var plans := PlansMessages(s.store, Servable(s.store, ids, |ids|, {}));
      PublishedQuietly(home, PlansPublished(home, s, ids, |ids|).0, AirfieldReport);
      assert s.log + plans + [AirfieldReport] == s.log + (plans + [AirfieldReport]);
      assert plans + [] == plans;
    } else if AirfieldKind in kinds {
      PublishedQuietly(home, s, AirfieldReport);
      PlansSentQuietly(home, s.(log := s.log + [AirfieldReport]), home.fieldPlans, |home.fieldPlans|);
      var plans := PlansMessages(s.store, Servable(s.store, home.fieldPlans, |home.fieldPlans|, {}));
      assert s.log + [AirfieldReport] + plans == s.log + ([AirfieldReport] + plans);
    }
  }

  /** What a query sends, and what sending it does. */
  lemma SentExactly(home: Home, s: Loop, kinds: set<Kind>)
    requires SoundStore(home.texts, s.store)
    ensures Sent(home, s, kinds) == Done(s, Native(home, s.store, kinds), PlansSent(home, s.store, kinds))
  {
    var offer := if CapabilityKind in kinds then [Offer(home)] else [];
    var offered := s.(log := s.log + offer);
    PublishedQuietly(home, s, Offer(home));
    assert (if CapabilityKind in kinds then Published(home, s, Offer(home)) else s) == offered;
    PlansAndFieldExactly(home, offered, kinds);
    assert offered.log + PlansAndField(home, s.store, kinds) == s.log + Native(home, s.store, kinds);
  }

  /** What the Isolator answers a message with, all told. */
  function Answered(home: Home, s: Loop, m: Message): seq<Message> {
    match m
    case RoutePlan(xml) =>
      var id := home.texts.planId(xml);
      if id.None? || Lookup(s.store, id.value).Some? then [] else PlanAnswers(id.value)
    case QueryRequest(request, kinds, identifiersOnly) =>
      if request.None? then []
      else
        var asked := if kinds == {} then EVERY_KIND else kinds;
        QueryLadder(request.value, Some(Listings(home, s.store, asked)))
        + if identifiersOnly then [] else Native(home, s.store, asked)
    case _ => Answers(home, s, m)
  }

  lemma StoredPlansIntact(home: Home, store: Store, kinds: set<Kind>)
    requires SoundStore(home.texts, store)
    ensures AllIntact(home, store, kinds)
  {
    forall id
      ensures Intact(home, store, id)
    {
      assert id in store.at ==> SoundRecord(home.texts, id, store.at[id]);
    }
  }

  lemma LadderSilent(home: Home, request: Uuid, listed: Option<seq<Listing>>)
    ensures forall i :: 0 <= i < 3 ==> Rank(home, QueryLadder(request, listed)[i]) == 0
  {
  }

  /** A query is answered with its ladder, always COMPLETED, and what it sends. */
  lemma QueryAnswered(home: Home, s: Loop, request: Uuid, kinds: set<Kind>, identifiersOnly: bool)
    requires SoundStore(home.texts, s.store)
    ensures var ladder := QueryLadder(request, Some(Listings(home, s.store, kinds)));
      QueryHandled(home, s, request, kinds, identifiersOnly) ==
        Done(s, ladder + if identifiersOnly then [] else Native(home, s.store, kinds),
             if identifiersOnly then [] else PlansSent(home, s.store, kinds))
  {
    LadderTold(home, s, request, kinds);
    if identifiersOnly {
      ListedAnswered(home, s, request, kinds);
    } else {
      FullyAnswered(home, s, request, kinds);
    }
  }

  /** The ladder is published with nothing coming back. */
  lemma LadderTold(home: Home, s: Loop, request: Uuid, kinds: set<Kind>)
    requires SoundStore(home.texts, s.store)
    ensures ListedFor(home, s.store, kinds) == Some(Listings(home, s.store, kinds))
    ensures var ladder := QueryLadder(request, Some(Listings(home, s.store, kinds)));
      PublishedAll(home, s, ladder, 3, 1) == s.(log := s.log + ladder)
  {
    StoredPlansIntact(home, s.store, kinds);
    var ladder := QueryLadder(request, Some(Listings(home, s.store, kinds)));
    LadderSilent(home, request, Some(Listings(home, s.store, kinds)));
    QuietlyPublished(home, s, ladder, 3, 1);
    assert ladder[..3] == ladder;
  }

  lemma ListedAnswered(home: Home, s: Loop, request: Uuid, kinds: set<Kind>)
    requires SoundStore(home.texts, s.store)
    ensures QueryHandled(home, s, request, kinds, true) ==
      Done(s, QueryLadder(request, Some(Listings(home, s.store, kinds))) + [], [])
  {
    var ladder := QueryLadder(request, Some(Listings(home, s.store, kinds)));
    LadderTold(home, s, request, kinds);
    assert ladder + [] == ladder;
  }

  lemma FullyAnswered(home: Home, s: Loop, request: Uuid, kinds: set<Kind>)
    requires SoundStore(home.texts, s.store)
    ensures QueryHandled(home, s, request, kinds, false) ==
      Done(s, QueryLadder(request, Some(Listings(home, s.store, kinds))) + Native(home, s.store, kinds),
           PlansSent(home, s.store, kinds))
  {
    var ladder, native := QueryLadder(request, Some(Listings(home, s.store, kinds))), Native(home, s.store, kinds);
    LadderTold(home, s, request, kinds);
    var told := s.(log := s.log + ladder);
    SentExactly(home, told, kinds);
    assert QueryHandled(home, s, request, kinds, false) == Sent(home, told, kinds);
    assert told.log + native == s.log + (ladder + native);
  }

  lemma PlanAnswered(home: Home, s: Loop, xml: string)
    requires SoundStore(home.texts, s.store)
    ensures var x := PlanHandled(home, s, xml);
      SoundStore(home.texts, x.store) && x.log == s.log + Answered(home, s, RoutePlan(xml))
  {
    var id := home.texts.planId(xml);
    if id.Some? {
      IngestKeepsSound(home.texts, s.store, id.value, xml);
      var stored := s.(store := Ingested(home.texts, s.store, id.value, xml));
      QuietlyPublished(home, stored, PlanAnswers(id.value), 3, 1);
      assert PlanAnswers(id.value)[..3] == PlanAnswers(id.value);
    }
  }

  lemma OthersAnswered(home: Home, s: Loop, m: Message)
    requires !m.RoutePlan? && !m.QueryRequest?
    ensures Handled(home, s, m).store == s.store
    ensures Handled(home, s, m).log == s.log + Answers(home, s, m)
  {
    var answers := Answers(home, s, m);
    if Rank(home, m) > 0 {
      QuietlyPublished(home, Recorded(home, s, m), answers, |answers|, Rank(home, m));
      assert answers[..|answers|] == answers;
    }
  }

  /** With a sound store, whatever arrives, the loopback adds nothing: what the bus has seen in the end is
      the message and the Isolator's own answer to it, and no answer to any answer. The store stays sound. */
  lemma LoopbackAddsNothing(home: Home, s: Loop, m: Message)
    requires SoundStore(home.texts, s.store)
    ensures Published(home, s, m).log == s.log + [m] + Answered(home, s, m)
    ensures SoundStore(home.texts, Published(home, s, m).store)
  {
    var heard := s.(log := s.log + [m]);
    if m.RoutePlan? {
      PlanAnswered(home, heard, m.xml);
    } else if m.QueryRequest? {
      QueryMessageAnswered(home, heard, m);
    } else {
      OthersAnswered(home, heard, m);
    }
  }

  lemma QueryMessageAnswered(home: Home, s: Loop, m: Message)
    requires SoundStore(home.texts, s.store) && m.QueryRequest?
    ensures Handled(home, s, m).log == s.log + Answered(home, s, m)
    ensures SoundStore(home.texts, Handled(home, s, m).store)
  {
    if m.request.Some? {
      var kinds := if m.kinds == {} then EVERY_KIND else m.kinds;
      QueryAnswered(home, s, m.request.value, kinds, m.identifiersOnly);
      assert Handled(home, s, m) == QueryHandled(home, s, m.request.value, kinds, m.identifiersOnly);
      RevivesOnly(home, s.store, if m.identifiersOnly then [] else PlansSent(home, s.store, kinds));
    }
  }

  /** In every state that any run of the session reaches, from an empty or preloaded store, whatever is
      published causes exactly the Isolator's own answer to it. */
  lemma NoEchoInAnyRun(home: Home, states: seq<Session.Session>, steps: seq<SessionRuns.Step>, k: nat, s: Loop,
    m: Message)
    requires SessionRuns.Run(home.texts, states, steps) && k < |states| && s.store == states[k].store
    ensures Published(home, s, m).log == s.log + [m] + Answered(home, s, m)
  {
    SessionRuns.AlwaysAgrees(home.texts, states, steps, k);
    LoopbackAddsNothing(home, s, m);
  }

  function SessionOuts(events: seq<Session.Event>): seq<Out> {
    seq(|events|, i requires 0 <= i < |events| => OfSession(events[i]))
  }

  /** Whatever a step of the session publishes, in answer to a message or on a tick, comes back to the
      Isolator unanswered and changes nothing here. */
  lemma SessionStepUnanswered(home: Home, texts: Texts, session: Session.Session, step: SessionRuns.Step, s: Loop)
    ensures var ms := AllOnBus(home, SessionOuts(SessionRuns.Added(texts, session, step)));
      PublishedAll(home, s, ms, |ms|, 1) == s.(log := s.log + ms)
  {
    var ms := AllOnBus(home, SessionOuts(SessionRuns.Added(texts, session, step)));
    QuietlyPublished(home, s, ms, |ms|, 1);
    assert ms[..|ms|] == ms;
  }

  /** And so does whatever a step of the control desk publishes. */
  lemma ControlStepUnanswered(home: Home, me: Control.Identity, desk: Control.Desk, step: Control.Step, s: Loop)
    ensures var added := Control.Added(me, desk, step);
      var ms := AllOnBus(home, seq(|added|, i requires 0 <= i < |added| => OfControl(added[i])));
      PublishedAll(home, s, ms, |ms|, 1) == s.(log := s.log + ms)
  {
    var added := Control.Added(me, desk, step);
    var ms := AllOnBus(home, seq(|added|, i requires 0 <= i < |added| => OfControl(added[i])));
    QuietlyPublished(home, s, ms, |ms|, 1);
    assert ms[..|ms|] == ms;
  }

  // ---- The query, read from the bus ----------------------------------------------------------------------

  /** The ids read out of the plan texts among these messages. */
  function PlanIds(home: Home, ms: seq<Message>): seq<Uuid> {
    Collect(ms, m => PlanIdOf(home, m))
  }

  function PlanIdOf(home: Home, m: Message): seq<Uuid> {
    if m.RoutePlan? && home.texts.planId(m.xml).Some? then [home.texts.planId(m.xml).value] else []
  }

  lemma PlanIdsAppend(home: Home, a: seq<Message>, b: seq<Message>)
    ensures PlanIds(home, a + b) == PlanIds(home, a) + PlanIds(home, b)
  {
    CollectAppend(a, b, m => PlanIdOf(home, m));
  }

  lemma NoPlanIds(home: Home, ms: seq<Message>)
    requires forall i :: 0 <= i < |ms| ==> !ms[i].RoutePlan?
    ensures PlanIds(home, ms) == []
  {
    CollectNothing(ms, m => PlanIdOf(home, m));
  }

  lemma {:induction false} IdsOfPlansMessages(home: Home, store: Store, ids: seq<Uuid>)
    requires SoundStore(home.texts, store) && forall i :: 0 <= i < |ids| ==> Lookup(store, ids[i]).Some?
    ensures PlanIds(home, PlansMessages(store, ids)) == ids
  {
    if ids != [] {
      var before, id := ids[..|ids| - 1], ids[|ids| - 1];
      IdsOfPlansMessages(home, store, before);
      assert ids == before + [id];
      OneMoreMessage(store, before, id);
      PlanIdsAppend(home, PlansMessages(store, before), PlanMessages(store, id));
      var sent := PlanMessages(store, id);
      CollectThree(sent[0], sent[1], sent[2], m => PlanIdOf(home, m));
      assert SoundRecord(home.texts, id, store.at[id]);
    } else {
      assert PlansMessages(store, []) == [];
    }
  }

  lemma PlansSentServable(home: Home, store: Store, kinds: set<Kind>)
    ensures forall i :: 0 <= i < |PlansSent(home, store, kinds)| ==>
      Lookup(store, PlansSent(home, store, kinds)[i]).Some?
    ensures forall i, j :: 0 <= i < j < |PlansSent(home, store, kinds)| ==>
      PlansSent(home, store, kinds)[i] != PlansSent(home, store, kinds)[j]
  {
    var sent := PlansSent(home, store, kinds);
    ServableExactly(store, Listed(store, |store.keys|), |Listed(store, |store.keys|)|, {});
    ServableExactly(store, home.fieldPlans, |home.fieldPlans|, {});
    assert forall i :: 0 <= i < |sent| ==> sent[i] in sent;
  }

  lemma IdsOfNative(home: Home, store: Store, kinds: set<Kind>)
    requires SoundStore(home.texts, store)
    ensures PlanIds(home, Native(home, store, kinds)) == PlansSent(home, store, kinds)
  {
    var plans := PlansMessages(store, PlansSent(home, store, kinds));
    var offer := if CapabilityKind in kinds then [Offer(home)] else [];
    var report := if AirfieldKind in kinds then [AirfieldReport] else [];
    NoPlanIds(home, offer);
    NoPlanIds(home, report);
    PlanIdsAppend(home, offer, PlansAndField(home, store, kinds));
    PlanIdsAppend(home, plans, report);
    PlanIdsAppend(home, report, plans);
    PlansSentServable(home, store, kinds);
    IdsOfPlansMessages(home, store, PlansSent(home, store, kinds));
  }

  /** The ids in the plans a completed query sends are, in order, the ids its COMPLETED status lists as
      plans, if and only if none of them clashes with an id listed as something else; each goes out once;
      and sending them revives the DEACTIVATED ones and changes no plan otherwise. */
  lemma QuerySendsWhatItLists(home: Home, store: Store, kinds: set<Kind>)
    requires SoundStore(home.texts, store)
    ensures var listed, sent := ListedPlans(Listings(home, store, kinds)), PlanIds(home, Native(home, store, kinds));
      && (listed == sent <==> NoClash(home, store, kinds))
      && (forall i, j :: 0 <= i < j < |sent| ==> sent[i] != sent[j])
      && sent == PlansSent(home, store, kinds)
      && OnlyRevived(store, RevivedAll(store, sent), sent)
  {
    IdsOfNative(home, store, kinds);
    ListsExactlyWhatItSends(home, store, kinds);
    PlansSentServable(home, store, kinds);
    RevivesOnly(home, store, PlansSent(home, store, kinds));
  }

  /** A clash can be reached: a peer may send a plan under the very id of the capability, and a query then
      sends a plan it does not list as one. */
  lemma ClashReachable(home: Home, xml: string) returns (states: seq<Session.Session>, steps: seq<SessionRuns.Step>)
    requires home.texts.planId(xml) == Some(home.capability)
    ensures SessionRuns.Run(home.texts, states, steps)
    ensures var store := states[|steps|].store;
      && !NoClash(home, store, EVERY_KIND)
      && ListedPlans(Listings(home, store, EVERY_KIND)) != PlanIds(home, Native(home, store, EVERY_KIND))
  {
    var arrived := Session.PlanReceived(home.texts, Session.FRESH, xml);
    states, steps := [Session.FRESH, arrived], [SessionRuns.PlanText(xml)];
    SessionRuns.AlwaysAgrees(home.texts, states, steps, 1);
    StoredIsSent(home, arrived.store, home.capability);
    QuerySendsWhatItLists(home, arrived.store, EVERY_KIND);
  }

  lemma StoredIsSent(home: Home, store: Store, id: Uuid)
    requires store.Valid() && Lookup(store, id).Some?
    ensures id in PlansSent(home, store, EVERY_KIND)
  {
    var ids := Listed(store, |store.keys|);
    StoredIsListed(store, id);
    ServableExactly(store, ids, |ids|, {});
    assert ids[..|ids|] == ids;
  }

  // ---- Each message, start to finish ---------------------------------------------------------------------------

  /** Another service's heartbeat is answered with this one's, and its own with nothing. */
  lemma HeartbeatAnswered(home: Home, s: Loop, service: Option<Uuid>)
    ensures Published(home, s, ServiceStatus(service)) == s.(log := s.log + (
      if service == Some(home.service) then [ServiceStatus(service)]
      else [ServiceStatus(service), ServiceStatus(Some(home.service))]))
  {
    AnsweredQuietly(home, s, ServiceStatus(service));
  }

  /** An offer for this vehicle from anyone else becomes the overlay, or ends it, and the vehicle's own offer and its
      status go out; any other offer changes nothing. */
  lemma OverlayTaken(
    home: Home, s: Loop, publisher: Option<Uuid>, capability: Option<Uuid>, removed: bool, modes: seq<string>)
    ensures var m := FlightCapability(publisher, capability, removed, modes);
      Published(home, s, m) ==
        if publisher != Some(home.system) && (capability.None? || capability == Some(home.capability))
        then s.(overlay := if removed then None else Some(modes),
                log := s.log + [m, FlightCapability(Some(home.system), Some(home.capability), false, []), Unsubscribed])
        else s.(log := s.log + [m])
  {
    AnsweredQuietly(home, s, FlightCapability(publisher, capability, removed, modes));
  }

  /** Another's task is answered the first time it is heard of, and again once it has been removed. */
  lemma TaskHeard(home: Home, s: Loop, publisher: Option<Uuid>, task: Option<Uuid>, removed: bool)
    ensures var m := MaTask(publisher, task, removed);
      Published(home, s, m) ==
        if publisher == Some(home.system) || task.None? then s.(log := s.log + [m])
        else if removed then s.(tasks := s.tasks - {task.value}, log := s.log + [m])
        else s.(tasks := s.tasks + {task.value},
                log := s.log + if task.value in s.tasks then [m] else [m, Unsubscribed])
  {
    AnsweredQuietly(home, s, MaTask(publisher, task, removed));
  }

  lemma AnsweredQuietly(home: Home, s: Loop, m: Message)
    requires m.ServiceStatus? || m.FlightCapability? || m.MaTask?
    ensures Published(home, s, m) == Recorded(home, s, m).(log := s.log + ([m] + Answers(home, s, m)))
  {
    var heard := s.(log := s.log + [m]);
    var answers := Answers(home, heard, m);
    assert answers == Answers(home, s, m);
    if Rank(home, m) > 0 {
      QuietlyPublished(home, Recorded(home, heard, m), answers, |answers|, Rank(home, m));
      assert answers[..|answers|] == answers;
    } else {
      SilenceAnswersSilence(home, heard, m);
      assert [m] + answers == [m];
    }
  }

  /** A query that names itself is answered QUEUED, PROCESSING, then COMPLETED with its listing; then what it asks
      for is sent, unless it asks for identifiers only. Asking for no kind is asking for every kind. */
  lemma QueryTold(home: Home, s: Loop, request: Uuid, kinds: set<Kind>, identifiersOnly: bool)
    requires SoundStore(home.texts, s.store)
    ensures var asked := if kinds == {} then {CapabilityKind, RouteKind, AirfieldKind} else kinds;
      Published(home, s, QueryRequest(Some(request), kinds, identifiersOnly)).log ==
        s.log + [QueryRequest(Some(request), kinds, identifiersOnly)]
        + ([QueryStatus(request, Queued, []), QueryStatus(request, InProgress, []),
            QueryStatus(request, Completed, Listings(home, s.store, asked))]
           + if identifiersOnly then [] else Native(home, s.store, asked))
  {
    var asked := if kinds == {} then EVERY_KIND else kinds;
    QueryHeard(home, s, request, kinds, identifiersOnly);
    QueryAnswered(home, s.(log := s.log + [QueryRequest(Some(request), kinds, identifiersOnly)]), request, asked,
                  identifiersOnly);
  }

  lemma QueryHeard(home: Home, s: Loop, request: Uuid, kinds: set<Kind>, identifiersOnly: bool)
    ensures Published(home, s, QueryRequest(Some(request), kinds, identifiersOnly))
         == QueryHandled(home, s.(log := s.log + [QueryRequest(Some(request), kinds, identifiersOnly)]), request,
                         if kinds == {} then EVERY_KIND else kinds, identifiersOnly)
  {
  }
}
