/** The route ladder and retained plan text, `isolator/routes.py`, with the two small session objects
    beside it, `isolator/execution.py` and `isolator/flight.py`. */
module Routes {
  import opened Options
  import opened Dicts

  datatype PlanState =
    | Inactive | ReadyForUpload | Uploaded | ReadyForActivation | Activated | Deactivated
    | PreparingForUpload | Uploading | PreparingForActivation | Activating

  datatype CommandType = PrepareForUpload | Upload | PrepareForActivation | Activate | Deactivate | UnknownType

  /** What is read out of a plan's text: its sha256, its RoutePlanID, and whether its waypoints parse
      to a non-empty path of finite points. All three are plain functions of the text. */
  datatype Texts = Texts(digest: string -> string, planId: string -> Option<Uuid>, flyable: string -> bool)

  datatype Record = Record(mission: Option<Uuid>, state: PlanState, xml: Option<string>, digest: Option<string>)

  const NEW_RECORD := Record(None, Inactive, None, None)

  type Store = Dict<Uuid, Record>

  datatype Stored = Stored(xml: string, digest: string, mission: Option<Uuid>, state: PlanState)

  datatype Activation = Activation(command: Uuid, mission: Uuid, plan: Uuid, kind: CommandType)

  datatype Result = Result(accepted: bool, state: PlanState, progress: Option<PlanState>, emitPair: bool,
    awaitingVehicle: bool)

  function Refusal(state: PlanState): Result { Result(false, state, None, false, false) }

  /** One row of the transition table; `None` among the from-states is a plan not in the store. */
  datatype Rung = Rung(from: set<Option<PlanState>>, mid: Option<PlanState>, terminal: PlanState, emitPair: bool)

  function Table(kind: CommandType): Option<Rung> {
    match kind
    case PrepareForUpload =>
      Some(Rung({None, Some(Inactive), Some(Deactivated), Some(ReadyForUpload)}, Some(PreparingForUpload),
        ReadyForUpload, true))
    case Upload => Some(Rung({Some(ReadyForUpload)}, Some(Uploading), Uploaded, true))
    case PrepareForActivation => Some(Rung({Some(Uploaded)}, Some(PreparingForActivation), ReadyForActivation, true))
    case Activate => Some(Rung({Some(ReadyForActivation)}, Some(Activating), Activated, true))
    case Deactivate => Some(Rung({Some(ReadyForActivation), Some(Activated)}, None, Deactivated, false))
    case UnknownType => None
  }

  function StateOf(store: Store, plan: Uuid): Option<PlanState> {
    if plan in store.at then Some(store.at[plan].state) else None
  }

  function XmlOf(store: Store, plan: Uuid): Option<string> {
    if plan in store.at then store.at[plan].xml else None
  }

  /** A plan the store can hand out: text and digest both present. */
  function Lookup(store: Store, plan: Uuid): Option<Stored> {
    if plan in store.at && store.at[plan].xml.Some? && store.at[plan].digest.Some?
    then Some(Stored(store.at[plan].xml.value, store.at[plan].digest.value, store.at[plan].mission,
      store.at[plan].state))
    else None
  }

  /** Those of the first k stored plans that can be handed out. */
  function Listed(store: Store, k: nat): seq<Uuid>
    requires k <= |store.keys|
  {
    if k == 0 then [] else
      Listed(store, k - 1) + if Lookup(store, store.keys[k - 1]).Some? then [store.keys[k - 1]] else []
  }

  lemma {:induction false} ListedExactly(store: Store, k: nat)
    requires store.Valid() && k <= |store.keys|
    ensures forall id :: id in Listed(store, k) <==> id in store.keys[..k] && Lookup(store, id).Some?
    ensures forall i, j :: 0 <= i < j < |Listed(store, k)| ==> Listed(store, k)[i] != Listed(store, k)[j]
  {
    if k == 0 {
    } else {
      ListedExactly(store, k - 1);
      assert store.keys[..k] == store.keys[..k - 1] + [store.keys[k - 1]];
      assert store.keys[k - 1] !in store.keys[..k - 1];
    }
  }

  function Ingested(texts: Texts, store: Store, plan: Uuid, xml: string): Store
  {
    var record := if plan in store.at then store.at[plan] else NEW_RECORD;
    store.Put(plan, record.(
      xml := Some(xml), digest := Some(texts.digest(xml)),
      state := if record.state.Inactive? || record.state.Deactivated? then ReadyForUpload else record.state))
  }

  function Committed(store: Store, plan: Uuid, terminal: PlanState): Store
  {
    if plan in store.at then store.Put(plan, store.at[plan].(state := terminal)) else store
  }

  /** Accepting or refusing one ladder command; the two that need the vehicle leave the state alone. */
  function Climb(store: Store, req: Activation): (Store, Result)
  {
    var rung := Table(req.kind);
    var current := StateOf(store, req.plan);
    var shown := if current.Some? then current.value else Inactive;
    if rung.None? then (store, Refusal(Inactive))
    else if current !in rung.value.from then (store, Refusal(shown))
    else if (req.kind.Upload? || req.kind.Activate?) && XmlOf(store, req.plan).None? then (store, Refusal(shown))
    else
      var record := (if current.Some? then store.at[req.plan] else NEW_RECORD).(mission := Some(req.mission));
      if req.kind.Activate? then
        (store.Put(req.plan, record), Result(true, record.state, rung.value.mid, true, true))
      else if req.kind.Deactivate? && record.state.Activated? then
        (store.Put(req.plan, record), Result(true, record.state, None, false, true))
      else
        (store.Put(req.plan, record.(state := rung.value.terminal)),
         Result(true, rung.value.terminal, rung.value.mid, rung.value.emitPair, false))
  }

  class RouteStore {
    const texts: Texts
    var routes: Store

    constructor (texts: Texts)
      ensures this.texts == texts && routes == Dict([], map[])
    {
      this.texts := texts;
      routes := Dict([], map[]);
    }

    method Ingest(plan: Uuid, xml: string)
      modifies this
      ensures routes == Ingested(texts, old(routes), plan, xml)
    {
      var digest := texts.digest(xml);
      var record := if plan in routes.at then routes.at[plan] else NEW_RECORD;
      record := record.(xml := Some(xml), digest := Some(digest));
      if record.state.Inactive? || record.state.Deactivated? {
        record := record.(state := ReadyForUpload);
      }
      routes := routes.Put(plan, record);
    }

    /** Ids of the plans that can be handed out, in the order they were first stored. */
    method IngestedIds() returns (ids: seq<Uuid>)
      ensures ids == Listed(routes, |routes.keys|)
    {
      ids := [];
      for i := 0 to |routes.keys|
        invariant ids == Listed(routes, i)
      {
        if Lookup(routes, routes.keys[i]).Some? {
          ids := ids + [routes.keys[i]];
        }
      }
    }

    method HandleActivation(req: Activation) returns (result: Result)
      modifies this
      ensures (routes, result) == Climb(old(routes), req)
    {
      var rung := Table(req.kind);
      if rung.None? {
        return Refusal(Inactive);
      }
      var known := req.plan in routes.at;
      var current := if known then Some(routes.at[req.plan].state) else None;
      if current !in rung.value.from {
        return Refusal(if known then current.value else Inactive);
      }
      if (req.kind.Upload? || req.kind.Activate?) && (!known || routes.at[req.plan].xml.None?) {
        return Refusal(if known then current.value else Inactive);
      }
      var record := if known then routes.at[req.plan] else NEW_RECORD;
      record := record.(mission := Some(req.mission));
      if req.kind.Activate? {
        routes := routes.Put(req.plan, record);
        return Result(true, record.state, rung.value.mid, true, true);
      }
      if req.kind.Deactivate? && record.state.Activated? {
        routes := routes.Put(req.plan, record);
        return Result(true, record.state, None, false, true);
      }
      routes := routes.Put(req.plan, record.(state := rung.value.terminal));
      return Result(true, rung.value.terminal, rung.value.mid, rung.value.emitPair, false);
    }

    method Commit(plan: Uuid, terminal: PlanState)
      modifies this
      ensures routes == Committed(old(routes), plan, terminal)
    {
      if plan !in routes.at {
        return;
      }
      routes := routes.Put(plan, routes.at[plan].(state := terminal));
    }
  }

  // ---- What the store keeps ------------------------------------------------------------------------

  /** Between commands a record is on a rung, never in a mid-state or INACTIVE; every rung but the
      first has text; and text comes with its own digest and its own plan id. */
  ghost predicate SoundRecord(texts: Texts, plan: Uuid, r: Record) {
    && (r.state.ReadyForUpload? || r.state.Uploaded? || r.state.ReadyForActivation? || r.state.Activated? ||
      r.state.Deactivated?)
    && (!r.state.ReadyForUpload? ==> r.xml.Some?)
    && (r.xml.Some? <==> r.digest.Some?)
    && (r.xml.Some? ==> r.digest == Some(texts.digest(r.xml.value)) && texts.planId(r.xml.value) == Some(plan))
  }

  ghost predicate SoundStore(texts: Texts, store: Store) {
    store.Valid() && forall plan :: plan in store.at ==> SoundRecord(texts, plan, store.at[plan])
  }

  lemma IngestKeepsSound(texts: Texts, store: Store, plan: Uuid, xml: string)
    requires SoundStore(texts, store) && texts.planId(xml) == Some(plan)
    ensures SoundStore(texts, Ingested(texts, store, plan, xml))
  {
  }

  lemma ClimbKeepsSound(texts: Texts, store: Store, req: Activation)
    requires SoundStore(texts, store)
    ensures SoundStore(texts, Climb(store, req).0)
  {
    var store' := Climb(store, req).0;
    if store' != store {
      assert req.plan in store.at ==> SoundRecord(texts, req.plan, store.at[req.plan]);
      assert SoundRecord(texts, req.plan, store'.at[req.plan]);
      assert store' == store.Put(req.plan, store'.at[req.plan]);
    }
  }

  lemma CommitKeepsSound(texts: Texts, store: Store, plan: Uuid, terminal: PlanState)
    requires SoundStore(texts, store) && (terminal.Activated? || terminal.Deactivated?)
    requires XmlOf(store, plan).Some?
    ensures SoundStore(texts, Committed(store, plan, terminal))
  {
  }

  class RouteExecution {
    var plan: Option<Uuid>
    var command: Option<Uuid>
    var state: Option<ExecState>

    function View(): Execution
      reads this
    {
      Execution(plan, command, state)
    }

    constructor ()
      ensures View() == NO_EXECUTION
    {
      plan, command, state := None, None, None;
    }

    method Activate(planId: Uuid, commandId: Uuid)
      modifies this
      ensures View() == Execution(Some(planId), Some(commandId), Some(Executing))
    {
      plan, command, state := Some(planId), Some(commandId), Some(Executing);
    }

    method Complete()
      modifies this`state
      ensures View() == old(View()).(state := Some(Finished))
    {
      state := Some(Finished);
    }

    method MarkFailed()
      modifies this`state
      ensures View() == old(View()).(state := Some(Aborted))
    {
      state := Some(Aborted);
    }

    method Clear()
      modifies this
      ensures View() == NO_EXECUTION
    {
      plan, command, state := None, None, None;
    }
  }

  /** EXECUTING, COMPLETED, FAILED. */
  datatype ExecState = Executing | Finished | Aborted

  datatype Execution = Execution(plan: Option<Uuid>, command: Option<Uuid>, state: Option<ExecState>) {
    predicate IsSourced(id: Uuid) { command == Some(id) }
  }

  const NO_EXECUTION := Execution(None, None, None)

  class FlightSession {
    var activityId: Option<Uuid>

    constructor ()
      ensures activityId == None
    {
      activityId := None;
    }

    method Begin(id: Uuid)
      modifies this
      ensures activityId == Some(id)
    {
      activityId := Some(id);
    }

    method Clear()
      modifies this
      ensures activityId == None
    {
      activityId := None;
    }
  }
}
