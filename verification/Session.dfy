/** The Isolator's session: the route, flight-command and failsafe handlers and the tick, over a route
    store, a route execution, a flight session and the in-process backend. Every handler is proved
    equal to a function on the session's value; SessionRuns.dfy proves what those functions keep. */
module Session {
  import opened Options
  import opened Dicts
  import opened Lifecycle
  import opened Routes
  import opened Stub

  // ---- What is published ---------------------------------------------------------------------------

  datatype Ladder = Queued | Processing | Done

  /** `source` on a route execution status is bookkeeping: the message itself does not carry the
      route-sourced command it was published for. */
  datatype Event =
    | CommandStatus(command: Uuid, answer: Answer)
    | ActivityOut(activity: Activity, isNew: bool)
    | SuggestTask(task: Uuid)
    | ActivationStatus(command: Uuid, plan: Uuid, accepted: bool, step: Option<Ladder>, state: PlanState)
    | PlanDeactivated(mission: Uuid, plan: Uuid)
    | ResponseExecution(live: Option<(Uuid, ExecState)>)
    | IdleExecutions  // the three constant activity, route-activity and task outs
    | RouteExecutionStatus(plan: Uuid, exec: ExecState, flight: Option<Uuid>, source: Option<Uuid>)
    | MissionExecutionStatus(mission: Uuid, exec: ExecState)
    | PlanStored(plan: Uuid) | FileLocation(plan: Uuid) | FileMetadata(plan: Uuid)
    | FailsafeNoted(response: Uuid)

  datatype Answer = AnsweredRejected | AnsweredAccepted | AnsweredCanceled | AnsweredTerminal(state: CommandState)

  class Bus {
    var log: seq<Event>

    constructor ()
      ensures log == []
    {
      log := [];
    }

    method Publish(e: Event)
      modifies this
      ensures log == old(log) + [e]
    {
      log := log + [e];
    }
  }

  /** The generator behind new identifiers. */
  class IdSupply {
    var next: nat

    constructor ()
      ensures next == 0
    {
      next := 0;
    }

    method Draw() returns (id: Uuid)
      modifies this
      ensures id == Own(old(next)) && next == old(next) + 1
    {
      id := Own(next);
      next := next + 1;
    }
  }

  // ---- The session as a value ------------------------------------------------------------------------

  /** The failsafe response last heard and not removed since, and the plan it names. */
  datatype FailsafePlan = FailsafePlan(response: Option<Uuid>, plan: Option<Uuid>)

  const NO_FAILSAFE := FailsafePlan(None, None)

  datatype Session = Session(
    store: Store, exec: Execution, flight: Option<Uuid>, core: Core, available: bool, next: nat, log: seq<Event>,
    failsafe: FailsafePlan)

  /** Nothing has happened yet. */
  const FRESH := Session(Dict([], map[]), NO_EXECUTION, None, EMPTY, true, 0, [], NO_FAILSAFE)

  function Say(s: Session, events: seq<Event>): Session {
    s.(log := s.log + events)
  }

  function MissionNews(store: Store, plan: Uuid, exec: ExecState): seq<Event> {
    var stored := Lookup(store, plan);
    if stored.Some? && stored.value.mission.Some? then [MissionExecutionStatus(stored.value.mission.value, exec)]
      else []
  }

  /** The plan-execution family, for the live execution or none. */
  function ExecutionFamily(s: Session): seq<Event> {
    if s.exec.plan.None? || s.exec.state.None? then [ResponseExecution(None), IdleExecutions]
    else
      var plan, exec := s.exec.plan.value, s.exec.state.value;
      [ResponseExecution(Some((plan, exec))), IdleExecutions,
        RouteExecutionStatus(plan, exec, s.flight, s.exec.command)]
      + MissionNews(s.store, plan, exec)
  }

  function WithFamily(s: Session): Session {
    Say(s, ExecutionFamily(s))
  }

  function ActivityNews(core: Core, isNew: bool): seq<Event> {
    if core.activity.Some? then [ActivityOut(core.activity.value, isNew)] else []
  }

  /** The command an activation sends: a NEW when idle, a replacement of the live activity otherwise. */
  function RouteCommand(s: Session, command: Uuid): Request {
    if s.core.Live() then
      Request(command, OfActivity, Replace, Some(if s.flight.Some? then s.flight.value else s.core.activity.value.id),
        true)
    else Request(command, Capability, New, None, true)
  }

  /** The accepted half of an activation: the plan is ACTIVATED and EXECUTING under `command`. */
  function RouteBegun(s: Session, plan: Uuid, command: Uuid, activity: Uuid, isNew: bool): Session {
    var begun := s.(
      store := Committed(s.store, plan, Activated),
      exec := Execution(Some(plan), Some(command), Some(Executing)),
      flight := Some(activity));
    WithFamily(Say(begun, ActivityNews(begun.core, isNew)))
  }

  function ActivateStored(texts: Texts, s: Session, plan: Uuid): (Session, bool) {
    var stored := Lookup(s.store, plan);
    if stored.None? || !texts.flyable(stored.value.xml) then (s, false)
    else
      var r := RouteCommand(s, Own(s.next));
      var outcome := Decide(s.core, s.available, r, Own(s.next + 1));
      var sent := s.(core := Submit(s.core, s.available, r, Own(s.next + 1)), next := s.next + 2);
      if outcome.Started? then (RouteBegun(sent, plan, Own(s.next), outcome.activity, outcome.isNew), true)
      else (sent, false)
  }

  function DeactivateVehicle(s: Session, req: Activation): (Session, bool)
  {
    var idle := s.(store := Committed(s.store, req.plan, Deactivated), exec := NO_EXECUTION, flight := None);
    if s.exec.command.None? then (idle, true)
    else
      var r := Request(s.exec.command.value, Capability, Cancel, None, true);
      var outcome := Decide(s.core, s.available, r, Own(s.next));
      if outcome.Refused? then (s, false)
      else
        var failed := WithFamily(s.(core := Submit(s.core, s.available, r, Own(s.next)),
          exec := s.exec.(state := Some(Aborted))));
        (idle.(core := failed.core, log := failed.log), true)
  }

  function Statuses(req: Activation, result: Result): seq<Event> {
    if !result.accepted || !result.emitPair then
      [ActivationStatus(req.command, req.plan, result.accepted, None, result.state)]
    else
      var mid := if result.progress.Some? then result.progress.value else result.state;
      [ActivationStatus(req.command, req.plan, true, Some(Queued), mid),
       ActivationStatus(req.command, req.plan, true, Some(Processing), mid),
       ActivationStatus(req.command, req.plan, true, Some(Done), result.state)]
  }

  function DeactivationNews(req: Activation, result: Result): seq<Event> {
    if req.kind.Deactivate? && result.accepted && result.state.Deactivated?
      then [PlanDeactivated(req.mission, req.plan)] else []
  }

  /** What one activation command answers, and the session it leaves, before the answer is published. */
  function Decided(texts: Texts, s: Session, req: Activation): (Session, Result)
  {
    var (store, result) := Climb(s.store, req);
    var climbed := s.(store := store);
    if !(result.awaitingVehicle && result.accepted) then (climbed, result)
    else if req.kind.Activate? then
      var (after, ok) := ActivateStored(texts, climbed, req.plan);
      (after, if ok then Result(true, Activated, result.progress, true, false) else Refusal(result.state))
    else
      var (after, ok) := DeactivateVehicle(climbed, req);
      (after, if ok then Result(true, Deactivated, None, false, false) else Refusal(result.state))
  }

  function ActivationHandled(texts: Texts, s: Session, req: Activation): Session
  {
    var (after, result) := Decided(texts, s, req);
    Say(Say(after, Statuses(req, result)), DeactivationNews(req, result))
  }

  function ActivationsHandled(texts: Texts, s: Session, reqs: seq<Activation>, k: nat): Session
    requires k <= |reqs|
  {
    if k == 0 then s else ActivationHandled(texts, ActivationsHandled(texts, s, reqs, k - 1), reqs[k - 1])
  }

  function PlanReceived(texts: Texts, s: Session, xml: string): Session
  {
    var id := texts.planId(xml);
    if id.None? then s
    else
      var stored := s.(store := Ingested(texts, s.store, id.value, xml));
      if Lookup(s.store, id.value).Some? then stored
      else Say(stored, [PlanStored(id.value), FileLocation(id.value), FileMetadata(id.value)])
  }

  /** A failsafe response naming a plan flies it past the ladder. */
  function FailsafeReceived(texts: Texts, s: Session, response: Uuid, plan: Option<Uuid>, removed: bool): Session
  {
    if removed then s.(failsafe := NO_FAILSAFE)
    else
      var noted := s.(failsafe := FailsafePlan(Some(response), plan));
      Say(if plan.Some? then ActivateStored(texts, noted, plan.value).0 else noted, [FailsafeNoted(response)])
  }

  /** A direct flight command; `designated` says the C2 overlay allows its mode, or it has none. */
  datatype FlightCommand = FlightCommand(request: Request, designated: bool)

  /** The Isolator's own gate in front of the backend. */
  predicate Gated(flight: Option<Uuid>, live: bool, cmd: FlightCommand) {
    var r := cmd.request;
    if r.choice.OfActivity? then
      !r.kind.Replace? || r.activity.None? || r.activity != flight || !cmd.designated
    else
      !r.kind.Cancel? && (!cmd.designated || !r.kind.New? || live)
  }

  /** The gate, then the backend. */
  function Sent(s: Session, cmd: FlightCommand): (Session, Outcome) {
    if Gated(s.flight, s.core.Live(), cmd) then (s, Refused(BadPayload))
    else
      (s.(core := Submit(s.core, s.available, cmd.request, Own(s.next)), next := s.next + 1),
       Decide(s.core, s.available, cmd.request, Own(s.next)))
  }

  function Commanded(s: Session, cmd: FlightCommand): Session {
    var (sent, outcome) := Sent(s, cmd);
    Answered(sent, cmd.request.command, outcome)
  }

  function Answered(s: Session, command: Uuid, outcome: Outcome): Session {
    match outcome
    case Refused(_) => Say(s.(next := s.next + 1), [CommandStatus(command, AnsweredRejected), SuggestTask(Own(s.next))])
    case Stopped => Say(s, [CommandStatus(command, AnsweredCanceled)])
    case Started(_, isNew) =>
      Say(s, [CommandStatus(command, AnsweredAccepted)] + ActivityNews(s.core, isNew))
      .(flight := if s.core.activity.Some? then Some(s.core.activity.value.id) else s.flight)
  }

  function CommandedAll(s: Session, cmds: seq<FlightCommand>, k: nat): Session
    requires k <= |cmds|
  {
    if k == 0 then s else Commanded(CommandedAll(s, cmds, k - 1), cmds[k - 1])
  }

  // ---- The tick's three passes over polled terminals ------------------------------------------------

  /** One pass over the first k of the polled terminals. */
  function Pass(each: (Session, Update) -> Session, s: Session, updates: seq<Update>, k: nat): Session
    requires k <= |updates|
  {
    if k == 0 then s else each(Pass(each, s, updates, k - 1), updates[k - 1])
  }

  function Finishing(s: Session, u: Update): Session {
    if s.exec.IsSourced(u.command) && u.state.Completed? then s.(exec := s.exec.(state := Some(Finished))) else s
  }

  function UpdateNews(s: Session, u: Update): seq<Event> {
    var status := if s.exec.IsSourced(u.command) then [] else [CommandStatus(u.command, AnsweredTerminal(u.state))];
    var family := if s.exec.IsSourced(u.command) then ExecutionFamily(s) else [];
    if u.state.Completed? then status + ActivityNews(s.core, false) + family else status
  }

  function Publishing(s: Session, u: Update): Session {
    Say(s, UpdateNews(s, u))
  }

  /** The VI's own abort of the executing route. */
  function Abort(s: Session): Session
  {
    if s.exec.plan.None? then s
    else
      var plan := s.exec.plan.value;
      var stored := Lookup(s.store, plan);
      var failed := WithFamily(s.(exec := s.exec.(state := Some(Aborted))));
      var news := if stored.Some? && stored.value.mission.Some?
        then [PlanDeactivated(stored.value.mission.value, plan)] else [];
      Say(failed, news).(store := Committed(s.store, plan, Deactivated), exec := NO_EXECUTION, flight := None)
  }

  function Aborting(s: Session, u: Update): Session {
    if s.exec.IsSourced(u.command) && (u.state.Failed? || u.state.Canceled?) then Abort(s) else s
  }

  function Clearing(s: Session, u: Update): Session {
    if u.state.Completed? && s.core.activity.Some? && !s.core.activity.value.live then s.(flight := None) else s
  }

  function UpdatesApplied(s: Session): Session
  {
    var updates := s.core.pending;
    var polled := s.(core := s.core.(pending := []));
    var n := |updates|;
    var completed := Pass(Finishing, polled, updates, n);
    var published := Pass(Publishing, completed, updates, n);
    var aborted := Pass(Aborting, published, updates, n);
    Pass(Clearing, aborted, updates, n)
  }

  /** One tick, as far as this session goes: terminals, then the status package if it is enabled. */
  function Ticked(s: Session, package: bool): Session
  {
    if package then WithFamily(UpdatesApplied(s)) else UpdatesApplied(s)
  }

  /** Of the Isolator's own state, the two failsafe fields. */
  class IsolatorState {
    var failsafeResponse: Option<Uuid>
    var failsafeRoute: Option<Uuid>

    constructor ()
      ensures failsafeResponse == None && failsafeRoute == None
    {
      failsafeResponse, failsafeRoute := None, None;
    }
  }

  // ---- The handlers -----------------------------------------------------------------------------------

  class Isolator {
    const routes: RouteStore
    const execution: RouteExecution
    const flight: FlightSession
    const platform: StubPlatform
    const bus: Bus
    const ids: IdSupply
    const state: IsolatorState

    ghost function View(): Session
      reads routes, execution, flight, platform, bus, ids, state
    {
      Session(routes.routes, execution.View(), flight.activityId, platform.Core(), platform.available, ids.next,
        bus.log,
              FailsafePlan(state.failsafeResponse, state.failsafeRoute))
    }

    constructor (texts: Texts)
      ensures routes.texts == texts
      ensures View() == FRESH
      ensures fresh(routes) && fresh(execution) && fresh(flight) && fresh(platform) && fresh(bus)
      ensures fresh(ids) && fresh(state)
    {
      routes := new RouteStore(texts);
      execution := new RouteExecution();
      flight := new FlightSession();
      platform := new StubPlatform();
      bus := new Bus();
      ids := new IdSupply();
      state := new IsolatorState();
    }

    method PublishPlanExecution()
      modifies bus
      ensures View() == WithFamily(old(View()))
    {
      var plan, state := execution.plan, execution.state;
      if plan.None? || state.None? {
        bus.Publish(ResponseExecution(None));
        bus.Publish(IdleExecutions);
        return;
      }
      bus.Publish(ResponseExecution(Some((plan.value, state.value))));
      bus.Publish(IdleExecutions);
      bus.Publish(RouteExecutionStatus(plan.value, state.value, flight.activityId, execution.command));
      var stored := Lookup(routes.routes, plan.value);
      if stored.Some? && stored.value.mission.Some? {
        bus.Publish(MissionExecutionStatus(stored.value.mission.value, state.value));
      }
    }

    method ActivateStoredRoute(plan: Uuid) returns (accepted: bool)
      modifies routes, execution, flight, platform, bus, ids
      ensures (View(), accepted) == ActivateStored(routes.texts, old(View()), plan)
    {
      var stored := Lookup(routes.routes, plan);
      if stored.None? || !routes.texts.flyable(stored.value.xml) {
        return false;
      }
      var command := ids.Draw();
      var activityId := ids.Draw();
      var r := BuildRouteCommand(command);
      assert r == RouteCommand(old(View()), command);
      var outcome := platform.SubmitFlightCommand(r, activityId);
      ghost var sent := old(View()).(core := Lifecycle.Submit(old(View()).core, old(View()).available, r, activityId),
        next := old(ids.next) + 2);
      assert View() == sent;
      if !outcome.Started? {
        return false;
      }
      BeginRoute(plan, command, outcome.activity, outcome.isNew);
      return true;
    }

    method BuildRouteCommand(command: Uuid) returns (r: Request)
      ensures r == RouteCommand(View(), command)
    {
      var live := platform.activity;
      r := Request(command, Capability, New, None, true);
      if live.Some? && live.value.live {
        r := Request(command, OfActivity, Replace, if flight.activityId.Some? then flight.activityId
          else Some(live.value.id), true);
      }
    }

    method BeginRoute(plan: Uuid, command: Uuid, activity: Uuid, isNew: bool)
      modifies routes, execution, flight, bus
      ensures View() == RouteBegun(old(View()), plan, command, activity, isNew)
    {
      routes.Commit(plan, Activated);
      execution.Activate(plan, command);
      flight.Begin(activity);
      if platform.activity.Some? {
        bus.Publish(ActivityOut(platform.activity.value, isNew));
      }
      ghost var begun := old(View()).(store := Committed(old(routes.routes), plan, Activated),
        exec := Execution(Some(plan), Some(command), Some(Executing)), flight := Some(activity));
      assert View() == Say(begun, ActivityNews(begun.core, isNew));
      PublishPlanExecution();
    }

    method DeactivateRoute(req: Activation) returns (accepted: bool)
      modifies routes, execution, flight, platform, bus
      ensures (View(), accepted) == DeactivateVehicle(old(View()), req)
    {
      if execution.command.Some? {
        var outcome := platform.SubmitFlightCommand(Request(execution.command.value, Capability, Cancel, None, true),
          Own(ids.next));
        if outcome.Refused? {
          return false;
        }
        execution.MarkFailed();
        PublishPlanExecution();
      }
      routes.Commit(req.plan, Deactivated);
      execution.Clear();
      flight.Clear();
      return true;
    }

    method PublishStatuses(req: Activation, result: Result)
      modifies bus
      ensures View() == Say(Say(old(View()), Statuses(req, result)), DeactivationNews(req, result))
    {
      if !result.accepted || !result.emitPair {
        bus.Publish(ActivationStatus(req.command, req.plan, result.accepted, None, result.state));
      } else {
        var mid := if result.progress.Some? then result.progress.value else result.state;
        bus.Publish(ActivationStatus(req.command, req.plan, true, Some(Queued), mid));
        bus.Publish(ActivationStatus(req.command, req.plan, true, Some(Processing), mid));
        bus.Publish(ActivationStatus(req.command, req.plan, true, Some(Done), result.state));
      }
      if req.kind.Deactivate? && result.accepted && result.state.Deactivated? {
        bus.Publish(PlanDeactivated(req.mission, req.plan));
      }
    }

    method HandleActivations(reqs: seq<Activation>)
      modifies routes, execution, flight, platform, bus, ids
      ensures View() == ActivationsHandled(routes.texts, old(View()), reqs, |reqs|)
    {
      for i := 0 to |reqs|
        invariant View() == ActivationsHandled(routes.texts, old(View()), reqs, i)
      {
        HandleActivation(reqs[i]);
      }
    }

    method HandleActivation(req: Activation)
      modifies routes, execution, flight, platform, bus, ids
      ensures View() == ActivationHandled(routes.texts, old(View()), req)
    {
      var result := routes.HandleActivation(req);
      if result.awaitingVehicle && result.accepted {
        if req.kind.Activate? {
          var ok := ActivateStoredRoute(req.plan);
          result := if ok then Result(true, Activated, result.progress, true, false) else Refusal(result.state);
        } else if req.kind.Deactivate? {
          var ok := DeactivateRoute(req);
          result := if ok then Result(true, Deactivated, None, false, false) else Refusal(result.state);
        }
      }
      PublishStatuses(req, result);
    }

    method HandleRoutePlan(xml: string)
      modifies routes, bus
      ensures View() == PlanReceived(routes.texts, old(View()), xml)
    {
      var id := routes.texts.planId(xml);
      if id.None? {
        return;
      }
      var already := Lookup(routes.routes, id.value).Some?;
      routes.Ingest(id.value, xml);
      if already {
        return;
      }
      bus.Publish(PlanStored(id.value));
      bus.Publish(FileLocation(id.value));
      bus.Publish(FileMetadata(id.value));
    }

    method HandleFailsafe(response: Uuid, plan: Option<Uuid>, removed: bool)
      modifies routes, execution, flight, platform, bus, ids, state
      ensures View() == FailsafeReceived(routes.texts, old(View()), response, plan, removed)
    {
      if removed {
        state.failsafeResponse, state.failsafeRoute := None, None;
        return;
      }
      state.failsafeResponse, state.failsafeRoute := Some(response), plan;
      assert View() == old(View()).(failsafe := FailsafePlan(Some(response), plan));
      if plan.Some? {
        var _ := ActivateStoredRoute(plan.value);
      }
      bus.Publish(FailsafeNoted(response));
    }

    method HandleFlightCommands(cmds: seq<FlightCommand>)
      modifies flight, platform, bus, ids
      ensures View() == CommandedAll(old(View()), cmds, |cmds|)
    {
      for i := 0 to |cmds|
        invariant View() == CommandedAll(old(View()), cmds, i)
      {
        HandleFlightCommand(cmds[i]);
      }
    }

    method HandleFlightCommand(cmd: FlightCommand)
      modifies flight, platform, bus, ids
      ensures View() == Commanded(old(View()), cmd)
    {
      var outcome := Submit(cmd);
      PublishAnswer(cmd.request.command, outcome);
    }

    method Submit(cmd: FlightCommand) returns (outcome: Outcome)
      modifies platform, ids
      ensures (View(), outcome) == Sent(old(View()), cmd)
    {
      if Gated(flight.activityId, platform.activity.Some? && platform.activity.value.live, cmd) {
        return Refused(BadPayload);
      }
      var nextId := ids.Draw();
      outcome := platform.SubmitFlightCommand(cmd.request, nextId);
    }

    method PublishAnswer(command: Uuid, outcome: Outcome)
      modifies flight, bus, ids
      ensures View() == Answered(old(View()), command, outcome)
    {
      match outcome {
        case Refused(_) =>
          bus.Publish(CommandStatus(command, AnsweredRejected));
          var task := ids.Draw();
          bus.Publish(SuggestTask(task));
        case Stopped =>
          bus.Publish(CommandStatus(command, AnsweredCanceled));
        case Started(_, isNew) =>
          bus.Publish(CommandStatus(command, AnsweredAccepted));
          if platform.activity.Some? {
            bus.Publish(ActivityOut(platform.activity.value, isNew));
            flight.Begin(platform.activity.value.id);
          }
      }
    }

    method AbortExecutingRoute()
      modifies routes, execution, flight, bus
      ensures View() == Abort(old(View()))
    {
      if execution.plan.None? {
        return;
      }
      var plan := execution.plan.value;
      var stored := Lookup(routes.routes, plan);
      execution.MarkFailed();
      PublishPlanExecution();
      assert View() == WithFamily(old(View()).(exec := old(View()).exec.(state := Some(Aborted))));
      routes.Commit(plan, Deactivated);
      if stored.Some? && stored.value.mission.Some? {
        bus.Publish(PlanDeactivated(stored.value.mission.value, plan));
      }
      execution.Clear();
      flight.Clear();
    }

    method PublishUpdate(u: Update)
      modifies bus
      ensures View() == Publishing(old(View()), u)
    {
      var routeSourced := execution.command == Some(u.command);
      if !routeSourced {
        bus.Publish(CommandStatus(u.command, AnsweredTerminal(u.state)));
      }
      if !u.state.Completed? {
        return;
      }
      if platform.activity.Some? {
        bus.Publish(ActivityOut(platform.activity.value, false));
      }
      if routeSourced {
        assert ExecutionFamily(View()) == ExecutionFamily(old(View()));
        PublishPlanExecution();
      }
    }

    method CompleteSourced(updates: seq<Update>)
      modifies execution
      ensures View() == Pass(Finishing, old(View()), updates, |updates|)
    {
      for i := 0 to |updates|
        invariant View() == Pass(Finishing, old(View()), updates, i)
      {
        if execution.command == Some(updates[i].command) && updates[i].state.Completed? {
          execution.Complete();
        }
      }
    }

    method PublishUpdates(updates: seq<Update>)
      modifies bus
      ensures View() == Pass(Publishing, old(View()), updates, |updates|)
    {
      for i := 0 to |updates|
        invariant View() == Pass(Publishing, old(View()), updates, i)
      {
        PublishUpdate(updates[i]);
      }
    }

    method AbortSourced(updates: seq<Update>)
      modifies routes, execution, flight, bus
      ensures View() == Pass(Aborting, old(View()), updates, |updates|)
    {
      for i := 0 to |updates|
        invariant View() == Pass(Aborting, old(View()), updates, i)
      {
        if execution.command == Some(updates[i].command) && (updates[i].state.Failed? || updates[i].state.Canceled?) {
          AbortExecutingRoute();
        }
      }
    }

    method ClearFinished(updates: seq<Update>)
      modifies flight
      ensures View() == Pass(Clearing, old(View()), updates, |updates|)
    {
      for i := 0 to |updates|
        invariant View() == Pass(Clearing, old(View()), updates, i)
      {
        if updates[i].state.Completed? && platform.activity.Some? && !platform.activity.value.live {
          flight.Clear();
        }
      }
    }

    method PublishCommandUpdates()
      modifies routes, execution, flight, platform, bus
      ensures View() == UpdatesApplied(old(View()))
    {
      var updates := platform.PollCommandUpdates();
      CompleteSourced(updates);
      PublishUpdates(updates);
      AbortSourced(updates);
      ClearFinished(updates);
    }

    method Tick(package: bool)
      modifies routes, execution, flight, platform, bus
      ensures View() == Ticked(old(View()), package)
    {
      PublishCommandUpdates();
      if package {
        PublishPlanExecution();
      }
    }
  }
}
