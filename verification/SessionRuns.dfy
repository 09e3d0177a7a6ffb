/** What holds over every run of the session: inbound commands, plans and failsafe responses, backend
    terminals, readiness changes and ticks, in any order. */
module SessionRuns {
  import opened Options
  import opened Dicts
  import opened Lifecycle
  import opened Routes
  import opened Stub
  import opened Session

  datatype Step =
    | Command(cmd: FlightCommand)
    | Activate(req: Activation)
    | PlanText(xml: string)
    | Failsafe(response: Uuid, plan: Option<Uuid>, removed: bool)
    | BackendCompletes(command: Uuid)
    | BackendFails(command: Uuid, canceled: bool)
    | Readiness(available: bool)
    | Tick(package: bool)

  function Next(texts: Texts, s: Session, step: Step): Session {
    match step
    case Command(cmd) => Commanded(s, cmd)
    case Activate(req) => ActivationHandled(texts, s, req)
    case PlanText(xml) => PlanReceived(texts, s, xml)
    case Failsafe(response, plan, removed) => FailsafeReceived(texts, s, response, plan, removed)
    case BackendCompletes(command) => s.(core := Complete(s.core, command))
    case BackendFails(command, canceled) =>
      s.(core := Fail(s.core, command, if canceled then Canceled else Failed, None))
    case Readiness(available) => s.(available := available)
    case Tick(package) => Ticked(s, package)
  }

  /** The running Isolator takes exactly these steps. */
  method Perform(isolator: Isolator, step: Step)
    modifies isolator.routes, isolator.execution, isolator.flight, isolator.platform, isolator.bus, isolator.ids,
      isolator.state
    ensures isolator.View() == Next(isolator.routes.texts, old(isolator.View()), step)
  {
    match step {
      case Command(cmd) => isolator.HandleFlightCommand(cmd);
      case Activate(req) => isolator.HandleActivation(req);
      case PlanText(xml) => isolator.HandleRoutePlan(xml);
      case Failsafe(response, plan, removed) => isolator.HandleFailsafe(response, plan, removed);
      case BackendCompletes(command) => var _ := isolator.platform.CompleteFlightCommand(Some(command));
      case BackendFails(command, canceled) =>
        var _ := isolator.platform.FailFlightCommand(Some(command), if canceled then Canceled else Failed);
      case Readiness(available) => isolator.platform.SetReadiness(available);
      case Tick(package) => isolator.Tick(package);
    }
  }

  /** What is done for the first k steps, one after another. */
  function Stepped(texts: Texts, s: Session, steps: seq<Step>, k: nat): Session
    requires k <= |steps|
  {
    if k == 0 then s else Next(texts, Stepped(texts, s, steps, k - 1), steps[k - 1])
  }

  function EachActivated(reqs: seq<Activation>): seq<Step> {
    seq(|reqs|, i requires 0 <= i < |reqs| => Step.Activate(reqs[i]))
  }

  function EachCommanded(cmds: seq<FlightCommand>): seq<Step> {
    seq(|cmds|, i requires 0 <= i < |cmds| => Command(cmds[i]))
  }

  /** A message of several activation commands is that many steps. */
  lemma {:induction false} ActivationsAreSteps(texts: Texts, s: Session, reqs: seq<Activation>, k: nat)
    requires k <= |reqs|
    ensures ActivationsHandled(texts, s, reqs, k) == Stepped(texts, s, EachActivated(reqs), k)
  {
    if k == 0 {
    } else {
      ActivationsAreSteps(texts, s, reqs, k - 1);
    }
  }

  /** And so is a message of several flight commands. */
  lemma {:induction false} CommandsAreSteps(texts: Texts, s: Session, cmds: seq<FlightCommand>, k: nat)
    requires k <= |cmds|
    ensures CommandedAll(s, cmds, k) == Stepped(texts, s, EachCommanded(cmds), k)
  {
    if k == 0 {
    } else {
      CommandsAreSteps(texts, s, cmds, k - 1);
      assert Next(texts, Stepped(texts, s, EachCommanded(cmds), k - 1), EachCommanded(cmds)[k - 1])
          == Commanded(Stepped(texts, s, EachCommanded(cmds), k - 1), cmds[k - 1]);
    }
  }

  datatype Inbound = Activations(reqs: seq<Activation>) | FlightCommands(cmds: seq<FlightCommand>)

  function StepsOf(m: Inbound): seq<Step> {
    match m
    case Activations(reqs) => EachActivated(reqs)
    case FlightCommands(cmds) => EachCommanded(cmds)
  }

  /** The running Isolator takes a message of several commands as exactly those steps in that order. */
  method PerformMessage(isolator: Isolator, m: Inbound)
    modifies isolator.routes, isolator.execution, isolator.flight, isolator.platform, isolator.bus, isolator.ids
    ensures isolator.View() == Stepped(isolator.routes.texts, old(isolator.View()), StepsOf(m), |StepsOf(m)|)
  {
    ghost var before, texts := isolator.View(), isolator.routes.texts;
    match m {
      case Activations(reqs) =>
        isolator.HandleActivations(reqs);
        ActivationsAreSteps(texts, before, reqs, |reqs|);
      case FlightCommands(cmds) =>
        isolator.HandleFlightCommands(cmds);
        CommandsAreSteps(texts, before, cmds, |cmds|);
    }
  }

  /** Nothing has happened yet; home plans may already be stored, waiting for upload. */
  ghost predicate Init(texts: Texts, s: Session) {
    && SoundStore(texts, s.store) && (forall plan :: plan in s.store.at ==> s.store.at[plan].state.ReadyForUpload?)
    && s == FRESH.(store := s.store, available := s.available, next := s.next)
  }

  ghost predicate Run(texts: Texts, states: seq<Session>, steps: seq<Step>) {
    && |states| == |steps| + 1
    && Init(texts, states[0])
    && forall i :: 0 <= i < |steps| ==> states[i + 1] == Next(texts, states[i], steps[i])
  }

  // ---- Agreement of the four objects ---------------------------------------------------------------

  /** All three fields of the execution are set or none is; its state is never FAILED between steps;
      its plan is ACTIVATED with its text in the store; its command is known to the backend. */
  ghost predicate ExecutionAgrees(s: Session) {
    && (s.exec.plan.Some? <==> s.exec.command.Some?) && (s.exec.plan.Some? <==> s.exec.state.Some?)
    && s.exec.state != Some(Aborted)
    && (s.exec.plan.Some? ==>
          StateOf(s.store, s.exec.plan.value) == Some(Activated) && XmlOf(s.store, s.exec.plan.value).Some?)
    && (s.exec.command.Some? ==> s.exec.command.value in s.core.commands)
  }

  /** When the flight session and the backend both hold an activity it is the same one. */
  ghost predicate FlightAgrees(s: Session) {
    s.flight.Some? && s.core.activity.Some? ==> s.flight.value == s.core.activity.value.id
  }

  ghost predicate Agrees(texts: Texts, s: Session) {
    SoundStore(texts, s.store) && ExecutionAgrees(s) && FlightAgrees(s)
  }

  lemma ActivateStoredKeeps(texts: Texts, s: Session, plan: Uuid)
    requires Agrees(texts, s)
    ensures Agrees(texts, ActivateStored(texts, s, plan).0)
  {
    var (x, ok) := ActivateStored(texts, s, plan);
    if ok {
      CommitKeepsSound(texts, s.store, plan, Activated);
      assert x.store == Committed(s.store, plan, Activated);
      assert x.exec == Execution(Some(plan), Some(Own(s.next)), Some(Executing)) && Own(s.next) in x.core.commands;
    } else {
      assert x == s.(next := x.next);
    }
  }

  lemma DeactivateVehicleKeeps(texts: Texts, s: Session, req: Activation)
    requires Agrees(texts, s) && XmlOf(s.store, req.plan).Some?
    ensures Agrees(texts, DeactivateVehicle(s, req).0)
  {
    CommitKeepsSound(texts, s.store, req.plan, Deactivated);
  }

  lemma ClimbPutsOne(store: Store, req: Activation)
    ensures var store' := Climb(store, req).0;
      store' == store || (req.plan in store'.at && store'.at == store.at[req.plan := store'.at[req.plan]])
  {
  }

  lemma ClimbSparesOthers(store: Store, req: Activation, plan: Uuid)
    requires plan != req.plan
    ensures StateOf(Climb(store, req).0, plan) == StateOf(store, plan)
    ensures XmlOf(Climb(store, req).0, plan) == XmlOf(store, plan)
  {
    ClimbPutsOne(store, req);
  }

  lemma ClimbKeepsText(store: Store, req: Activation)
    ensures XmlOf(Climb(store, req).0, req.plan) == XmlOf(store, req.plan)
  {
  }

  lemma ClimbKeepsActivated(store: Store, req: Activation)
    requires StateOf(store, req.plan) == Some(Activated)
    ensures StateOf(Climb(store, req).0, req.plan) == Some(Activated)
  {
  }

  /** Climbing changes at most the plan it names, and never moves an ACTIVATED plan or drops text. */
  lemma ClimbFrame(store: Store, req: Activation)
    ensures forall plan :: plan != req.plan ==>
      StateOf(Climb(store, req).0, plan) == StateOf(store, plan) &&
        XmlOf(Climb(store, req).0, plan) == XmlOf(store, plan)
    ensures XmlOf(Climb(store, req).0, req.plan) == XmlOf(store, req.plan)
    ensures StateOf(store, req.plan) == Some(Activated) ==> StateOf(Climb(store, req).0, req.plan) == Some(Activated)
  {
    forall plan | plan != req.plan
      ensures StateOf(Climb(store, req).0, plan) == StateOf(store, plan) &&
        XmlOf(Climb(store, req).0, plan) == XmlOf(store, plan)
    {
      ClimbSparesOthers(store, req, plan);
    }
    ClimbKeepsText(store, req);
    if StateOf(store, req.plan) == Some(Activated) {
      ClimbKeepsActivated(store, req);
    }
  }

  lemma DecidedKeeps(texts: Texts, s: Session, req: Activation)
    requires Agrees(texts, s)
    ensures Agrees(texts, Decided(texts, s, req).0)
  {
    var (store, result) := Climb(s.store, req);
    ClimbKeepsSound(texts, s.store, req);
    ClimbFrame(s.store, req);
    var climbed := s.(store := store);
    assert Agrees(texts, climbed);
    if result.awaitingVehicle && result.accepted {
      if req.kind.Activate? {
        ActivateStoredKeeps(texts, climbed, req.plan);
      } else {
        assert req.plan in s.store.at && s.store.at[req.plan].state.Activated?;
        DeactivateVehicleKeeps(texts, climbed, req);
      }
    }
  }

  lemma PlanReceivedKeeps(texts: Texts, s: Session, xml: string)
    requires Agrees(texts, s)
    ensures Agrees(texts, PlanReceived(texts, s, xml))
  {
    var id := texts.planId(xml);
    if id.Some? {
      IngestKeepsSound(texts, s.store, id.value, xml);
      IngestKeepsActivated(texts, s, id.value, xml);
      assert PlanReceived(texts, s, xml).store == Ingested(texts, s.store, id.value, xml);
    }
  }

  lemma IngestKeepsActivated(texts: Texts, s: Session, plan: Uuid, xml: string)
    requires ExecutionAgrees(s)
    ensures ExecutionAgrees(s.(store := Ingested(texts, s.store, plan, xml)))
  {
  }

  lemma CommandedKeeps(texts: Texts, s: Session, cmd: FlightCommand)
    requires Agrees(texts, s)
    ensures Agrees(texts, Commanded(s, cmd))
  {
  }

  /** What every update keeps, a pass keeps. */
  lemma {:induction false} PassKeeps(inv: Session -> bool, each: (Session, Update) -> Session, s: Session,
    updates: seq<Update>, k: nat)
    requires inv(s) && k <= |updates| && forall x, u :: inv(x) ==> inv(each(x, u))
    ensures inv(Pass(each, s, updates, k))
  {
    if k == 0 {
    } else {
      PassKeeps(inv, each, s, updates, k - 1);
    }
  }

  lemma AbortKeeps(texts: Texts, s: Session)
    requires Agrees(texts, s)
    ensures Agrees(texts, Abort(s))
  {
    if s.exec.plan.Some? {
      CommitKeepsSound(texts, s.store, s.exec.plan.value, Deactivated);
    }
  }

  /** One update in each of the four passes. */
  lemma EachPassKeeps(texts: Texts, s: Session, u: Update)
    requires Agrees(texts, s)
    ensures Agrees(texts, Finishing(s, u)) && Agrees(texts, Publishing(s, u))
    ensures Agrees(texts, Aborting(s, u)) && Agrees(texts, Clearing(s, u))
  {
    AbortKeeps(texts, s);
  }

  /** What each of the four passes keeps, polling and applying every terminal keeps. */
  lemma UpdatesAppliedKeep(inv: Session -> bool, s: Session)
    requires inv(s.(core := s.core.(pending := [])))
    requires forall x, u :: inv(x) ==>
      inv(Finishing(x, u)) && inv(Publishing(x, u)) && inv(Aborting(x, u)) && inv(Clearing(x, u))
    ensures inv(UpdatesApplied(s))
  {
    var updates, n := s.core.pending, |s.core.pending|;
    var polled := s.(core := s.core.(pending := []));
    PassKeeps(inv, Finishing, polled, updates, n);
    var finished := Pass(Finishing, polled, updates, n);
    PassKeeps(inv, Publishing, finished, updates, n);
    var published := Pass(Publishing, finished, updates, n);
    PassKeeps(inv, Aborting, published, updates, n);
    PassKeeps(inv, Clearing, Pass(Aborting, published, updates, n), updates, n);
  }

  lemma NextKeepsAgreement(texts: Texts, s: Session, step: Step)
    requires Agrees(texts, s)
    ensures Agrees(texts, Next(texts, s, step))
  {
    match step {
      case Command(cmd) => CommandedKeeps(texts, s, cmd);
      case Activate(req) => DecidedKeeps(texts, s, req);
      case PlanText(xml) => PlanReceivedKeeps(texts, s, xml);
      case Failsafe(response, plan, _) =>
        if plan.Some? {
          ActivateStoredKeeps(texts, s.(failsafe := FailsafePlan(Some(response), plan)), plan.value);
        }
      case Tick(_) =>
        var inv := x => Agrees(texts, x);
        forall x, u | inv(x)
          ensures inv(Finishing(x, u)) && inv(Publishing(x, u)) && inv(Aborting(x, u)) && inv(Clearing(x, u))
        {
          EachPassKeeps(texts, x, u);
        }
        UpdatesAppliedKeep(inv, s);
        assert inv(UpdatesApplied(s));
      case _ =>
    }
  }

  /** The agreement holds at every point of every run. */
  lemma {:induction false} AlwaysAgrees(texts: Texts, states: seq<Session>, steps: seq<Step>, k: nat)
    requires Run(texts, states, steps) && k < |states|
    ensures Agrees(texts, states[k])
  {
    if k == 0 {
    } else {
      AlwaysAgrees(texts, states, steps, k - 1);
      NextKeepsAgreement(texts, states[k - 1], steps[k - 1]);
    }
  }

  // ---- Retained text --------------------------------------------------------------------------------------

  lemma ActivateStoredFrame(texts: Texts, s: Session, flown: Uuid, plan: Uuid)
    ensures XmlOf(ActivateStored(texts, s, flown).0.store, plan) == XmlOf(s.store, plan)
    ensures plan != flown ==> StateOf(ActivateStored(texts, s, flown).0.store, plan) == StateOf(s.store, plan)
    ensures ActivateStored(texts, s, flown).1 ==>
      StateOf(ActivateStored(texts, s, flown).0.store, flown) == Some(Activated)
  {
  }

  lemma DeactivateFrame(s: Session, req: Activation, plan: Uuid)
    ensures XmlOf(DeactivateVehicle(s, req).0.store, plan) == XmlOf(s.store, plan)
    ensures plan != req.plan ==> StateOf(DeactivateVehicle(s, req).0.store, plan) == StateOf(s.store, plan)
    ensures DeactivateVehicle(s, req).1 && req.plan in s.store.at ==>
      StateOf(DeactivateVehicle(s, req).0.store, req.plan) == Some(Deactivated)
  {
  }

  lemma DecidedFrame(texts: Texts, s: Session, req: Activation, plan: Uuid)
    ensures XmlOf(Decided(texts, s, req).0.store, plan) == XmlOf(s.store, plan)
    ensures plan != req.plan ==> StateOf(Decided(texts, s, req).0.store, plan) == StateOf(s.store, plan)
  {
    ClimbFrame(s.store, req);
    var climbed := s.(store := Climb(s.store, req).0);
    ActivateStoredFrame(texts, climbed, req.plan, plan);
    DeactivateFrame(climbed, req, plan);
  }

  lemma AbortFrame(s: Session, plan: Uuid)
    ensures XmlOf(Abort(s).store, plan) == XmlOf(s.store, plan)
    ensures StateOf(Abort(s).store, plan) == StateOf(s.store, plan) ||
      StateOf(Abort(s).store, plan) == Some(Deactivated)
  {
  }

  lemma TickedText(s: Session, package: bool, plan: Uuid)
    ensures XmlOf(Ticked(s, package).store, plan) == XmlOf(s.store, plan)
  {
    var inv := (x: Session) => XmlOf(x.store, plan) == XmlOf(s.store, plan);
    forall x, u | inv(x)
      ensures inv(Finishing(x, u)) && inv(Publishing(x, u)) && inv(Aborting(x, u)) && inv(Clearing(x, u))
    {
      AbortFrame(x, plan);
    }
    UpdatesAppliedKeep(inv, s);
  }

  /** A plan's text changes only when a message carrying that plan arrives, and then to that message. */
  lemma TextAfterStep(texts: Texts, s: Session, step: Step, plan: Uuid)
    ensures XmlOf(Next(texts, s, step).store, plan) ==
      if step.PlanText? && texts.planId(step.xml) == Some(plan) then Some(step.xml) else XmlOf(s.store, plan)
  {
    match step {
      case Activate(req) => DecidedFrame(texts, s, req, plan);
      case Tick(package) => TickedText(s, package, plan);
      case Failsafe(response, flown, _) =>
        if flown.Some? {
          ActivateStoredFrame(texts, s.(failsafe := FailsafePlan(Some(response), flown)), flown.value, plan);
        }
      case _ =>
    }
  }

  /** Text once retained is never lost. */
  lemma {:induction false} TextNeverLost(texts: Texts, states: seq<Session>, steps: seq<Step>, j: nat, k: nat,
    plan: Uuid)
    requires Run(texts, states, steps) && j <= k < |states|
    ensures XmlOf(states[j].store, plan).Some? ==> XmlOf(states[k].store, plan).Some?
  {
    if j < k {
      TextNeverLost(texts, states, steps, j, k - 1, plan);
      TextAfterStep(texts, states[k - 1], steps[k - 1], plan);
    }
  }

  /** Whatever plan is handed out carries its own digest and its own id: the query's digest check never
      fails, and the stored text sent back is that plan's again. */
  lemma HandedOutGenuine(texts: Texts, states: seq<Session>, steps: seq<Step>, k: nat, plan: Uuid)
    requires Run(texts, states, steps) && k < |states| && Lookup(states[k].store, plan).Some?
    ensures var stored := Lookup(states[k].store, plan).value;
      stored.digest == texts.digest(stored.xml) && texts.planId(stored.xml) == Some(plan)
  {
    AlwaysAgrees(texts, states, steps, k);
    assert SoundRecord(texts, plan, states[k].store.at[plan]);
  }

  // ---- What a step publishes --------------------------------------------------------------------------------

  lemma SayExtends(s: Session, events: seq<Event>)
    ensures s.log <= Say(s, events).log
  {
  }

  lemma ActivateExtendsLog(texts: Texts, s: Session, plan: Uuid)
    ensures s.log <= ActivateStored(texts, s, plan).0.log
  {
  }

  lemma DeactivateExtendsLog(s: Session, req: Activation)
    ensures s.log <= DeactivateVehicle(s, req).0.log
  {
  }

  lemma ActivationExtendsLog(texts: Texts, s: Session, req: Activation)
    ensures s.log <= ActivationHandled(texts, s, req).log
  {
    var climbed := s.(store := Climb(s.store, req).0);
    ActivateExtendsLog(texts, climbed, req.plan);
    DeactivateExtendsLog(climbed, req);
    var (after, result) := Decided(texts, s, req);
    assert s.log <= after.log;
    SayExtends(after, Statuses(req, result));
    SayExtends(Say(after, Statuses(req, result)), DeactivationNews(req, result));
  }

  lemma AbortExtendsLog(s: Session)
    ensures s.log <= Abort(s).log
  {
  }

  lemma TickedExtendsLog(s: Session, package: bool)
    ensures s.log <= Ticked(s, package).log
  {
    var inv := (x: Session) => s.log <= x.log;
    forall x, u | inv(x)
      ensures inv(Finishing(x, u)) && inv(Publishing(x, u)) && inv(Aborting(x, u)) && inv(Clearing(x, u))
    {
      SayExtends(x, UpdateNews(x, u));
      AbortExtendsLog(x);
    }
    UpdatesAppliedKeep(inv, s);
    SayExtends(UpdatesApplied(s), ExecutionFamily(UpdatesApplied(s)));
  }

  /** A step takes back nothing it has published. */
  lemma NextExtendsLog(texts: Texts, s: Session, step: Step)
    ensures s.log <= Next(texts, s, step).log
  {
    match step {
      case Activate(req) => ActivationExtendsLog(texts, s, req);
      case Failsafe(response, plan, removed) =>
        if plan.Some? {
          ActivateExtendsLog(texts, s.(failsafe := FailsafePlan(Some(response), plan)), plan.value);
        }
      case Tick(package) => TickedExtendsLog(s, package);
      case _ =>
    }
  }

  /** What a step publishes. */
  function Added(texts: Texts, s: Session, step: Step): seq<Event> {
    NextExtendsLog(texts, s, step);
    Next(texts, s, step).log[|s.log|..]
  }

  // ---- The failsafe response ------------------------------------------------------------------------------

  lemma TickedSameFailsafe(s: Session, package: bool)
    ensures Ticked(s, package).failsafe == s.failsafe
  {
    UpdatesAppliedKeep((x: Session) => x.failsafe == s.failsafe, s);
  }

  /** The response on record changes only when a failsafe message arrives: to it, or to none if it is a
      removal, whichever response that removal names, and whether or not its plan could be flown. */
  lemma FailsafeAfterStep(texts: Texts, s: Session, step: Step)
    ensures Next(texts, s, step).failsafe ==
      if !step.Failsafe? then s.failsafe
      else if step.removed then NO_FAILSAFE else FailsafePlan(Some(step.response), step.plan)
  {
    if step.Tick? {
      TickedSameFailsafe(s, step.package);
    }
  }

  // ---- What the agreement buys ------------------------------------------------------------------------

  /** ACTIVATE is accepted exactly when the backend is available and the plan is READY_FOR_ACTIVATION
      with flyable text: idle or live, the command it builds is never the reason for a refusal. */
  lemma ActivateAcceptedExactly(texts: Texts, s: Session, req: Activation)
    requires Agrees(texts, s) && req.kind.Activate?
    ensures Decided(texts, s, req).1.accepted <==>
      && s.available && StateOf(s.store, req.plan) == Some(ReadyForActivation)
      && texts.flyable(XmlOf(s.store, req.plan).value)
    ensures Decided(texts, s, req).1.accepted ==>
      var after := Decided(texts, s, req).0;
      && StateOf(after.store, req.plan) == Some(Activated) && after.core.Live()
      && after.exec == Execution(Some(req.plan), Some(Own(s.next)), Some(Executing))
      && after.flight == Some(after.core.activity.value.id)
      && (s.core.Live() ==> after.core.activity == s.core.activity)
  {
    ClimbFrame(s.store, req);
    ClimbKeepsSound(texts, s.store, req);
    assert req.plan in s.store.at ==> SoundRecord(texts, req.plan, s.store.at[req.plan]);
  }

  /** DEACTIVATE of an ACTIVATED plan ends DEACTIVATED with execution and flight idle exactly when
      the backend is available or no route is executing; otherwise it changes nothing. */
  lemma DeactivateEndsExactly(texts: Texts, s: Session, req: Activation)
    requires Agrees(texts, s) && req.kind.Deactivate? && StateOf(s.store, req.plan) == Some(Activated)
    ensures var (after, result) := Decided(texts, s, req);
      && (result.accepted <==> s.available || s.exec == NO_EXECUTION)
      && (result.accepted ==>
            StateOf(after.store, req.plan) == Some(Deactivated) && after.exec == NO_EXECUTION && after.flight.None?)
  {
    ClimbFrame(s.store, req);
  }

  /** A direct command starts or replaces something exactly when it is designated, valid and the backend
      available, and either it is a NEW with nothing live, or an UPDATE naming the flight session's
      activity while one is live: the gate and the backend never disagree about which activity that is. */
  lemma CommandStartsExactly(texts: Texts, s: Session, cmd: FlightCommand)
    requires Agrees(texts, s)
    ensures Sent(s, cmd).1.Started? <==>
      && s.available && cmd.designated && cmd.request.valid
      && if cmd.request.choice.OfActivity?
         then cmd.request.kind.Replace? && s.core.Live() && s.flight.Some? && cmd.request.activity == s.flight
         else cmd.request.kind.New? && !s.core.Live()
  {
  }

  lemma ActivateRefused(texts: Texts, s: Session, plan: Uuid)
    requires !ActivateStored(texts, s, plan).1
    ensures ActivateStored(texts, s, plan).0 == s.(next := ActivateStored(texts, s, plan).0.next)
  {
  }

  /** A REJECTED activation leaves every plan's state and text, the execution, the flight session and
      the whole backend as they were, and has published nothing but its answer. */
  lemma RejectedChangesNothing(texts: Texts, s: Session, req: Activation)
    requires !Decided(texts, s, req).1.accepted
    ensures var after := Decided(texts, s, req).0;
      && (forall plan :: StateOf(after.store, plan) == StateOf(s.store, plan))
      && (forall plan :: XmlOf(after.store, plan) == XmlOf(s.store, plan))
      && after.exec == s.exec && after.flight == s.flight && after.core == s.core && after.log == s.log
  {
    var (store, result) := Climb(s.store, req);
    var climbed := s.(store := store);
    ClimbFrame(s.store, req);
    if !result.accepted {
      assert Decided(texts, s, req).0 == climbed;
    } else if req.kind.Activate? {
      assert Decided(texts, s, req).0 == ActivateStored(texts, climbed, req.plan).0;
      ActivateRefused(texts, climbed, req.plan);
    } else {
      assert Decided(texts, s, req).0 == climbed;
    }
    assert forall plan :: StateOf(store, plan) == StateOf(s.store, plan);
  }
}
