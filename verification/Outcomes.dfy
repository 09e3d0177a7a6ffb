/** What each operation of the session comes to, told from the inputs alone: when a direct command is obeyed and
    what it then leaves, and what a tick makes of the terminals it polls. */
module Outcomes {
  import opened Options
  import opened Lifecycle
  import opened Routes
  import opened Session
  import opened SessionRuns

  // ---- Direct commands -------------------------------------------------------------------------------------

  /** The command keeps its state, and its place in the queue, when another is dealt with. */
  ghost predicate OthersUntouched(before: Core, after: Core, command: Uuid) {
    && (forall c :: c != command ==> (c in after.commands <==> c in before.commands))
    && (forall c :: c != command && c in before.commands ==> after.commands[c] == before.commands[c])
    && QueueOfOthers(after.pending, command) == QueueOfOthers(before.pending, command)
  }

  /** The queued terminals of every other command, in order. */
  function QueueOfOthers(pending: seq<Update>, command: Uuid): seq<Update> {
    if pending == [] then []
    else if pending[0].command == command then QueueOfOthers(pending[1..], command)
    else [pending[0]] + QueueOfOthers(pending[1..], command)
  }

  ghost predicate DirectCancel(cmd: FlightCommand) {
    cmd.request.choice.Capability? && cmd.request.kind.Cancel?
  }

  /** A direct CANCEL is obeyed exactly when the backend is available and knows the command: whatever is live,
      whoever is designated, whatever the flight session holds. Nothing else stops a command. */
  lemma CancelObeyedExactly(s: Session, cmd: FlightCommand)
    ensures Sent(s, cmd).1.Stopped? <==> DirectCancel(cmd) && s.available && cmd.request.command in s.core.commands
    ensures DirectCancel(cmd) && !Sent(s, cmd).1.Stopped? ==> Sent(s, cmd).1.Refused?
  {
  }

  /** Then the command is CANCELED, nothing is live, no terminal of it is queued, every other command and every
      other queued terminal is as it was, CANCELED is all that is published, and nothing else moves. */
  lemma ObeyedCancel(s: Session, cmd: FlightCommand)
    requires DirectCancel(cmd) && s.available && cmd.request.command in s.core.commands
    ensures var after := Commanded(s, cmd);
      && after == s.(core := after.core, log := after.log, next := after.next)
      && after.log == s.log + [CommandStatus(cmd.request.command, AnsweredCanceled)]
      && after.core.activity.None? && after.core.InState(cmd.request.command, Canceled)
      && (forall u :: u in after.core.pending ==> u.command != cmd.request.command)
      && OthersUntouched(s.core, after.core, cmd.request.command)
  {
    WithoutIsOthers(s.core.pending, cmd.request.command);
    OthersTwice(s.core.pending, cmd.request.command);
    OthersAreOthers(s.core.pending, cmd.request.command);
  }

  lemma {:induction false} WithoutIsOthers(pending: seq<Update>, command: Uuid)
    ensures Without(pending, command) == QueueOfOthers(pending, command)
  {
    if pending == [] {
    } else {
      var front, last := pending[..|pending| - 1], pending[|pending| - 1];
      WithoutIsOthers(front, command);
      OthersAppend(front, last, command);
      assert pending == front + [last];
    }
  }

  lemma {:induction false} OthersAppend(pending: seq<Update>, last: Update, command: Uuid)
    ensures QueueOfOthers(pending + [last], command)
         == QueueOfOthers(pending, command) + if last.command == command then [] else [last]
  {
    if pending == [] {
      assert [] + [last] == [last];
    } else {
      OthersAppend(pending[1..], last, command);
      assert (pending + [last])[1..] == pending[1..] + [last];
    }
  }

  lemma {:induction false} OthersTwice(pending: seq<Update>, command: Uuid)
    ensures QueueOfOthers(QueueOfOthers(pending, command), command) == QueueOfOthers(pending, command)
  {
    if pending == [] {
    } else {
      OthersTwice(pending[1..], command);
    }
  }

  lemma {:induction false} OthersAreOthers(pending: seq<Update>, command: Uuid)
    ensures forall u :: u in QueueOfOthers(pending, command) ==> u.command != command
  {
    if pending == [] {
    } else {
      OthersAreOthers(pending[1..], command);
    }
  }

  /** A refused command is told REJECTED and a task is suggested; the backend, the flight session, the execution
      and every plan are as they were. */
  lemma RefusedCommand(s: Session, cmd: FlightCommand)
    requires Sent(s, cmd).1.Refused?
    ensures var after := Commanded(s, cmd);
      && after == s.(log := after.log, next := after.next) && after.next > s.next
      && after.log
         == s.log + [CommandStatus(cmd.request.command, AnsweredRejected), SuggestTask(Own(after.next - 1))]
  {
  }

  /** A command that starts or replaces something is ACCEPTED under a live activity, the one that was live or, for a
      NEW, a fresh one; the flight session holds that activity; and just those two facts are published. */
  lemma StartedCommand(texts: Texts, s: Session, cmd: FlightCommand)
    requires Agrees(texts, s) && Sent(s, cmd).1.Started?
    ensures var after := Commanded(s, cmd); var isNew := cmd.request.choice.Capability?;
      && after == s.(core := after.core, flight := after.flight, log := after.log, next := after.next)
      && after.core.Live() && after.core.InState(cmd.request.command, Accepted)
      && after.core.activity == (if isNew then Some(Activity(Own(s.next), true)) else s.core.activity)
      && after.flight == Some(after.core.activity.value.id) && after.core.pending == s.core.pending
      && OthersUntouched(s.core, after.core, cmd.request.command)
      && after.log == s.log
           + [CommandStatus(cmd.request.command, AnsweredAccepted), ActivityOut(after.core.activity.value, isNew)]
  {
    CommandStartsExactly(texts, s, cmd);
  }

  // ---- Activation commands ---------------------------------------------------------------------------------

  /** A refused activation is told so once, with the state the plan is in; no plan, nothing executing, flying or in
      the backend moves. */
  lemma RefusedActivation(texts: Texts, s: Session, req: Activation)
    requires !Decided(texts, s, req).1.accepted
    ensures var from := StateOf(s.store, req.plan);
      var shown := if from.None? || req.kind.UnknownType? then Inactive else from.value;
      var after := ActivationHandled(texts, s, req);
      && after.log == s.log + [ActivationStatus(req.command, req.plan, false, None, shown)]
      && after.exec == s.exec && after.flight == s.flight && after.core == s.core
  {
    RejectedChangesNothing(texts, s, req);
    assert s.log + [ActivationStatus(req.command, req.plan, false, None, Decided(texts, s, req).1.state)] + []
        == s.log + [ActivationStatus(req.command, req.plan, false, None, Decided(texts, s, req).1.state)];
  }

  /** The three commands of the ladder that do not touch the vehicle: where each may start from, the state it shows
      on the way, and the state it ends in. PREPARE_FOR_UPLOAD alone takes a plan not stored; UPLOAD needs text. */
  ghost predicate MayClimb(store: Store, req: Activation) {
    match req.kind
    case PrepareForUpload => StateOf(store, req.plan) in {None, Some(Inactive), Some(Deactivated), Some(ReadyForUpload)}
    case Upload => StateOf(store, req.plan) == Some(ReadyForUpload) && XmlOf(store, req.plan).Some?
    case PrepareForActivation => StateOf(store, req.plan) == Some(Uploaded)
    case _ => false
  }

  function OnTheWay(kind: CommandType): PlanState {
    if kind.PrepareForUpload? then PreparingForUpload else if kind.Upload? then Uploading else PreparingForActivation
  }

  function AtTheTop(kind: CommandType): PlanState {
    if kind.PrepareForUpload? then ReadyForUpload else if kind.Upload? then Uploaded else ReadyForActivation
  }

  lemma LadderClimbed(texts: Texts, s: Session, req: Activation)
    requires !req.kind.Activate? && !req.kind.Deactivate?
    ensures Decided(texts, s, req).1.accepted <==> MayClimb(s.store, req)
    ensures MayClimb(s.store, req) ==>
      var after := ActivationHandled(texts, s, req);
      && after == s.(store := after.store, log := after.log)
      && StateOf(after.store, req.plan) == Some(AtTheTop(req.kind))
      && after.store.at[req.plan].mission == Some(req.mission)
      && after.log == s.log + [ActivationStatus(req.command, req.plan, true, Some(Queued), OnTheWay(req.kind)),
                               ActivationStatus(req.command, req.plan, true, Some(Processing), OnTheWay(req.kind)),
                               ActivationStatus(req.command, req.plan, true, Some(Done), AtTheTop(req.kind))]
  {
  }

  /** What an accepted ACTIVATE publishes before its answer: the activity, new exactly when nothing was live, and the
      execution under the route's own command and under the mission this activation names. */
  lemma RouteTold(texts: Texts, s: Session, req: Activation)
    requires Agrees(texts, s) && req.kind.Activate? && Decided(texts, s, req).1.accepted
    ensures Decided(texts, s, req).0.core.activity.Some?
    ensures Decided(texts, s, req).1 == Result(true, Activated, Some(Activating), true, false)
    ensures var activity := Decided(texts, s, req).0.core.activity.value;
      Decided(texts, s, req).0.log == s.log + [
        ActivityOut(activity, !s.core.Live()), ResponseExecution(Some((req.plan, Executing))), IdleExecutions,
        RouteExecutionStatus(req.plan, Executing, Some(activity.id), Some(Own(s.next))),
        MissionExecutionStatus(req.mission, Executing)]
  {
    ActivateAcceptedExactly(texts, s, req);
    ClimbKeepsSound(texts, s.store, req);
    var climbed := s.(store := Climb(s.store, req).0);
    assert climbed.store.at[req.plan].mission == Some(req.mission);
  }

  /** Then the three steps of its answer follow, and nothing else. */
  lemma ActivationTold(texts: Texts, s: Session, req: Activation)
    requires Agrees(texts, s) && req.kind.Activate? && Decided(texts, s, req).1.accepted
    ensures ActivationHandled(texts, s, req).core.activity.Some?
    ensures var after := ActivationHandled(texts, s, req); var activity := after.core.activity.value;
      after.log == s.log + [
        ActivityOut(activity, !s.core.Live()), ResponseExecution(Some((req.plan, Executing))), IdleExecutions,
        RouteExecutionStatus(req.plan, Executing, Some(activity.id), Some(Own(s.next))),
        MissionExecutionStatus(req.mission, Executing),
        ActivationStatus(req.command, req.plan, true, Some(Queued), Activating),
        ActivationStatus(req.command, req.plan, true, Some(Processing), Activating),
        ActivationStatus(req.command, req.plan, true, Some(Done), Activated)]
  {
    RouteTold(texts, s, req);
  }

  /** The mission a FAILED execution is told under, once this DEACTIVATE has named one for its plan. */
  function MissionTold(s: Session, req: Activation): Option<Uuid> {
    if s.exec.plan == Some(req.plan) then Some(req.mission)
    else if s.exec.plan.Some? && s.exec.plan.value in s.store.at then s.store.at[s.exec.plan.value].mission else None
  }

  function FailedNews(s: Session, req: Activation): seq<Event>
    requires s.exec.plan.Some?
  {
    [ResponseExecution(Some((s.exec.plan.value, ExecState.Aborted))), IdleExecutions,
     RouteExecutionStatus(s.exec.plan.value, ExecState.Aborted, s.flight, s.exec.command)]
    + if MissionTold(s, req).None? then []
      else [MissionExecutionStatus(MissionTold(s, req).value, ExecState.Aborted)]
  }

  lemma RouteFailed(texts: Texts, s: Session, req: Activation)
    requires Agrees(texts, s) && req.kind.Deactivate? && StateOf(s.store, req.plan) == Some(Activated)
    requires Decided(texts, s, req).1.accepted
    ensures Decided(texts, s, req).1 == Result(true, Deactivated, None, false, false)
    ensures var after := Decided(texts, s, req).0;
      && (s.exec.command.None? ==> after.log == s.log && after.core == s.core)
      && (s.exec.command.Some? ==>
            && after.core.activity.None? && after.core.InState(s.exec.command.value, Canceled)
            && after.log == s.log + FailedNews(s, req))
  {
    DeactivateEndsExactly(texts, s, req);
    if s.exec.command.Some? {
      FailedFamily(texts, s, s.(store := Climb(s.store, req).0), req);
    }
  }

  /** A DEACTIVATE of an ACTIVATED plan: whatever route is executing, that plan's or another's, its command is
      CANCELED and it is published FAILED; then the answer, and the mission told. */
  lemma DeactivationTold(texts: Texts, s: Session, req: Activation)
    requires Agrees(texts, s) && req.kind.Deactivate? && StateOf(s.store, req.plan) == Some(Activated)
    requires Decided(texts, s, req).1.accepted
    ensures var after := ActivationHandled(texts, s, req);
      && after.log == s.log + (if s.exec.plan.None? then [] else FailedNews(s, req))
           + [ActivationStatus(req.command, req.plan, true, None, Deactivated), PlanDeactivated(req.mission, req.plan)]
      && (s.exec.command.None? ==> after.core == s.core)
      && (s.exec.command.Some? ==>
            after.core.activity.None? && after.core.InState(s.exec.command.value, Canceled))
  {
    RouteFailed(texts, s, req);
    assert ExecutionAgrees(s);
    assert s.log + [] == s.log;
  }

  lemma FailedFamily(texts: Texts, s: Session, climbed: Session, req: Activation)
    requires Agrees(texts, s) && s.exec.plan.Some? && req.kind.Deactivate?
    requires StateOf(s.store, req.plan) == Some(Activated) && climbed == s.(store := Climb(s.store, req).0)
    ensures MissionNews(climbed.store, s.exec.plan.value, ExecState.Aborted)
         == if MissionTold(s, req).None? then []
            else [MissionExecutionStatus(MissionTold(s, req).value, ExecState.Aborted)]
  {
    var plan := s.exec.plan.value;
    assert SoundRecord(texts, plan, s.store.at[plan]);
    ClimbSparesOrNames(s.store, req, plan);
  }

  lemma ClimbSparesOrNames(store: Store, req: Activation, plan: Uuid)
    requires plan in store.at && req.kind.Deactivate? && StateOf(store, req.plan) == Some(Activated)
    ensures var climbed := Climb(store, req).0; plan in climbed.at
    ensures Climb(store, req).0.at[plan]
         == if plan == req.plan then store.at[plan].(mission := Some(req.mission)) else store.at[plan]
  {
  }

  // ---- The VI's own abort ----------------------------------------------------------------------------------

  /** Nothing executes, nothing flies, and the plan that was executing is DEACTIVATED; its execution was first
      published FAILED, then its mission told DEACTIVATED. No other plan and no text changes. */
  lemma Aborted(texts: Texts, s: Session)
    requires Agrees(texts, s) && s.exec.plan.Some?
    ensures var plan := s.exec.plan.value; var after := Abort(s); var mission := s.store.at[plan].mission;
      && after == s.(store := after.store, exec := NO_EXECUTION, flight := None, log := after.log)
      && StateOf(after.store, plan) == Some(Deactivated)
      && after.log == s.log + [ResponseExecution(Some((plan, ExecState.Aborted))), IdleExecutions,
                               RouteExecutionStatus(plan, ExecState.Aborted, s.flight, s.exec.command)]
                    + (if mission.None? then [] else [MissionExecutionStatus(mission.value, ExecState.Aborted),
                                                      PlanDeactivated(mission.value, plan)])
  {
    var plan := s.exec.plan.value;
    assert plan in s.store.at && SoundRecord(texts, plan, s.store.at[plan]);
    assert Lookup(s.store, plan).Some? && Lookup(s.store, plan).value.mission == s.store.at[plan].mission;
  }

  // ---- What a tick makes of the terminals --------------------------------------------------------------------

  /** One of the first k updates is a terminal of that command in that state. */
  predicate TerminalOf(updates: seq<Update>, k: nat, command: Option<Uuid>, state: CommandState)
    requires k <= |updates|
  {
    exists i :: 0 <= i < k && command == Some(updates[i].command) && updates[i].state == state
  }

  lemma OneMoreTerminal(updates: seq<Update>, k: nat, command: Option<Uuid>, state: CommandState)
    requires 0 < k <= |updates|
    ensures TerminalOf(updates, k, command, state) <==>
      || TerminalOf(updates, k - 1, command, state)
      || (command == Some(updates[k - 1].command) && updates[k - 1].state == state)
  {
  }

  lemma {:induction false} FinishingPass(s: Session, updates: seq<Update>, k: nat)
    requires k <= |updates|
    ensures Pass(Finishing, s, updates, k)
         == if TerminalOf(updates, k, s.exec.command, Completed)
            then s.(exec := s.exec.(state := Some(Finished))) else s
  {
    if k == 0 {
    } else {
      FinishingPass(s, updates, k - 1);
    }
  }

  lemma {:induction false} PublishingPass(s: Session, updates: seq<Update>, k: nat)
    requires k <= |updates|
    ensures Pass(Publishing, s, updates, k) == s.(log := Pass(Publishing, s, updates, k).log)
  {
    if k == 0 {
    } else {
      PublishingPass(s, updates, k - 1);
    }
  }

  lemma AbortedFields(s: Session)
    requires s.exec.plan.Some?
    ensures Abort(s) == s.(store := Committed(s.store, s.exec.plan.value, Deactivated), exec := NO_EXECUTION,
                           flight := None, log := Abort(s).log)
  {
  }

  /** The pass aborts once, at the first failed or canceled terminal of the executing command. */
  lemma {:induction false} AbortingPass(s: Session, updates: seq<Update>, k: nat)
    requires k <= |updates| && (s.exec.plan.Some? <==> s.exec.command.Some?)
    ensures Pass(Aborting, s, updates, k)
         == if TerminalOf(updates, k, s.exec.command, Failed) || TerminalOf(updates, k, s.exec.command, Canceled)
            then Abort(s) else s
  {
    if k == 0 {
    } else {
      AbortingPass(s, updates, k - 1);
      OneMoreTerminal(updates, k, s.exec.command, Failed);
      OneMoreTerminal(updates, k, s.exec.command, Canceled);
      if s.exec.plan.Some? {
        AbortedFields(s);
      }
    }
  }

  lemma {:induction false} ClearingPass(s: Session, updates: seq<Update>, k: nat)
    requires k <= |updates|
    ensures Pass(Clearing, s, updates, k)
         == if (exists i :: 0 <= i < k && updates[i].state.Completed?) && s.core.activity.Some? && !s.core.Live()
            then s.(flight := None) else s
  {
    if k == 0 {
    } else {
      ClearingPass(s, updates, k - 1);
    }
  }

  predicate Over(s: Session) {
    var n := |s.core.pending|;
    TerminalOf(s.core.pending, n, s.exec.command, Failed) || TerminalOf(s.core.pending, n, s.exec.command, Canceled)
  }

  predicate Finishes(s: Session) {
    TerminalOf(s.core.pending, |s.core.pending|, s.exec.command, Completed)
  }

  /** Some terminal says completed, and the activity is over. */
  predicate Landed(s: Session) {
    && s.core.activity.Some? && !s.core.activity.value.live
    && exists i :: 0 <= i < |s.core.pending| && s.core.pending[i].state.Completed?
  }

  lemma UpdatesOutcome(s: Session)
    requires s.exec.plan.Some? <==> s.exec.command.Some?
    ensures var after := UpdatesApplied(s);
      after == s.(
        core := s.core.(pending := []), log := after.log,
        store := if Over(s) then Committed(s.store, s.exec.plan.value, Deactivated) else s.store,
        exec := if Over(s) then NO_EXECUTION
                else if Finishes(s) then s.exec.(state := Some(Finished)) else s.exec,
        flight := if Over(s) || Landed(s) then None else s.flight)
  {
    var updates, n := s.core.pending, |s.core.pending|;
    var polled := s.(core := s.core.(pending := []));
    FinishingPass(polled, updates, n);
    var completed := Pass(Finishing, polled, updates, n);
    PublishingPass(completed, updates, n);
    var published := Pass(Publishing, completed, updates, n);
    AbortingPass(published, updates, n);
    if Over(s) {
      AbortedFields(published);
    }
    ClearingPass(Pass(Aborting, published, updates, n), updates, n);
  }

  lemma CommittedStates(store: Store, plan: Uuid, other: Uuid)
    requires plan in store.at
    ensures StateOf(Committed(store, plan, Deactivated), other)
         == if other == plan then Some(Deactivated) else StateOf(store, other)
    ensures XmlOf(Committed(store, plan, Deactivated), other) == XmlOf(store, other)
  {
  }

  /** What the polled terminals of the executing command come to. A failed or canceled one ends the route: nothing
      executes or flies and its plan is DEACTIVATED. Otherwise a completed one finishes the execution. Otherwise it
      goes on as it was. The queue is empty, the rest of the backend untouched, and only that plan's state moves.
      A completed terminal, the route's or not, also ends the flight session when the activity is over. */
  lemma TickOutcome(texts: Texts, s: Session, package: bool, plan: Uuid)
    requires Agrees(texts, s)
    ensures var after := Ticked(s, package);
      && after.exec == (if Over(s) then NO_EXECUTION
                        else if Finishes(s) then Execution(s.exec.plan, s.exec.command, Some(Finished)) else s.exec)
      && after.flight == (if Over(s) || Landed(s) then None else s.flight)
      && after.core == Core(s.core.activity, s.core.commands, [])
      && after.available == s.available && after.next == s.next && after.failsafe == s.failsafe
    ensures StateOf(Ticked(s, package).store, plan)
         == if Over(s) && s.exec.plan == Some(plan) then Some(Deactivated) else StateOf(s.store, plan)
    ensures XmlOf(Ticked(s, package).store, plan) == XmlOf(s.store, plan)
  {
    UpdatesOutcome(s);
    if Over(s) {
      CommittedStates(s.store, s.exec.plan.value, plan);
    }
  }

  // ---- A plan's announcement ---------------------------------------------------------------------------------

  ghost predicate Announced(s: Session, plan: Uuid) {
    PlanStored(plan) in s.log
  }

  lemma SayAnnounces(s: Session, events: seq<Event>, plan: Uuid)
    ensures Announced(Say(s, events), plan) <==> Announced(s, plan) || PlanStored(plan) in events
  {
  }

  lemma ActivateAnnounces(texts: Texts, s: Session, flown: Uuid, plan: Uuid)
    ensures Announced(ActivateStored(texts, s, flown).0, plan) <==> Announced(s, plan)
  {
  }

  lemma DeactivateAnnounces(s: Session, req: Activation, plan: Uuid)
    ensures Announced(DeactivateVehicle(s, req).0, plan) <==> Announced(s, plan)
  {
  }

  lemma ActivationAnnounces(texts: Texts, s: Session, req: Activation, plan: Uuid)
    ensures Announced(ActivationHandled(texts, s, req), plan) <==> Announced(s, plan)
  {
    var climbed := s.(store := Climb(s.store, req).0);
    ActivateAnnounces(texts, climbed, req.plan, plan);
    DeactivateAnnounces(climbed, req, plan);
    var (after, result) := Decided(texts, s, req);
    SayAnnounces(after, Statuses(req, result), plan);
    SayAnnounces(Say(after, Statuses(req, result)), DeactivationNews(req, result), plan);
  }

  lemma FamilyAnnouncesNothing(s: Session, plan: Uuid)
    ensures PlanStored(plan) !in ExecutionFamily(s)
  {
  }

  lemma AbortAnnounces(s: Session, plan: Uuid)
    ensures Announced(Abort(s), plan) <==> Announced(s, plan)
  {
    if s.exec.plan.Some? {
      var failed := s.(exec := s.exec.(state := Some(ExecState.Aborted)));
      FamilyAnnouncesNothing(failed, plan);
      SayAnnounces(failed, ExecutionFamily(failed), plan);
    }
  }

  lemma UpdateAnnounces(s: Session, u: Update, plan: Uuid)
    ensures PlanStored(plan) !in UpdateNews(s, u)
  {
    FamilyAnnouncesNothing(s, plan);
    assert PlanStored(plan) !in ActivityNews(s.core, false);
  }

  lemma PassesAnnounce(s: Session, u: Update, plan: Uuid)
    ensures Announced(Finishing(s, u), plan) == Announced(Publishing(s, u), plan) == Announced(s, plan)
    ensures Announced(Aborting(s, u), plan) == Announced(Clearing(s, u), plan) == Announced(s, plan)
  {
    UpdateAnnounces(s, u, plan);
    SayAnnounces(s, UpdateNews(s, u), plan);
    AbortAnnounces(s, plan);
  }

  lemma TickAnnounces(s: Session, package: bool, plan: Uuid)
    ensures Announced(Ticked(s, package), plan) <==> Announced(s, plan)
  {
    var inv := (x: Session) => Announced(x, plan) == Announced(s, plan);
    forall x, u | inv(x)
      ensures inv(Finishing(x, u)) && inv(Publishing(x, u)) && inv(Aborting(x, u)) && inv(Clearing(x, u))
    {
      PassesAnnounce(x, u, plan);
    }
    UpdatesAppliedKeep(inv, s);
    FamilyAnnouncesNothing(UpdatesApplied(s), plan);
    SayAnnounces(UpdatesApplied(s), ExecutionFamily(UpdatesApplied(s)), plan);
  }

  lemma CommandAnnounces(s: Session, cmd: FlightCommand, plan: Uuid)
    ensures Announced(Commanded(s, cmd), plan) <==> Announced(s, plan)
  {
  }

  lemma StepAnnounces(texts: Texts, s: Session, step: Step, plan: Uuid)
    ensures Announced(Next(texts, s, step), plan) <==>
      || Announced(s, plan)
      || (step.PlanText? && texts.planId(step.xml) == Some(plan) && Lookup(s.store, plan).None?)
  {
    match step {
      case Command(cmd) => CommandAnnounces(s, cmd, plan);
      case Activate(req) => ActivationAnnounces(texts, s, req, plan);
      case Failsafe(response, flown, removed) =>
        if flown.Some? {
          ActivateAnnounces(texts, s.(failsafe := FailsafePlan(Some(response), flown)), flown.value, plan);
        }
      case Tick(package) => TickAnnounces(s, package, plan);
      case _ =>
    }
  }

  /** In every run a plan has been announced exactly when a message brought it: its text is there now and was not
      among the plans the run began with. */
  lemma {:induction false} AnnouncedExactly(
    texts: Texts, states: seq<Session>, steps: seq<Step>, k: nat, plan: Uuid)
    requires SessionRuns.Run(texts, states, steps) && k < |states|
    ensures Announced(states[k], plan) <==> XmlOf(states[k].store, plan).Some? && XmlOf(states[0].store, plan).None?
  {
    if k == 0 {
    } else {
      AnnouncedExactly(texts, states, steps, k - 1, plan);
      AlwaysAgrees(texts, states, steps, k - 1);
      TextNeverLost(texts, states, steps, 0, k - 1, plan);
      StepAnnounces(texts, states[k - 1], steps[k - 1], plan);
      TextAfterStep(texts, states[k - 1], steps[k - 1], plan);
      assert plan in states[k - 1].store.at ==> SoundRecord(texts, plan, states[k - 1].store.at[plan]);
    }
  }
}
