/** What the session publishes over every run: the order of execution statuses for each activation,
    and the ladder behind every ACTIVATED plan. */
module SessionLog {
  import opened Options
  import opened Dicts
  import opened Logs
  import opened Lifecycle
  import opened Routes
  import opened Session
  import opened SessionRuns

  /** One observer's view of the log: the execution states published for one route-sourced command, the
      plan states one plan's accepted commands ended in, or what one command was answered and told,
      refusals aside. */
  datatype Lens = OfActivation(command: Uuid) | OfPlan(plan: Uuid) | OfCommand(command: Uuid)

  datatype Mark = Exec(state: ExecState) | Ended(rung: PlanState) | Told(answer: Answer)

  function Picked(e: Event, lens: Lens): seq<Mark> {
    match lens
    case OfActivation(command) => if e.RouteExecutionStatus? && e.source == Some(command) then [Exec(e.exec)] else []
    case OfPlan(plan) =>
      if e.ActivationStatus? && e.plan == plan && e.accepted && (e.step.None? || e.step == Some(Done))
        then [Ended(e.state)] else []
    case OfCommand(command) =>
      if e.CommandStatus? && e.command == command && !e.answer.AnsweredRejected? then [Told(e.answer)] else []
  }

  function Select(log: seq<Event>, lens: Lens): seq<Mark> {
    Collect(log, e => Picked(e, lens))
  }

  lemma SelectAppend(log: seq<Event>, more: seq<Event>, lens: Lens)
    ensures Select(log + more, lens) == Select(log, lens) + Select(more, lens)
  {
    CollectAppend(log, more, e => Picked(e, lens));
  }

  lemma SelectQuiet(events: seq<Event>, lens: Lens)
    requires forall i :: 0 <= i < |events| ==> Picked(events[i], lens) == []
    ensures Select(events, lens) == []
  {
    CollectNothing(events, e => Picked(e, lens));
  }

  function Marks(s: Session, lens: Lens): seq<Mark> {
    Select(s.log, lens)
  }

  lemma SayMarks(s: Session, events: seq<Event>, lens: Lens)
    ensures Marks(Say(s, events), lens) == Marks(s, lens) + Select(events, lens)
  {
    SelectAppend(s.log, events, lens);
  }

  lemma SayQuiet(s: Session, events: seq<Event>, lens: Lens)
    requires forall i :: 0 <= i < |events| ==> Picked(events[i], lens) == []
    ensures Marks(Say(s, events), lens) == Marks(s, lens)
  {
    SayMarks(s, events, lens);
    SelectQuiet(events, lens);
  }

  /** The execution state a family shows an observer: the live execution's, to its own command. */
  function FamilyMark(s: Session, lens: Lens): seq<Mark> {
    if lens.OfActivation? && s.exec.plan.Some? && s.exec.state.Some? && s.exec.command == Some(lens.command)
    then [Exec(s.exec.state.value)] else []
  }

  lemma MissionQuiet(store: Store, plan: Uuid, exec: ExecState, lens: Lens)
    ensures Select(MissionNews(store, plan, exec), lens) == []
  {
    SelectQuiet(MissionNews(store, plan, exec), lens);
  }

  lemma LiveFamilyMarks(s: Session, plan: Uuid, exec: ExecState, lens: Lens)
    requires s.exec.plan == Some(plan) && s.exec.state == Some(exec)
    ensures Select(ExecutionFamily(s), lens) == FamilyMark(s, lens)
  {
    var status := RouteExecutionStatus(plan, exec, s.flight, s.exec.command);
    var head := [ResponseExecution(Some((plan, exec))), IdleExecutions, status];
    CollectThree(head[0], head[1], status, e => Picked(e, lens));
    MissionQuiet(s.store, plan, exec, lens);
    SelectAppend(head, MissionNews(s.store, plan, exec), lens);
    assert Picked(head[0], lens) == [] && Picked(head[1], lens) == [];
    assert Picked(status, lens) == FamilyMark(s, lens);
  }

  lemma FamilyMarks(s: Session, lens: Lens)
    ensures Select(ExecutionFamily(s), lens) == FamilyMark(s, lens)
  {
    if s.exec.plan.None? || s.exec.state.None? {
      SelectQuiet(ExecutionFamily(s), lens);
    } else {
      LiveFamilyMarks(s, s.exec.plan.value, s.exec.state.value, lens);
    }
  }

  // ---- Execution statuses ------------------------------------------------------------------------------

  function Rank(m: Mark): nat {
    if !m.Exec? then 3 else match m.state case Executing => 0 case Finished => 1 case Aborted => 2
  }

  /** EXECUTING once or more, then COMPLETED any number of times, then FAILED at most once, then nothing. */
  ghost predicate WellOrdered(marks: seq<Mark>) {
    && (marks != [] ==> marks[0] == Exec(Executing))
    && (forall i, j :: 0 <= i < j < |marks| ==> Rank(marks[i]) <= Rank(marks[j]) && marks[i] != Exec(Aborted))
  }

  /** The next status may follow those already published. */
  ghost predicate MayFollow(marks: seq<Mark>, state: ExecState) {
    if marks == [] then state.Executing?
    else Rank(marks[|marks| - 1]) <= Rank(Exec(state)) && marks[|marks| - 1] != Exec(Aborted)
  }

  lemma FollowOn(marks: seq<Mark>, state: ExecState)
    requires WellOrdered(marks) && MayFollow(marks, state)
    ensures WellOrdered(marks + [Exec(state)])
    ensures !state.Aborted? ==> MayFollow(marks + [Exec(state)], state)
    ensures state.Executing? ==> MayFollow(marks + [Exec(state)], Finished)
    ensures !state.Aborted? ==> MayFollow(marks + [Exec(state)], Aborted)
  {
  }

  /** For one command: its published statuses are well ordered; there are none before the generator
      has drawn it; and while it is the live execution's, more may follow. */
  ghost predicate Ordered(marks: seq<Mark>, next: nat, exec: Execution, c: Uuid) {
    && WellOrdered(marks)
    && (c.Own? && c.serial >= next ==> marks == [])
    && (exec.command == Some(c) && exec.state.Some? ==>
          && Drawn(c, next) && !exec.state.value.Aborted? && marks != []
          && MayFollow(marks, Finished) && MayFollow(marks, Aborted) && MayFollow(marks, exec.state.value))
  }

  predicate Drawn(c: Uuid, next: nat) {
    c.Own? && c.serial < next
  }

  ghost predicate OrderedIn(s: Session, c: Uuid) {
    Ordered(Marks(s, OfActivation(c)), s.next, s.exec, c)
  }

  // ---- What each function adds to the log ------------------------------------------------------------

  function Shown(command: Option<Uuid>, state: ExecState, lens: Lens): seq<Mark> {
    if lens.OfActivation? && command == Some(lens.command) then [Exec(state)] else []
  }

  lemma RouteBegunMarks(s: Session, plan: Uuid, command: Uuid, activity: Uuid, isNew: bool, lens: Lens)
    ensures Marks(RouteBegun(s, plan, command, activity, isNew), lens) ==
      Marks(s, lens) + Shown(Some(command), Executing, lens)
  {
    var begun := s.(store := Committed(s.store, plan, Activated),
      exec := Execution(Some(plan), Some(command), Some(Executing)), flight := Some(activity));
    var news := ActivityNews(begun.core, isNew);
    SayQuiet(begun, news, lens);
    SayMarks(Say(begun, news), ExecutionFamily(Say(begun, news)), lens);
    FamilyMarks(Say(begun, news), lens);
  }

  lemma ActivateStoredMarks(texts: Texts, s: Session, plan: Uuid, lens: Lens)
    ensures var x := ActivateStored(texts, s, plan).0;
      || (Marks(x, lens) == Marks(s, lens) && x.exec == s.exec && x.next >= s.next)
      || (&& Marks(x, lens) == Marks(s, lens) + Shown(Some(Own(s.next)), Executing, lens)
          && x.exec == Execution(Some(plan), Some(Own(s.next)), Some(Executing)) && x.next == s.next + 2)
  {
    var stored := Lookup(s.store, plan);
    if stored.Some? && texts.flyable(stored.value.xml) {
      var r := RouteCommand(s, Own(s.next));
      var outcome := Decide(s.core, s.available, r, Own(s.next + 1));
      var sent := s.(core := Submit(s.core, s.available, r, Own(s.next + 1)), next := s.next + 2);
      if outcome.Started? {
        RouteBegunMarks(sent, plan, Own(s.next), outcome.activity, outcome.isNew, lens);
      }
    }
  }

  /** The family of an execution just marked FAILED. */
  lemma FailedFamilyMarks(s: Session, lens: Lens)
    requires s.exec.plan.Some?
    ensures Marks(WithFamily(s.(exec := s.exec.(state := Some(Aborted)))), lens) ==
      Marks(s, lens) + Shown(s.exec.command, Aborted, lens)
  {
    var failed := s.(exec := s.exec.(state := Some(Aborted)));
    SayMarks(failed, ExecutionFamily(failed), lens);
    FamilyMarks(failed, lens);
  }

  lemma DeactivateMarks(s: Session, req: Activation, lens: Lens)
    requires ExecutionAgrees(s)
    ensures var x := DeactivateVehicle(s, req).0;
      && x.next == s.next
      && (|| (Marks(x, lens) == Marks(s, lens) && (x.exec == s.exec || x.exec == NO_EXECUTION))
          || (Marks(x, lens) == Marks(s, lens) + Shown(s.exec.command, Aborted, lens) && x.exec == NO_EXECUTION))
  {
    if s.exec.command.Some? {
      var r := Request(s.exec.command.value, Capability, Cancel, None, true);
      FailedFamilyMarks(s.(core := Submit(s.core, s.available, r, Own(s.next))), lens);
    }
  }

  lemma CompletionMarks(s: Session, u: Update, lens: Lens)
    requires u.state.Completed? && s.exec.IsSourced(u.command)
    ensures Marks(Say(s, UpdateNews(s, u)), lens) == Marks(s, lens) + FamilyMark(s, lens)
  {
    var news, family := ActivityNews(s.core, false), ExecutionFamily(s);
    assert UpdateNews(s, u) == news + family;
    FamilyMarks(s, lens);
    SelectQuiet(news, lens);
    SelectAppend(news, family, lens);
    SayMarks(s, news + family, lens);
  }

  lemma UpdateMarks(s: Session, u: Update, lens: Lens)
    requires !lens.OfCommand?
    ensures Marks(Say(s, UpdateNews(s, u)), lens) ==
      Marks(s, lens) + if u.state.Completed? && s.exec.IsSourced(u.command) then FamilyMark(s, lens) else []
  {
    if u.state.Completed? && s.exec.IsSourced(u.command) {
      CompletionMarks(s, u, lens);
    } else {
      SayQuiet(s, UpdateNews(s, u), lens);
    }
  }

  lemma AbortMarks(s: Session, lens: Lens)
    requires s.exec.plan.Some?
    ensures Marks(Abort(s), lens) == Marks(s, lens) + Shown(s.exec.command, Aborted, lens)
  {
    FailedFamilyMarks(s, lens);
    var plan := s.exec.plan.value;
    var stored := Lookup(s.store, plan);
    var failed := WithFamily(s.(exec := s.exec.(state := Some(Aborted))));
    var news := if stored.Some? && stored.value.mission.Some? then [PlanDeactivated(stored.value.mission.value, plan)]
      else [];
    SayQuiet(failed, news, lens);
  }

  lemma CommandedMarks(s: Session, cmd: FlightCommand, lens: Lens)
    requires !lens.OfCommand?
    ensures Marks(Commanded(s, cmd), lens) == Marks(s, lens)
    ensures Commanded(s, cmd).exec == s.exec && Commanded(s, cmd).next >= s.next
  {
    var (sent, outcome) := Sent(s, cmd);
    match outcome {
      case Refused(_) =>
        SayQuiet(s, [CommandStatus(cmd.request.command, AnsweredRejected), SuggestTask(Own(sent.next))], lens);
      case Stopped => SayQuiet(s, [CommandStatus(cmd.request.command, AnsweredCanceled)], lens);
      case Started(_, isNew) =>
        SayQuiet(s, [CommandStatus(cmd.request.command, AnsweredAccepted)] + ActivityNews(sent.core, isNew), lens);
    }
  }

  lemma PlanReceivedMarks(texts: Texts, s: Session, xml: string, lens: Lens)
    ensures var x := PlanReceived(texts, s, xml);
      x == s.(store := x.store, log := x.log) && Marks(x, lens) == Marks(s, lens)
  {
    var id := texts.planId(xml);
    if id.Some? {
      SayQuiet(s, [PlanStored(id.value), FileLocation(id.value), FileMetadata(id.value)], lens);
    }
  }

  // ---- The order, step by step -------------------------------------------------------------------------

  /** Activation under a newly drawn command. */
  lemma ActivateStoredOrdered(texts: Texts, s: Session, plan: Uuid, c: Uuid)
    requires OrderedIn(s, c)
    ensures OrderedIn(ActivateStored(texts, s, plan).0, c)
  {
    ActivateStoredMarks(texts, s, plan, OfActivation(c));
    assert Marks(s, OfActivation(c)) + [] == Marks(s, OfActivation(c));
    if c == Own(s.next) {
      FollowOn([], Executing);
    }
  }

  lemma DeactivateOrdered(s: Session, req: Activation, c: Uuid)
    requires ExecutionAgrees(s) && OrderedIn(s, c)
    ensures OrderedIn(DeactivateVehicle(s, req).0, c)
  {
    DeactivateMarks(s, req, OfActivation(c));
    assert Marks(s, OfActivation(c)) + [] == Marks(s, OfActivation(c));
    if s.exec.command == Some(c) {
      FollowOn(Marks(s, OfActivation(c)), Aborted);
    }
  }

  lemma DecidedOrdered(texts: Texts, s: Session, req: Activation, c: Uuid)
    requires Agrees(texts, s) && OrderedIn(s, c)
    ensures OrderedIn(Decided(texts, s, req).0, c)
  {
    var (store, result) := Climb(s.store, req);
    var climbed := s.(store := store);
    ClimbFrame(s.store, req);
    assert ExecutionAgrees(climbed) && OrderedIn(climbed, c);
    if result.awaitingVehicle && result.accepted {
      if req.kind.Activate? {
        ActivateStoredOrdered(texts, climbed, req.plan, c);
      } else {
        DeactivateOrdered(climbed, req, c);
      }
    }
  }

  lemma AnswerQuiet(req: Activation, result: Result, c: Uuid)
    ensures forall i :: 0 <= i < |Statuses(req, result)| ==> Picked(Statuses(req, result)[i], OfActivation(c)) == []
    ensures forall i :: 0 <= i < |DeactivationNews(req, result)| ==>
      Picked(DeactivationNews(req, result)[i], OfActivation(c)) == []
  {
  }

  lemma ActivationOrdered(texts: Texts, s: Session, req: Activation, c: Uuid)
    requires Agrees(texts, s) && OrderedIn(s, c)
    ensures OrderedIn(ActivationHandled(texts, s, req), c)
  {
    DecidedOrdered(texts, s, req, c);
    var (after, result) := Decided(texts, s, req);
    AnswerQuiet(req, result, c);
    SayQuiet(after, Statuses(req, result), OfActivation(c));
    SayQuiet(Say(after, Statuses(req, result)), DeactivationNews(req, result), OfActivation(c));
  }

  lemma UpdateOrdered(s: Session, u: Update, c: Uuid)
    requires ExecutionAgrees(s) && OrderedIn(s, c)
    ensures OrderedIn(Say(s, UpdateNews(s, u)), c)
  {
    var marks := Marks(s, OfActivation(c));
    UpdateMarks(s, u, OfActivation(c));
    assert marks + [] == marks;
    if s.exec.command == Some(c) {
      FollowOn(marks, s.exec.state.value);
    }
  }

  lemma AbortOrdered(s: Session, c: Uuid)
    requires ExecutionAgrees(s) && OrderedIn(s, c)
    ensures OrderedIn(Abort(s), c)
  {
    if s.exec.plan.Some? {
      AbortMarks(s, OfActivation(c));
      assert Marks(s, OfActivation(c)) + [] == Marks(s, OfActivation(c));
      if s.exec.command == Some(c) {
        FollowOn(Marks(s, OfActivation(c)), Aborted);
      }
    }
  }

  lemma FailsafeOrdered(texts: Texts, s: Session, response: Uuid, plan: Option<Uuid>, removed: bool, c: Uuid)
    requires OrderedIn(s, c)
    ensures OrderedIn(FailsafeReceived(texts, s, response, plan, removed), c)
  {
    var noted := s.(failsafe := FailsafePlan(Some(response), plan));
    var flown := if plan.Some? then ActivateStored(texts, noted, plan.value).0 else noted;
    assert OrderedIn(noted, c);
    if plan.Some? {
      ActivateStoredOrdered(texts, noted, plan.value, c);
    }
    SayQuiet(flown, [FailsafeNoted(response)], OfActivation(c));
  }

  lemma FamilyOrdered(s: Session, c: Uuid)
    requires ExecutionAgrees(s) && OrderedIn(s, c)
    ensures OrderedIn(WithFamily(s), c)
  {
    SayMarks(s, ExecutionFamily(s), OfActivation(c));
    FamilyMarks(s, OfActivation(c));
    if s.exec.command == Some(c) {
      FollowOn(Marks(s, OfActivation(c)), s.exec.state.value);
    }
  }

  lemma TickedOrdered(texts: Texts, s: Session, package: bool, c: Uuid)
    requires Agrees(texts, s) && OrderedIn(s, c)
    ensures OrderedIn(Ticked(s, package), c)
  {
    var inv := x => Agrees(texts, x) && OrderedIn(x, c);
    forall x, u | inv(x)
      ensures inv(Finishing(x, u)) && inv(Publishing(x, u)) && inv(Aborting(x, u)) && inv(Clearing(x, u))
    {
      EachPassKeeps(texts, x, u);
      UpdateOrdered(x, u, c);
      AbortOrdered(x, c);
    }
    UpdatesAppliedKeep(inv, s);
    assert inv(UpdatesApplied(s));
    FamilyOrdered(UpdatesApplied(s), c);
  }

  lemma NextOrdered(texts: Texts, s: Session, step: Step, c: Uuid)
    requires Agrees(texts, s) && OrderedIn(s, c)
    ensures OrderedIn(Next(texts, s, step), c)
  {
    match step {
      case Command(cmd) => CommandedMarks(s, cmd, OfActivation(c));
      case Activate(req) => ActivationOrdered(texts, s, req, c);
      case PlanText(xml) => PlanReceivedMarks(texts, s, xml, OfActivation(c));
      case Failsafe(response, plan, removed) => FailsafeOrdered(texts, s, response, plan, removed, c);
      case Tick(package) => TickedOrdered(texts, s, package, c);
      case _ =>
    }
  }

  /** For every activation in every run the published execution statuses are EXECUTING, then perhaps
      COMPLETED, then perhaps one FAILED, and nothing after it: across ticks, DEACTIVATE, the VI's
      own abort, and supersession by another route. */
  lemma {:induction false} ExecutionStatusesOrdered(texts: Texts, states: seq<Session>, steps: seq<Step>, k: nat,
    command: Uuid)
    requires SessionRuns.Run(texts, states, steps) && k < |states|
    ensures WellOrdered(Marks(states[k], OfActivation(command)))
    ensures OrderedIn(states[k], command)
  {
    if k == 0 {
    } else {
      AlwaysAgrees(texts, states, steps, k - 1);
      ExecutionStatusesOrdered(texts, states, steps, k - 1, command);
      NextOrdered(texts, states[k - 1], steps[k - 1], command);
    }
  }

  // ---- The ladder ------------------------------------------------------------------------------------------

  /** The mark `back` places before the last one. */
  predicate Latest(marks: seq<Mark>, back: nat, state: PlanState) {
    |marks| > back && marks[|marks| - 1 - back] == Ended(state)
  }

  predicate FullLadder(marks: seq<Mark>) {
    Latest(marks, 0, Activated) && Latest(marks, 1, ReadyForActivation) && Latest(marks, 2, Uploaded)
  }

  /** A plan stands on a rung only if the rungs below it were its latest accepted answers. */
  ghost predicate Climbed(state: Option<PlanState>, marks: seq<Mark>) {
    && (state == Some(Uploaded) ==> Latest(marks, 0, Uploaded))
    && (state == Some(ReadyForActivation) ==> Latest(marks, 0, ReadyForActivation) && Latest(marks, 1, Uploaded))
    && (state == Some(Activated) ==> FullLadder(marks))
  }

  ghost predicate ClimbedIn(s: Session, plan: Uuid) {
    Climbed(StateOf(s.store, plan), Marks(s, OfPlan(plan)))
  }

  lemma ClimbShape(store: Store, req: Activation)
    requires Climb(store, req).1.accepted
    ensures Table(req.kind).Some? && StateOf(store, req.plan) in Table(req.kind).value.from
    ensures req.plan in Climb(store, req).0.at
    ensures Climb(store, req).1.awaitingVehicle ==> req.kind.Activate? || req.kind.Deactivate?
    ensures !Climb(store, req).1.awaitingVehicle ==>
      && Climb(store, req).1.state == Table(req.kind).value.terminal
      && StateOf(Climb(store, req).0, req.plan) == Some(Table(req.kind).value.terminal)
  {
  }

  /** An accepted command takes its plan from one of its rung's from-states to the rung's end. */
  lemma AcceptedClimbs(texts: Texts, s: Session, req: Activation)
    requires Decided(texts, s, req).1.accepted
    ensures Table(req.kind).Some? && StateOf(s.store, req.plan) in Table(req.kind).value.from
    ensures Decided(texts, s, req).1.state == Table(req.kind).value.terminal
    ensures StateOf(Decided(texts, s, req).0.store, req.plan) == Some(Table(req.kind).value.terminal)
  {
    var climbed := s.(store := Climb(s.store, req).0);
    var result := Climb(s.store, req).1;
    ClimbShape(s.store, req);
    if !result.awaitingVehicle {
      assert Decided(texts, s, req) == (climbed, result);
    } else if req.kind.Activate? {
      var (after, ok) := ActivateStored(texts, climbed, req.plan);
      assert Decided(texts, s, req).0 == after && ok;
      ActivateStoredFrame(texts, climbed, req.plan, req.plan);
    } else {
      var (after, ok) := DeactivateVehicle(climbed, req);
      assert Decided(texts, s, req).0 == after && ok;
      DeactivateFrame(climbed, req, req.plan);
    }
  }

  /** Nothing but its answer reaches a plan's observer while a command is decided. */
  lemma DecidedMarks(texts: Texts, s: Session, req: Activation, plan: Uuid)
    requires ExecutionAgrees(s)
    ensures Marks(Decided(texts, s, req).0, OfPlan(plan)) == Marks(s, OfPlan(plan))
  {
    var climbed := s.(store := Climb(s.store, req).0);
    ActivateStoredMarks(texts, climbed, req.plan, OfPlan(plan));
    DeactivatePlanMarks(climbed, req, plan);
  }

  lemma DeactivatePlanMarks(s: Session, req: Activation, plan: Uuid)
    requires s.exec.plan.Some? <==> s.exec.command.Some?
    ensures Marks(DeactivateVehicle(s, req).0, OfPlan(plan)) == Marks(s, OfPlan(plan))
  {
    if s.exec.command.Some? {
      var r := Request(s.exec.command.value, Capability, Cancel, None, true);
      FailedFamilyMarks(s.(core := Submit(s.core, s.available, r, Own(s.next))), OfPlan(plan));
    }
  }

  /** The answer itself: one terminal per accepted command, and only to its own plan. */
  lemma AnswerMarks(s: Session, req: Activation, result: Result, plan: Uuid)
    ensures Marks(Say(Say(s, Statuses(req, result)), DeactivationNews(req, result)), OfPlan(plan)) ==
      Marks(s, OfPlan(plan)) + if result.accepted && plan == req.plan then [Ended(result.state)] else []
  {
    var lens := OfPlan(plan);
    var said := Say(s, Statuses(req, result));
    SayMarks(s, Statuses(req, result), lens);
    SayQuiet(said, DeactivationNews(req, result), lens);
    if result.accepted && result.emitPair {
      var answers := Statuses(req, result);
      CollectThree(answers[0], answers[1], answers[2], e => Picked(e, lens));
    } else {
      var answer := Statuses(req, result)[0];
      assert Statuses(req, result) == [answer] && [answer][..0] == [];
    }
  }

  lemma ActivationClimbs(texts: Texts, s: Session, req: Activation, plan: Uuid)
    requires Agrees(texts, s) && ClimbedIn(s, plan)
    ensures ClimbedIn(ActivationHandled(texts, s, req), plan)
  {
    var (after, result) := Decided(texts, s, req);
    DecidedMarks(texts, s, req, plan);
    DecidedFrame(texts, s, req, plan);
    if result.accepted {
      AcceptedClimbs(texts, s, req);
      if plan == req.plan {
        StepUp(StateOf(s.store, plan), Marks(s, OfPlan(plan)), req.kind);
      }
    } else {
      RejectedChangesNothing(texts, s, req);
    }
    AnswerMarks(after, req, result, plan);
    assert Marks(after, OfPlan(plan)) + [] == Marks(after, OfPlan(plan));
  }

  lemma StepUp(state: Option<PlanState>, marks: seq<Mark>, kind: CommandType)
    requires Climbed(state, marks) && Table(kind).Some? && state in Table(kind).value.from
    ensures Climbed(Some(Table(kind).value.terminal), marks + [Ended(Table(kind).value.terminal)])
  {
    var more := marks + [Ended(Table(kind).value.terminal)];
    assert forall i :: 0 <= i < |marks| ==> more[i] == marks[i];
  }

  lemma TickedClimbs(s: Session, package: bool, plan: Uuid)
    requires ClimbedIn(s, plan)
    ensures ClimbedIn(Ticked(s, package), plan)
  {
    var inv := x => ClimbedIn(x, plan);
    forall x, u | inv(x)
      ensures inv(Finishing(x, u)) && inv(Publishing(x, u)) && inv(Aborting(x, u)) && inv(Clearing(x, u))
    {
      UpdateMarks(x, u, OfPlan(plan));
      assert Marks(Publishing(x, u), OfPlan(plan)) == Marks(x, OfPlan(plan));
      AbortFrame(x, plan);
      if x.exec.plan.Some? {
        AbortMarks(x, OfPlan(plan));
      }
      assert Marks(Abort(x), OfPlan(plan)) == Marks(x, OfPlan(plan));
    }
    UpdatesAppliedKeep(inv, s);
    var applied := UpdatesApplied(s);
    assert inv(applied);
    SayMarks(applied, ExecutionFamily(applied), OfPlan(plan));
    FamilyMarks(applied, OfPlan(plan));
    assert Marks(applied, OfPlan(plan)) + [] == Marks(applied, OfPlan(plan));
  }

  lemma PlanReceivedState(texts: Texts, s: Session, xml: string, plan: Uuid)
    ensures var state := StateOf(PlanReceived(texts, s, xml).store, plan);
      state == StateOf(s.store, plan) || state == Some(ReadyForUpload)
  {
  }

  /** The step is a failsafe response that flies this plan past the ladder. */
  predicate Flies(texts: Texts, s: Session, step: Step, plan: Uuid) {
    && step.Failsafe? && !step.removed && step.plan == Some(plan) && s.available
    && Lookup(s.store, plan).Some? && texts.flyable(Lookup(s.store, plan).value.xml)
  }

  /** An available backend never refuses a stored, flyable plan. */
  lemma FlownExactly(texts: Texts, s: Session, plan: Uuid)
    requires FlightAgrees(s)
    ensures ActivateStored(texts, s, plan).1 <==>
      s.available && Lookup(s.store, plan).Some? && texts.flyable(Lookup(s.store, plan).value.xml)
  {
  }

  /** A failsafe response says nothing to a plan's observer, and moves the plan exactly when it flies it. */
  lemma FailsafeMoves(texts: Texts, s: Session, response: Uuid, flown: Option<Uuid>, removed: bool, plan: Uuid)
    requires FlightAgrees(s)
    ensures var x := FailsafeReceived(texts, s, response, flown, removed);
      && Marks(x, OfPlan(plan)) == Marks(s, OfPlan(plan))
      && StateOf(x.store, plan) ==
           if Flies(texts, s, Failsafe(response, flown, removed), plan) then Some(Activated) else StateOf(s.store, plan)
  {
    var noted := s.(failsafe := FailsafePlan(Some(response), flown));
    assert Marks(noted, OfPlan(plan)) == Marks(s, OfPlan(plan));
    if !removed && flown.Some? {
      var (after, ok) := ActivateStored(texts, noted, flown.value);
      FlownExactly(texts, noted, flown.value);
      ActivateStoredFrame(texts, noted, flown.value, plan);
      ActivateStoredMarks(texts, noted, flown.value, OfPlan(plan));
      SayQuiet(after, [FailsafeNoted(response)], OfPlan(plan));
      assert Marks(s, OfPlan(plan)) + [] == Marks(s, OfPlan(plan));
      if !ok {
        ActivateRefused(texts, noted, flown.value);
      }
    } else {
      SayQuiet(noted, [FailsafeNoted(response)], OfPlan(plan));
    }
  }

  /** Every step keeps the plan on a ladder it climbed, except exactly a failsafe response that flies it
      from anywhere but the top of a full ladder. */
  lemma NextClimbsExactly(texts: Texts, s: Session, step: Step, plan: Uuid)
    requires Agrees(texts, s) && ClimbedIn(s, plan)
    ensures ClimbedIn(Next(texts, s, step), plan)
      <==> (Flies(texts, s, step, plan) ==> FullLadder(Marks(s, OfPlan(plan))))
  {
    match step {
      case Command(cmd) => CommandedMarks(s, cmd, OfPlan(plan));
      case Activate(req) => ActivationClimbs(texts, s, req, plan);
      case PlanText(xml) =>
        PlanReceivedState(texts, s, xml, plan);
        PlanReceivedMarks(texts, s, xml, OfPlan(plan));
      case Failsafe(response, flown, removed) => FailsafeMoves(texts, s, response, flown, removed, plan);
      case Tick(package) => TickedClimbs(s, package, plan);
      case _ =>
    }
  }

  /** Up to step k every failsafe response that flew the plan found its ladder full. */
  ghost predicate FlownFromTheTop(texts: Texts, states: seq<Session>, steps: seq<Step>, k: nat, plan: Uuid)
    requires k <= |steps| < |states|
  {
    forall i :: 0 <= i < k && Flies(texts, states[i], steps[i], plan) ==> FullLadder(Marks(states[i], OfPlan(plan)))
  }

  ghost predicate ClimbedThrough(states: seq<Session>, k: nat, plan: Uuid)
    requires k < |states|
  {
    forall j :: 0 <= j <= k ==> ClimbedIn(states[j], plan)
  }

  lemma RunClimbsExactly(texts: Texts, states: seq<Session>, steps: seq<Step>, k: nat, plan: Uuid)
    requires SessionRuns.Run(texts, states, steps) && k < |steps| && ClimbedIn(states[k], plan)
    ensures ClimbedIn(states[k + 1], plan)
      <==> (Flies(texts, states[k], steps[k], plan) ==> FullLadder(Marks(states[k], OfPlan(plan))))
  {
    AlwaysAgrees(texts, states, steps, k);
    NextClimbsExactly(texts, states[k], steps[k], plan);
  }

  lemma BottomRung(texts: Texts, states: seq<Session>, steps: seq<Step>, plan: Uuid)
    requires SessionRuns.Run(texts, states, steps)
    ensures ClimbedIn(states[0], plan)
  {
  }

  /** What starts true and survives a step exactly when the step is safe holds throughout exactly when
      every step is safe. */
  lemma {:induction false} HoldsWhileSafe(holds: nat -> bool, safe: nat -> bool, k: nat)
    requires holds(0) && forall i: nat :: i < k && holds(i) ==> (holds(i + 1) <==> safe(i))
    ensures (forall j: nat :: j <= k ==> holds(j)) <==> (forall i: nat :: i < k ==> safe(i))
  {
    if k == 0 {
    } else {
      HoldsWhileSafe(holds, safe, k - 1);
      assert (forall j: nat :: j <= k ==> holds(j)) <==> (forall j: nat :: j <= k - 1 ==> holds(j)) && holds(k - 1 + 1);
      assert (forall i: nat :: i < k ==> safe(i)) <==> (forall i: nat :: i < k - 1 ==> safe(i)) && safe(k - 1);
    }
  }

  /** Over every run, the plan stands on a ladder it climbed at every point up to k if and only if every
      failsafe response that flew it by then found the ladder full already. */
  lemma LadderHoldsExactly(texts: Texts, states: seq<Session>, steps: seq<Step>, k: nat, plan: Uuid)
    requires SessionRuns.Run(texts, states, steps) && k < |states|
    ensures ClimbedThrough(states, k, plan) <==> FlownFromTheTop(texts, states, steps, k, plan)
  {
    var holds := (j: nat) => j < |states| && ClimbedIn(states[j], plan);
    var safe := (i: nat) =>
      i < |steps| && (Flies(texts, states[i], steps[i], plan) ==> FullLadder(Marks(states[i], OfPlan(plan))));
    BottomRung(texts, states, steps, plan);
    forall i: nat | i < k && holds(i)
      ensures holds(i + 1) <==> safe(i)
    {
      RunClimbsExactly(texts, states, steps, i, plan);
    }
    HoldsWhileSafe(holds, safe, k);
    if ClimbedThrough(states, k, plan) {
      forall i: nat | i < k ensures Flies(texts, states[i], steps[i], plan) ==>
        FullLadder(Marks(states[i], OfPlan(plan))) {
        assert safe(i);
      }
    } else {
      var j :| 0 <= j <= k && !ClimbedIn(states[j], plan);
      assert !holds(j);
      var i: nat :| i < k && !safe(i);
      assert !FlownFromTheTop(texts, states, steps, k, plan);
    }
  }

  /** So in such a run, and in particular without failsafe responses, a plan is ACTIVATED only if the latest
      commands accepted for it were UPLOAD, PREPARE_FOR_ACTIVATION and ACTIVATE, in that order and with
      nothing accepted between. */
  lemma ActivatedClimbedLadder(texts: Texts, states: seq<Session>, steps: seq<Step>, k: nat, plan: Uuid)
    requires SessionRuns.Run(texts, states, steps) && k < |states|
    requires FlownFromTheTop(texts, states, steps, k, plan)
    requires StateOf(states[k].store, plan) == Some(Activated)
    ensures FullLadder(Marks(states[k], OfPlan(plan)))
  {
    LadderHoldsExactly(texts, states, steps, k, plan);
    assert ClimbedIn(states[k], plan);
  }

  /** A failsafe response reaches ACTIVATED from the bottom rung, with no command accepted for the plan. */
  lemma FailsafeBypassesLadder(texts: Texts, xml: string, plan: Uuid, response: Uuid)
    returns (states: seq<Session>, steps: seq<Step>)
    requires texts.planId(xml) == Some(plan) && texts.flyable(xml)
    ensures SessionRuns.Run(texts, states, steps)
    ensures StateOf(states[|steps|].store, plan) == Some(Activated) && Marks(states[|steps|], OfPlan(plan)) == []
  {
    states, steps := TwoSteps(texts, FRESH, PlanText(xml), Failsafe(response, Some(plan), false));
    FailsafeFlies(texts, FRESH, xml, plan, response);
  }

  lemma TwoSteps(texts: Texts, s: Session, first: Step, second: Step) returns (states: seq<Session>, steps: seq<Step>)
    requires SessionRuns.Init(texts, s)
    ensures SessionRuns.Run(texts, states, steps) && |steps| == 2
    ensures states[2] == Next(texts, Next(texts, s, first), second)
  {
    var middle := Next(texts, s, first);
    states, steps := [s, middle, Next(texts, middle, second)], [first, second];
  }

  lemma FailsafeFlies(texts: Texts, s: Session, xml: string, plan: Uuid, response: Uuid)
    requires texts.planId(xml) == Some(plan) && texts.flyable(xml)
    requires s.available && s.flight.None?
    ensures var x := FailsafeReceived(texts, PlanReceived(texts, s, xml), response, Some(plan), false);
      StateOf(x.store, plan) == Some(Activated) && Marks(x, OfPlan(plan)) == Marks(s, OfPlan(plan))
  {
    PlanArrives(texts, s, xml, plan);
    FailsafeMoves(texts, PlanReceived(texts, s, xml), response, Some(plan), false, plan);
  }

  lemma PlanArrives(texts: Texts, s: Session, xml: string, plan: Uuid)
    requires texts.planId(xml) == Some(plan)
    ensures var x := PlanReceived(texts, s, xml);
      && x == s.(store := x.store, log := x.log)
      && Lookup(x.store, plan).Some? && Lookup(x.store, plan).value.xml == xml
      && Marks(x, OfPlan(plan)) == Marks(s, OfPlan(plan))
  {
    SayQuiet(s, [PlanStored(plan), FileLocation(plan), FileMetadata(plan)], OfPlan(plan));
  }
}
