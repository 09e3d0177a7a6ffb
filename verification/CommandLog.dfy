/** What each command is told over every run: one acceptance, then at most one terminal, then nothing but
    answers to CANCEL. */
module CommandLog {
  import opened Options
  import opened Logs
  import opened Lifecycle
  import opened Routes
  import opened Session
  import opened SessionRuns
  import opened SessionLog

  // ---- The order ---------------------------------------------------------------------------------------

  function Place(m: Mark): nat {
    if m.Told? && m.answer.AnsweredAccepted? then 0 else if m.Told? && m.answer.AnsweredTerminal? then 1 else 2
  }

  /** ACCEPTED at most once, a terminal at most once, and both before any CANCELED answer. */
  ghost predicate WellTold(marks: seq<Mark>) {
    forall i, j :: 0 <= i < j < |marks| ==> Place(marks[i]) < Place(marks[j]) || Place(marks[i]) == Place(marks[j]) == 2
  }

  ghost predicate Queued(pending: seq<Update>, c: Uuid) {
    exists i :: 0 <= i < |pending| && pending[i].command == c
  }

  ghost predicate JustAccepted(marks: seq<Mark>) {
    |marks| == 0 || (|marks| == 1 && Place(marks[0]) == 0)
  }

  /** A command the backend does not know was told nothing; one that is ACCEPTED, or whose terminal is
      still queued, was told at most that it was accepted; and a peer's known command was told that first. */
  ghost predicate ToldSoFar(core: Core, marks: seq<Mark>, c: Uuid) {
    && WellTold(marks)
    && (c !in core.commands ==> |marks| == 0)
    && (core.InState(c, Accepted) || Queued(core.pending, c) ==> JustAccepted(marks))
    && (c.Peer? && c in core.commands ==> |marks| > 0 && Place(marks[0]) == 0)
  }

  function Hears(told: bool, answer: Answer): seq<Mark> {
    if told then [Told(answer)] else []
  }

  /** An accepted command is told so, or, sent by the Isolator itself, is told nothing. */
  lemma AcceptTold(core: Core, marks: seq<Mark>, command: Uuid, activity: Uuid, isNew: bool, told: bool)
    requires ToldSoFar(core, marks, command) && command !in core.commands && (command.Peer? ==> told)
    requires PendingSound(core, [])
    ensures ToldSoFar(Accept(core, command, activity, isNew), marks + Hears(told, AnsweredAccepted), command)
  {
    var more := marks + Hears(told, AnsweredAccepted);
    assert |more| == if told then 1 else 0;
    assert told ==> more[0] == Told(AnsweredAccepted);
    assert !Queued(core.pending, command);
  }

  lemma AcceptSparesOthers(core: Core, marks: seq<Mark>, c: Uuid, command: Uuid, activity: Uuid, isNew: bool)
    requires ToldSoFar(core, marks, c) && c != command
    ensures ToldSoFar(Accept(core, command, activity, isNew), marks, c)
  {
    var core' := Accept(core, command, activity, isNew);
    assert core'.pending == core.pending && core'.InState(c, Accepted) == core.InState(c, Accepted);
  }

  lemma CancelTold(core: Core, marks: seq<Mark>, c: Uuid, command: Uuid, told: bool)
    requires ToldSoFar(core, marks, c) && PendingSound(core, []) && command in core.commands
    ensures PendingSound(CancelCommand(core, command), [])
    ensures ToldSoFar(CancelCommand(core, command), marks + Hears(c == command && told, AnsweredCanceled), c)
  {
    CancelKeepsSound(core, [], command);
    CancelQueue(core, c, command);
    CanceledTold(marks);
    assert marks + [] == marks;
  }

  lemma CancelQueue(core: Core, c: Uuid, command: Uuid)
    requires PendingSound(core, []) && command in core.commands
    ensures c == command ==>
      !Queued(CancelCommand(core, command).pending, c) && !CancelCommand(core, command).InState(c, Accepted)
    ensures Queued(CancelCommand(core, command).pending, c) ==> Queued(core.pending, c)
  {
    WithoutKeepsOthers(core.pending, command);
  }

  lemma CanceledTold(marks: seq<Mark>)
    requires WellTold(marks)
    ensures WellTold(marks + [Told(AnsweredCanceled)])
    ensures |marks| > 0 ==> (marks + [Told(AnsweredCanceled)])[0] == marks[0]
  {
  }

  lemma CompleteTold(core: Core, marks: seq<Mark>, c: Uuid, command: Uuid)
    requires ToldSoFar(core, marks, c) && PendingSound(core, [])
    ensures PendingSound(Complete(core, command), []) && ToldSoFar(Complete(core, command), marks, c)
  {
    CompleteKeepsSound(core, [], command);
  }

  lemma FailTold(core: Core, marks: seq<Mark>, c: Uuid, command: Uuid, state: CommandState)
    requires ToldSoFar(core, marks, c) && PendingSound(core, []) && !state.Accepted?
    ensures PendingSound(Fail(core, command, state, None), []) && ToldSoFar(Fail(core, command, state, None), marks, c)
  {
    FailKeepsSound(core, [], command, state, None);
  }

  /** The terminals told to c among the first k updates, c's own route sourcing apart. */
  function Terminals(updates: seq<Update>, c: Uuid, sourced: Option<Uuid>, k: nat): seq<Mark>
    requires k <= |updates|
  {
    if k == 0 then [] else
      Terminals(updates, c, sourced, k - 1)
      + if updates[k - 1].command == c && sourced != Some(c) then [Told(AnsweredTerminal(updates[k - 1].state))] else []
  }

  lemma {:induction false} OneTerminal(updates: seq<Update>, c: Uuid, sourced: Option<Uuid>, k: nat)
    requires k <= |updates| && forall i, j :: 0 <= i < j < |updates| ==> updates[i].command != updates[j].command
    ensures Terminals(updates, c, sourced, k) == [] || (
      && |Terminals(updates, c, sourced, k)| == 1 && Place(Terminals(updates, c, sourced, k)[0]) == 1
      && exists i :: 0 <= i < k && updates[i].command == c)
  {
    if k == 0 {
    } else {
      OneTerminal(updates, c, sourced, k - 1);
    }
  }

  lemma PollTold(core: Core, marks: seq<Mark>, c: Uuid, sourced: Option<Uuid>)
    requires ToldSoFar(core, marks, c) && PendingSound(core, [])
    ensures PendingSound(core.(pending := []), [])
    ensures ToldSoFar(core.(pending := []), marks + Terminals(core.pending, c, sourced, |core.pending|), c)
  {
    OneTerminal(core.pending, c, sourced, |core.pending|);
    LastWords(core, marks, c, Terminals(core.pending, c, sourced, |core.pending|));
  }

  lemma LastWords(core: Core, marks: seq<Mark>, c: Uuid, terminals: seq<Mark>)
    requires ToldSoFar(core, marks, c) && PendingSound(core, [])
    requires terminals == [] || (|terminals| == 1 && Place(terminals[0]) == 1 && Queued(core.pending, c))
    ensures ToldSoFar(core.(pending := []), marks + terminals, c)
  {
    if terminals == [] {
      assert marks + terminals == marks;
    } else {
      var i :| 0 <= i < |core.pending| && core.pending[i].command == c;
      assert core.InState(c, core.pending[i].state) && !core.pending[i].state.Accepted?;
      TerminalTold(marks, terminals[0]);
      assert marks + terminals == marks + [terminals[0]];
    }
  }

  lemma TerminalTold(marks: seq<Mark>, terminal: Mark)
    requires JustAccepted(marks) && Place(terminal) == 1
    ensures WellTold(marks + [terminal])
    ensures |marks| > 0 ==> (marks + [terminal])[0] == marks[0]
  {
  }

  // ---- Steps ---------------------------------------------------------------------------------------------

  ghost predicate OwnDrawn(core: Core, next: nat) {
    forall id :: id in core.commands && id.Own? ==> id.serial < next
  }

  ghost predicate KeptAt(core: Core, next: nat, marks: seq<Mark>, c: Uuid) {
    PendingSound(core, []) && OwnDrawn(core, next) && ToldSoFar(core, marks, c)
  }

  ghost predicate Kept(s: Session, c: Uuid) {
    KeptAt(s.core, s.next, Marks(s, OfCommand(c)), c)
  }

  /** A peer names a command of its own when it starts or replaces something. */
  ghost predicate FreshStep(s: Session, step: Step) {
    step.Command? && !(step.cmd.request.choice.Capability? && step.cmd.request.kind.Cancel?) ==>
      step.cmd.request.command.Peer? && step.cmd.request.command !in s.core.commands
  }

  /** What c hears when a command is answered so. */
  function Heard(command: Uuid, outcome: Outcome, c: Uuid): seq<Mark> {
    match outcome
    case Refused(_) => []
    case Stopped => Hears(c == command, AnsweredCanceled)
    case Started(_, _) => Hears(c == command, AnsweredAccepted)
  }

  function After(core: Core, command: Uuid, outcome: Outcome): Core {
    match outcome
    case Refused(_) => core
    case Stopped => CancelCommand(core, command)
    case Started(activity, isNew) => Accept(core, command, activity, isNew)
  }

  lemma AnswerMarks(s: Session, cmd: FlightCommand, c: Uuid)
    ensures Marks(Commanded(s, cmd), OfCommand(c)) ==
      Marks(s, OfCommand(c)) + Heard(cmd.request.command, Sent(s, cmd).1, c)
  {
    match Sent(s, cmd).1 {
      case Refused(_) => RefusalHeard(s, cmd, c);
      case Stopped => StopHeard(s, cmd, c);
      case Started(_, _) => StartHeard(s, cmd, c);
    }
  }

  lemma RefusalHeard(s: Session, cmd: FlightCommand, c: Uuid)
    requires Sent(s, cmd).1.Refused?
    ensures Marks(Commanded(s, cmd), OfCommand(c)) == Marks(s, OfCommand(c)) + []
  {
    var sent := Sent(s, cmd).0;
    SayQuiet(s, [CommandStatus(cmd.request.command, AnsweredRejected), SuggestTask(Own(sent.next))], OfCommand(c));
    assert Marks(s, OfCommand(c)) + [] == Marks(s, OfCommand(c));
  }

  lemma StopHeard(s: Session, cmd: FlightCommand, c: Uuid)
    requires Sent(s, cmd).1.Stopped?
    ensures Marks(Commanded(s, cmd), OfCommand(c)) ==
      Marks(s, OfCommand(c)) + Hears(c == cmd.request.command, AnsweredCanceled)
  {
    var status := CommandStatus(cmd.request.command, AnsweredCanceled);
    SayMarks(s, [status], OfCommand(c));
    CollectOne(status, e => Picked(e, OfCommand(c)));
  }

  lemma StartHeard(s: Session, cmd: FlightCommand, c: Uuid)
    requires Sent(s, cmd).1.Started?
    ensures Marks(Commanded(s, cmd), OfCommand(c)) ==
      Marks(s, OfCommand(c)) + Hears(c == cmd.request.command, AnsweredAccepted)
  {
    var sent, isNew := Sent(s, cmd).0, Sent(s, cmd).1.isNew;
    var status := CommandStatus(cmd.request.command, AnsweredAccepted);
    SayMarks(s, [status] + ActivityNews(sent.core, isNew), OfCommand(c));
    OneEvent(status, ActivityNews(sent.core, isNew), OfCommand(c));
  }

  lemma OneEvent(e: Event, rest: seq<Event>, lens: Lens)
    requires forall i :: 0 <= i < |rest| ==> Picked(rest[i], lens) == []
    ensures Select([e] + rest, lens) == Picked(e, lens)
  {
    SelectAppend([e], rest, lens);
    SelectQuiet(rest, lens);
    CollectOne(e, x => Picked(x, lens));
    assert Picked(e, lens) + [] == Picked(e, lens);
  }

  lemma CommandedCore(s: Session, cmd: FlightCommand)
    ensures var outcome := Sent(s, cmd).1;
      && Commanded(s, cmd).next >= s.next && Commanded(s, cmd).core == After(s.core, cmd.request.command, outcome)
      && (outcome.Stopped? ==> cmd.request.command in s.core.commands)
      && (outcome.Started? ==> !(cmd.request.choice.Capability? && cmd.request.kind.Cancel?))
  {
  }

  lemma AnswerKeptAt(core: Core, next: nat, next': nat, marks: seq<Mark>, command: Uuid, outcome: Outcome, c: Uuid)
    requires KeptAt(core, next, marks, c) && next <= next'
    requires outcome.Stopped? ==> command in core.commands
    requires outcome.Started? ==> command.Peer? && command !in core.commands
    ensures KeptAt(After(core, command, outcome), next', marks + Heard(command, outcome, c), c)
  {
    assert marks + [] == marks;
    match outcome {
      case Refused(_) =>
      case Stopped => CancelTold(core, marks, c, command, true);
      case Started(activity, isNew) =>
        AcceptKeepsSound(core, [], command, activity, isNew);
        if c == command {
          AcceptTold(core, marks, c, activity, isNew, true);
        } else {
          AcceptSparesOthers(core, marks, c, command, activity, isNew);
        }
    }
  }

  lemma CommandedKept(s: Session, cmd: FlightCommand, c: Uuid)
    requires Kept(s, c) && FreshStep(s, Command(cmd))
    ensures Kept(Commanded(s, cmd), c)
  {
    AnswerMarks(s, cmd, c);
    CommandedCore(s, cmd);
    var outcome := Sent(s, cmd).1;
    AnswerKeptAt(s.core, s.next, Commanded(s, cmd).next, Marks(s, OfCommand(c)), cmd.request.command, outcome, c);
  }

  lemma ActivateCore(texts: Texts, s: Session, plan: Uuid)
    ensures var x := ActivateStored(texts, s, plan).0;
      var outcome := Decide(s.core, s.available, RouteCommand(s, Own(s.next)), Own(s.next + 1));
      || (x.core == s.core && x.next >= s.next)
      || (outcome.Started? && x.core == Accept(s.core, Own(s.next), outcome.activity, outcome.isNew) &&
        x.next == s.next + 2)
  {
  }

  lemma ActivateKept(texts: Texts, s: Session, plan: Uuid, c: Uuid)
    requires Kept(s, c)
    ensures Kept(ActivateStored(texts, s, plan).0, c)
  {
    ActivateCore(texts, s, plan);
    ActivateStoredMarks(texts, s, plan, OfCommand(c));
    var marks := Marks(s, OfCommand(c));
    var outcome := Decide(s.core, s.available, RouteCommand(s, Own(s.next)), Own(s.next + 1));
    assert marks + [] == marks;
    if outcome.Started? {
      AcceptKeepsSound(s.core, [], Own(s.next), outcome.activity, outcome.isNew);
      if c == Own(s.next) {
        AcceptTold(s.core, marks, c, outcome.activity, outcome.isNew, false);
      } else {
        AcceptSparesOthers(s.core, marks, c, Own(s.next), outcome.activity, outcome.isNew);
      }
    }
  }

  lemma DeactivateCore(s: Session, req: Activation)
    ensures var x := DeactivateVehicle(s, req).0;
      x.next == s.next && (x.core == s.core
        || (s.exec.command.Some? && s.exec.command.value in s.core.commands &&
          x.core == CancelCommand(s.core, s.exec.command.value)))
  {
  }

  lemma DeactivateKept(s: Session, req: Activation, c: Uuid)
    requires Kept(s, c) && ExecutionAgrees(s)
    ensures Kept(DeactivateVehicle(s, req).0, c)
  {
    DeactivateCore(s, req);
    DeactivateMarks(s, req, OfCommand(c));
    var marks := Marks(s, OfCommand(c));
    assert marks + [] == marks;
    if s.exec.command.Some? && s.exec.command.value in s.core.commands {
      CancelTold(s.core, marks, c, s.exec.command.value, false);
    }
  }

  lemma DecidedKept(texts: Texts, s: Session, req: Activation, c: Uuid)
    requires Agrees(texts, s) && Kept(s, c)
    ensures Kept(Decided(texts, s, req).0, c)
  {
    var (store, result) := Climb(s.store, req);
    var climbed := s.(store := store);
    ClimbFrame(s.store, req);
    assert ExecutionAgrees(climbed) && Kept(climbed, c);
    if result.awaitingVehicle && result.accepted {
      if req.kind.Activate? {
        ActivateKept(texts, climbed, req.plan, c);
      } else {
        DeactivateKept(climbed, req, c);
      }
    }
  }

  lemma SayKept(s: Session, events: seq<Event>, c: Uuid)
    requires Kept(s, c) && forall i :: 0 <= i < |events| ==> !events[i].CommandStatus?
    ensures Kept(Say(s, events), c)
  {
    SayQuiet(s, events, OfCommand(c));
  }

  lemma ActivationKept(texts: Texts, s: Session, req: Activation, c: Uuid)
    requires Agrees(texts, s) && Kept(s, c)
    ensures Kept(ActivationHandled(texts, s, req), c)
  {
    DecidedKept(texts, s, req, c);
    var (after, result) := Decided(texts, s, req);
    SayKept(after, Statuses(req, result), c);
    SayKept(Say(after, Statuses(req, result)), DeactivationNews(req, result), c);
  }

  // ---- The tick --------------------------------------------------------------------------------------------

  lemma UpdateTold(s: Session, u: Update, c: Uuid)
    ensures Marks(Publishing(s, u), OfCommand(c)) == Marks(s, OfCommand(c)) +
      if u.command == c && s.exec.command != Some(c) then [Told(AnsweredTerminal(u.state))] else []
  {
    var lens := OfCommand(c);
    FamilyMarks(s, lens);
    var status := CommandStatus(u.command, AnsweredTerminal(u.state));
    if s.exec.IsSourced(u.command) {
      SayMarks(s, UpdateNews(s, u), lens);
      if u.state.Completed? {
        assert UpdateNews(s, u) == ActivityNews(s.core, false) + ExecutionFamily(s);
        SelectAppend(ActivityNews(s.core, false), ExecutionFamily(s), lens);
        SelectQuiet(ActivityNews(s.core, false), lens);
      }
    } else {
      var rest := if u.state.Completed? then ActivityNews(s.core, false) else [];
      assert UpdateNews(s, u) == [status] + rest;
      OneEvent(status, rest, lens);
      SayMarks(s, UpdateNews(s, u), lens);
    }
  }

  lemma {:induction false} PublishTold(s: Session, updates: seq<Update>, c: Uuid, k: nat)
    requires k <= |updates|
    ensures var x := Pass(Publishing, s, updates, k);
      && x == s.(log := x.log)
      && Marks(x, OfCommand(c)) == Marks(s, OfCommand(c)) + Terminals(updates, c, s.exec.command, k)
  {
    if k == 0 {
    } else {
      PublishTold(s, updates, c, k - 1);
      OneMoreTold(s, updates, c, k, Pass(Publishing, s, updates, k - 1));
    }
  }

  lemma OneMoreTold(s: Session, updates: seq<Update>, c: Uuid, k: nat, before: Session)
    requires 0 < k <= |updates| && before == s.(log := before.log)
    requires Marks(before, OfCommand(c)) == Marks(s, OfCommand(c)) + Terminals(updates, c, s.exec.command, k - 1)
    ensures var x := Publishing(before, updates[k - 1]);
      && x == s.(log := x.log)
      && Marks(x, OfCommand(c)) == Marks(s, OfCommand(c)) + Terminals(updates, c, s.exec.command, k)
  {
    UpdateTold(before, updates[k - 1], c);
  }

  /** The other passes tell commands nothing and leave the backend alone. */
  ghost predicate SameTelling(s: Session, x: Session, c: Uuid) {
    x.core == s.core && x.next == s.next && Marks(x, OfCommand(c)) == Marks(s, OfCommand(c))
  }

  lemma AbortTells(s: Session, c: Uuid)
    ensures SameTelling(s, Abort(s), c)
  {
    if s.exec.plan.Some? {
      AbortMarks(s, OfCommand(c));
      assert Marks(s, OfCommand(c)) + [] == Marks(s, OfCommand(c));
    }
  }

  lemma {:induction false} FinishingOnlyMarks(s: Session, updates: seq<Update>, k: nat)
    requires k <= |updates|
    ensures Pass(Finishing, s, updates, k) == s.(exec := Pass(Finishing, s, updates, k).exec)
    ensures Pass(Finishing, s, updates, k).exec.command == s.exec.command
  {
    if k == 0 {
    } else {
      FinishingOnlyMarks(s, updates, k - 1);
    }
  }

  lemma EachPassTells(published: Session, s: Session, u: Update, c: Uuid)
    requires SameTelling(published, s, c)
    ensures SameTelling(published, Aborting(s, u), c) && SameTelling(published, Clearing(s, u), c)
  {
    AbortTells(s, c);
  }

  lemma RestTells(published: Session, updates: seq<Update>, c: Uuid)
    ensures SameTelling(published, Pass(Clearing, Pass(Aborting, published, updates, |updates|), updates, |updates|), c)
  {
    var inv := x => SameTelling(published, x, c);
    forall x, u | inv(x)
      ensures inv(Aborting(x, u)) && inv(Clearing(x, u))
    {
      EachPassTells(published, x, u, c);
    }
    PassKeeps(inv, Aborting, published, updates, |updates|);
    PassKeeps(inv, Clearing, Pass(Aborting, published, updates, |updates|), updates, |updates|);
  }

  /** Polling empties the queue and tells each command its terminals. */
  lemma UpdatesTell(s: Session, c: Uuid)
    ensures UpdatesApplied(s).core == s.core.(pending := []) && UpdatesApplied(s).next == s.next
    ensures Marks(UpdatesApplied(s), OfCommand(c))
         == Marks(s, OfCommand(c)) + Terminals(s.core.pending, c, s.exec.command, |s.core.pending|)
  {
    var updates, n := s.core.pending, |s.core.pending|;
    var polled := s.(core := s.core.(pending := []));
    var finished := Pass(Finishing, polled, updates, n);
    FinishingOnlyMarks(polled, updates, n);
    PublishTold(finished, updates, c, n);
    RestTells(Pass(Publishing, finished, updates, n), updates, c);
  }

  lemma UpdatesAppliedKept(s: Session, c: Uuid)
    requires Kept(s, c)
    ensures Kept(UpdatesApplied(s), c)
  {
    UpdatesTell(s, c);
    PollTold(s.core, Marks(s, OfCommand(c)), c, s.exec.command);
  }

  lemma TickedKept(s: Session, package: bool, c: Uuid)
    requires Kept(s, c)
    ensures Kept(Ticked(s, package), c)
  {
    UpdatesAppliedKept(s, c);
    SayKept(UpdatesApplied(s), ExecutionFamily(UpdatesApplied(s)), c);
  }

  lemma FailsafeKept(texts: Texts, s: Session, response: Uuid, plan: Option<Uuid>, removed: bool, c: Uuid)
    requires Kept(s, c)
    ensures Kept(FailsafeReceived(texts, s, response, plan, removed), c)
  {
    var noted := s.(failsafe := FailsafePlan(Some(response), plan));
    var flown := if plan.Some? then ActivateStored(texts, noted, plan.value).0 else noted;
    assert Kept(noted, c);
    if plan.Some? {
      ActivateKept(texts, noted, plan.value, c);
    }
    SayKept(flown, [FailsafeNoted(response)], c);
  }

  lemma NextKept(texts: Texts, s: Session, step: Step, c: Uuid)
    requires Agrees(texts, s) && Kept(s, c) && FreshStep(s, step)
    ensures Kept(Next(texts, s, step), c)
  {
    match step {
      case Command(cmd) => CommandedKept(s, cmd, c);
      case Activate(req) => ActivationKept(texts, s, req, c);
      case PlanText(xml) => PlanReceivedMarks(texts, s, xml, OfCommand(c));
      case Failsafe(response, plan, removed) => FailsafeKept(texts, s, response, plan, removed, c);
      case BackendCompletes(command) => CompleteTold(s.core, Marks(s, OfCommand(c)), c, command);
      case BackendFails(command, canceled) =>
        FailTold(s.core, Marks(s, OfCommand(c)), c, command, if canceled then Canceled else Failed);
      case Readiness(_) =>
      case Tick(package) => TickedKept(s, package, c);
    }
  }

  /** In every run in which peers name each command once, every command is told in order: that it is
      accepted, at most once; its terminal, at most once; and only then answers to CANCEL. Refusals
      apart, a peer's command hears nothing before its acceptance. */
  lemma {:induction false} EachCommandToldInOrder(texts: Texts, states: seq<Session>, steps: seq<Step>, k: nat, c: Uuid)
    requires SessionRuns.Run(texts, states, steps) && k < |states|
    requires forall i :: 0 <= i < k ==> FreshStep(states[i], steps[i])
    ensures WellTold(Marks(states[k], OfCommand(c)))
    ensures c.Peer? && Marks(states[k], OfCommand(c)) != [] ==> Place(Marks(states[k], OfCommand(c))[0]) == 0
    ensures Kept(states[k], c)
  {
    if k == 0 {
    } else {
      AlwaysAgrees(texts, states, steps, k - 1);
      EachCommandToldInOrder(texts, states, steps, k - 1, c);
      NextKept(texts, states[k - 1], steps[k - 1], c);
    }
  }

  // ---- From the backend to the peer ------------------------------------------------------------------------

  lemma {:induction false} NoTerminal(updates: seq<Update>, c: Uuid, sourced: Option<Uuid>, k: nat)
    requires k <= |updates| && forall i :: 0 <= i < k ==> updates[i].command != c
    ensures Terminals(updates, c, sourced, k) == []
  {
    if k == 0 {
    } else {
      NoTerminal(updates, c, sourced, k - 1);
    }
  }

  lemma LastTerminal(updates: seq<Update>, last: Update, c: Uuid, sourced: Option<Uuid>)
    requires last.command == c && sourced != Some(c) && forall i :: 0 <= i < |updates| ==> updates[i].command != c
    ensures Terminals(updates + [last], c, sourced, |updates| + 1) == [Told(AnsweredTerminal(last.state))]
  {
    NoTerminal(updates + [last], c, sourced, |updates|);
  }

  /** What becomes in the backend of an ACCEPTED command that no route sent reaches its peer: once the backend
      completes, fails or cancels it, the next tick tells just that, and just once. */
  lemma TerminalReachesPeer(texts: Texts, s: Session, c: Uuid, step: Step, package: bool)
    requires PendingSound(s.core, []) && s.core.InState(c, Accepted) && s.exec.command != Some(c)
    requires step == BackendCompletes(c) || step == BackendFails(c, true) || step == BackendFails(c, false)
    ensures var state := if step.BackendCompletes? then Completed else if step.canceled then Canceled else Failed;
      var after := Ticked(Next(texts, s, step), package);
      && after.core.InState(c, state) && after.core.pending == []
      && Marks(after, OfCommand(c)) == Marks(s, OfCommand(c)) + [Told(AnsweredTerminal(state))]
  {
    var x := Next(texts, s, step);
    UpdatesTell(x, c);
    LastTerminal(s.core.pending, x.core.pending[|s.core.pending|], c, s.exec.command);
    SayQuiet(UpdatesApplied(x), ExecutionFamily(UpdatesApplied(x)), OfCommand(c));
  }
}
