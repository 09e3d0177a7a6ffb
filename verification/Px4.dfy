/** The PX4 backend's command state, `platform/px4/adapter.py`: the Isolator thread, execution
    threads that may outlive the join meant to end them, and the MAVLink reader all share it under
    one lock, so each critical section is one step. */
module Px4 {
  import opened Options
  import opened Lifecycle

  /** What the lock guards, beyond the lifecycle core. */
  datatype Shared = Shared(core: Core, active: Option<Uuid>, lastSeq: Option<int>)

  // ---- Critical sections -----------------------------------------------------------------------------

  function AcceptSection(s: Shared, command: Uuid, activity: Uuid, isNew: bool): Shared {
    s.(core := Accept(s.core, command, activity, isNew), active := Some(command))
  }

  /** Forget the active command if it is the one that just ended. */
  function Released(s: Shared, command: Uuid, core: Core): Shared {
    if s.active == Some(command) then Shared(core, None, None) else s.(core := core)
  }

  function CancelSection(s: Shared, command: Uuid): Shared {
    Released(s, command, CancelCommand(s.core, command))
  }

  function FailSection(s: Shared, command: Uuid, activity: Uuid): Shared {
    if !s.core.InState(command, Accepted) then s
    else Released(s, command, Fail(s.core, command, Failed, Some(activity)))
  }

  function ReachedSection(s: Shared, seqNo: int): Shared {
    if s.active.None? || s.lastSeq.None? || seqNo < s.lastSeq.value || !s.core.InState(s.active.value, Accepted) then s
    else Shared(Complete(s.core, s.active.value), None, None)
  }

  class Px4Adapter {
    var linkUp: bool
    var activity: Option<Activity>
    var commands: map<Uuid, CommandState>
    var pending: seq<Update>
    var active: Option<Uuid>
    var lastSeq: Option<int>

    function View(): Shared
      reads this
    {
      Shared(Core(activity, commands, pending), active, lastSeq)
    }

    constructor (linkUp: bool)
      ensures this.linkUp == linkUp && View() == Shared(EMPTY, None, None)
    {
      this.linkUp := linkUp;
      activity, commands, pending, active, lastSeq := None, map[], [], None, None;
    }

    method AcceptLocked(command: Uuid, id: Uuid, isNew: bool)
      modifies this`activity, this`commands, this`active
      ensures View() == AcceptSection(old(View()), command, id, isNew)
    {
      if isNew {
        activity := Some(Activity(id, true));
      }
      commands := commands[command := Accepted];
      active := Some(command);
    }

    method CancelLocked(command: Uuid)
      modifies this`activity, this`commands, this`pending, this`active, this`lastSeq
      ensures View() == CancelSection(old(View()), command)
    {
      commands := commands[command := Canceled];
      activity := None;
      if active == Some(command) {
        active, lastSeq := None, None;
      }
      pending := Without(pending, command);
    }

    method FailLocked(command: Uuid, id: Uuid)
      modifies this`activity, this`commands, this`pending, this`active, this`lastSeq
      ensures View() == FailSection(old(View()), command, id)
    {
      if !(command in commands && commands[command].Accepted?) {
        return;
      }
      commands := commands[command := Failed];
      activity := None;
      if active == Some(command) {
        active, lastSeq := None, None;
      }
      pending := pending + [Update(command, Failed, Some(id))];
    }

    method MaybeCompleteMissionLocked(seqNo: int)
      modifies this`activity, this`commands, this`pending, this`active, this`lastSeq
      ensures View() == ReachedSection(old(View()), seqNo)
    {
      if active.None? || lastSeq.None? || seqNo < lastSeq.value {
        return;
      }
      var command := active.value;
      if !(command in commands && commands[command].Accepted?) {
        return;
      }
      commands := commands[command := Completed];
      var id := None;
      if activity.Some? {
        id := Some(activity.value.id);
        activity := Some(activity.value.(live := false));
      }
      pending := pending + [Update(command, Completed, id)];
      active, lastSeq := None, None;
    }

    method PollCommandUpdates() returns (updates: seq<Update>)
      modifies this`pending
      ensures updates == old(pending) && View() == old(View()).(core := old(View()).core.(pending := []))
    {
      updates := pending;
      pending := [];
    }

    /** With nothing in between its sections a submit is the abstract one: the same answer, and the
        same effect on the lifecycle core, as any other backend. */
    method SubmitFlightCommand(r: Request, nextId: Uuid) returns (outcome: Outcome)
      modifies this`activity, this`commands, this`pending, this`active, this`lastSeq
      ensures outcome == Decide(old(View()).core, linkUp, r, nextId)
      ensures View().core == Submit(old(View()).core, linkUp, r, nextId)
      ensures outcome.Started? ==> active == Some(r.command)
    {
      if !linkUp {
        return Refused(Unavailable);
      }
      if r.choice.OfActivity? {
        if !r.kind.Replace? {
          return Refused(NeedsUpdate);
        }
        var live := activity;
        if live.None? || !live.value.live || r.activity != Some(live.value.id) {
          return Refused(UnknownActivity);
        }
        if !r.valid {
          return Refused(BadPayload);
        }
        AcceptLocked(r.command, live.value.id, false);
        return Started(live.value.id, false);
      }
      if r.kind.Cancel? {
        if r.command in commands {
          CancelLocked(r.command);
          return Stopped;
        }
        return Refused(UnknownCommand);
      }
      if !r.kind.New? {
        return Refused(NeedsNewOrCancel);
      }
      var live := activity;
      if live.Some? && live.value.live {
        return Refused(AlreadyLive);
      }
      if !r.valid {
        return Refused(BadPayload);
      }
      AcceptLocked(r.command, nextId, true);
      return Started(nextId, true);
    }
  }

  /** Seen through the core, every critical section outside a submit is a step of the abstract
      machine or no step at all. */
  lemma SectionsRefine(s: Shared, command: Uuid, activity: Uuid, seqNo: int)
    ensures FailSection(s, command, activity).core == Step(s.core, Failing(command, Failed, Some(activity)))
    ensures ReachedSection(s, seqNo).core == s.core
         || (s.active.Some? && ReachedSection(s, seqNo).core == Step(s.core, Completing(s.active.value)))
  {
  }

  // ---- Interleavings -----------------------------------------------------------------------------------

  /** Where the Isolator thread is inside `submit_flight_command`. */
  datatype ViPc =
    | Idle
    | ReadLive(r: Request, nextId: Uuid)
    | JoinThenAccept(r: Request, activity: Uuid, isNew: bool)
    | AcceptNext(r: Request, activity: Uuid, isNew: bool)
    | SpawnNext(command: Uuid, activity: Uuid)
    | JoinThenCancel(command: Uuid)
    | CancelNext(command: Uuid)

  datatype Runner = Runner(command: Uuid, activity: Uuid, done: bool)

  datatype System = System(shared: Shared, vi: ViPc, runners: seq<Runner>, past: seq<Seen>)

  datatype Action =
    | BeginSubmit(r: Request, nextId: Uuid, available: bool)
    | ViStep
    | PollUpdates
    | RunnerSetsSeq(i: nat, lastSeq: Option<int>)  // mission uploaded, or an offboard hold taking over
    | RunnerFails(i: nat)
    | RunnerEnds(i: nat)                         // finished, or cancelled
    | ItemReached(seqNo: int)

  predicate IsCancel(r: Request) { r.choice.Capability? && r.kind.Cancel? }

  /** The one assumption on callers: a command that starts or replaces something has an id of its own. */
  predicate Enabled(s: System, a: Action) {
    match a
    case BeginSubmit(r, _, _) => s.vi.Idle? && (!IsCancel(r) ==> r.command !in s.shared.core.commands)
    case ViStep => !s.vi.Idle?
    case PollUpdates => s.vi.Idle?
    case RunnerSetsSeq(i, _) => i < |s.runners| && !s.runners[i].done
    case RunnerFails(i) => i < |s.runners| && !s.runners[i].done
    case RunnerEnds(i) => i < |s.runners| && !s.runners[i].done
    case ItemReached(_) => true
  }

  function Apply(s: System, a: Action): System
    requires Enabled(s, a)
  {
    match a
    case BeginSubmit(r, nextId, available) => s.(vi := Entered(s, r, nextId, available))
    case ViStep => Advance(s)
    case PollUpdates =>
      s.(shared := s.shared.(core := s.shared.core.(pending := [])), past := s.past + AsPolled(s.shared.core.pending))
    case RunnerSetsSeq(i, lastSeq) => s.(shared := s.shared.(lastSeq := lastSeq))
    case RunnerFails(i) =>
      s.(shared := FailSection(s.shared, s.runners[i].command, s.runners[i].activity),
         runners := s.runners[i := s.runners[i].(done := true)])
    case RunnerEnds(i) => s.(runners := s.runners[i := s.runners[i].(done := true)])
    case ItemReached(seqNo) => s.(shared := ReachedSection(s.shared, seqNo))
  }

  /** The checks before the first section that matters; a refusal returns at once. */
  function Entered(s: System, r: Request, nextId: Uuid, available: bool): ViPc {
    if !available then Idle
    else if IsCancel(r) then (if r.command in s.shared.core.commands then JoinThenCancel(r.command) else Idle)
    else if r.choice.OfActivity? then (if r.kind.Replace? then ReadLive(r, nextId) else Idle)
    else if r.kind.New? then ReadLive(r, nextId)
    else Idle
  }

  /** The join may time out with its runner still alive, so it places no condition on the runners. */
  function Advance(s: System): System
    requires !s.vi.Idle?
  {
    match s.vi
    case ReadLive(r, nextId) =>
      s.(vi := match Decide(s.shared.core, true, r, nextId)
        case Started(activity, isNew) => JoinThenAccept(r, activity, isNew)
        case _ => Idle)
    case JoinThenAccept(r, activity, isNew) => s.(vi := AcceptNext(r, activity, isNew))
    case AcceptNext(r, activity, isNew) =>
      s.(shared := AcceptSection(s.shared, r.command, activity, isNew), vi := SpawnNext(r.command, activity))
    case SpawnNext(command, activity) => s.(runners := s.runners + [Runner(command, activity, false)], vi := Idle)
    case JoinThenCancel(command) => s.(vi := CancelNext(command))
    case CancelNext(command) =>
      s.(shared := CancelSection(s.shared, command), past := s.past + [CancelReturned(command)], vi := Idle)
  }

  predicate Init(s: System) {
    s == System(Shared(EMPTY, None, None), Idle, [], [])
  }

  predicate Run(states: seq<System>, actions: seq<Action>) {
    && |states| == |actions| + 1
    && Init(states[0])
    && forall i :: 0 <= i < |actions| ==>
      Enabled(states[i], actions[i]) && states[i + 1] == Apply(states[i], actions[i])
  }

  ghost predicate LiveIsAccepted(s: Shared) {
    s.core.Live() ==> s.active.Some? && s.core.InState(s.active.value, Accepted)
  }

  /** A submit in progress keeps its command new, and what it read stays true or its activity is over. */
  ghost predicate SubmitSound(s: System) {
    match s.vi
    case ReadLive(r, _) => r.command !in s.shared.core.commands && !IsCancel(r)
    case JoinThenAccept(r, activity, isNew) => AboutToAccept(s.shared.core, r, activity, isNew)
    case AcceptNext(r, activity, isNew) => AboutToAccept(s.shared.core, r, activity, isNew)
    case JoinThenCancel(command) => command in s.shared.core.commands
    case CancelNext(command) => command in s.shared.core.commands
    case _ => true
  }

  ghost predicate AboutToAccept(c: Core, r: Request, activity: Uuid, isNew: bool) {
    && r.command !in c.commands && r.valid
    && (isNew <==> r.choice.Capability?) && (if isNew then r.kind.New? else r.kind.Replace?)
    && (isNew ==> !c.Live())
    && (!isNew ==> r.activity == Some(activity) && (c.Live() ==> c.activity.value.id == activity))
  }

  ghost predicate Inv(s: System) {
    Sound(s.shared.core, s.past) && LiveIsAccepted(s.shared) && SubmitSound(s)
  }

  lemma StepKeepsSound(s: System, a: Action)
    requires Inv(s) && Enabled(s, a)
    ensures Sound(Apply(s, a).shared.core, Apply(s, a).past)
  {
    var c := s.shared.core;
    match a {
      case PollUpdates => PollKeepsSound(c, s.past);
      case RunnerFails(i) => FailKeepsSound(c, s.past, s.runners[i].command, Failed, Some(s.runners[i].activity));
      case ItemReached(seqNo) =>
        if s.shared.active.Some? { CompleteKeepsSound(c, s.past, s.shared.active.value); }
      case ViStep =>
        if s.vi.AcceptNext? { AcceptKeepsSound(c, s.past, s.vi.r.command, s.vi.activity, s.vi.isNew); }
        else if s.vi.CancelNext? { CancelKeepsSound(c, s.past, s.vi.command); }
      case _ =>
    }
  }

  lemma StepKeepsLive(s: System, a: Action)
    requires Inv(s) && Enabled(s, a)
    ensures LiveIsAccepted(Apply(s, a).shared)
  {
  }

  lemma StepKeepsSubmit(s: System, a: Action)
    requires Inv(s) && Enabled(s, a)
    ensures SubmitSound(Apply(s, a))
  {
  }

  lemma {:induction false} RunInv(states: seq<System>, actions: seq<Action>, k: nat)
    requires Run(states, actions) && k < |states|
    ensures Inv(states[k])
  {
    if k == 0 {
    } else {
      RunInv(states, actions, k - 1);
      StepKeepsSound(states[k - 1], actions[k - 1]);
      StepKeepsLive(states[k - 1], actions[k - 1]);
      StepKeepsSubmit(states[k - 1], actions[k - 1]);
    }
  }

  // ---- What every interleaving guarantees ---------------------------------------------------------------

  /** A live activity always has an active command, and that command is ACCEPTED. */
  lemma LiveActivityHasCommand(states: seq<System>, actions: seq<Action>, k: nat)
    requires Run(states, actions) && k < |states| && states[k].shared.core.Live()
    ensures states[k].shared.active.Some?
    ensures states[k].shared.core.InState(states[k].shared.active.value, Accepted)
  {
    RunInv(states, actions, k);
  }

  /** Every terminal waiting to be polled is what its command's record says. */
  lemma PendingMatchesRecord(states: seq<System>, actions: seq<Action>, k: nat, u: Update)
    requires Run(states, actions) && k < |states| && u in states[k].shared.core.pending
    ensures !u.state.Accepted? && states[k].shared.core.InState(u.command, u.state)
  {
    RunInv(states, actions, k);
  }

  /** Each command is polled at most once. */
  lemma PolledAtMostOnce(states: seq<System>, actions: seq<Action>, k: nat, i: nat, j: nat)
    requires Run(states, actions) && k < |states| && i < j < |states[k].past|
    requires states[k].past[i].Polled? && states[k].past[j].Polled?
    ensures states[k].past[i].update.command != states[k].past[j].update.command
  {
    RunInv(states, actions, k);
  }

  /** Nothing is polled for a command after its CANCEL returned, stale runners notwithstanding. */
  lemma NothingAfterCancel(states: seq<System>, actions: seq<Action>, k: nat, i: nat, j: nat)
    requires Run(states, actions) && k < |states| && i < j < |states[k].past|
    requires states[k].past[i].CancelReturned? && states[k].past[j].Polled?
    ensures states[k].past[j].update.command != states[k].past[i].command
  {
    RunInv(states, actions, k);
  }

  /** When the accept section of a submit comes, a NEW is exactly what it would be if the whole submit
      were one step taken now. A replacement is that exactly when its activity is still live: the
      check and the accept are separate sections, and a terminal can fall between them. */
  lemma AcceptIsAtomic(states: seq<System>, actions: seq<Action>, k: nat)
    requires Run(states, actions) && k < |states| && states[k].vi.AcceptNext?
    ensures var vi, c := states[k].vi, states[k].shared.core;
      Accept(c, vi.r.command, vi.activity, vi.isNew) == Submit(c, true, vi.r, vi.activity) <==> (vi.isNew || c.Live())
  {
    RunInv(states, actions, k);
    var vi, c := states[k].vi, states[k].shared.core;
    assert vi.r.command in Accept(c, vi.r.command, vi.activity, vi.isNew).commands;
  }

  /** In every interleaving the activity id is constant for as long as the activity stays live. */
  lemma {:induction false} ActivityIdStable(states: seq<System>, actions: seq<Action>, i: nat, j: nat)
    requires Run(states, actions) && i <= j < |states|
    requires forall k :: i <= k <= j ==> states[k].shared.core.Live()
    ensures states[i].shared.core.activity == states[j].shared.core.activity
    decreases j
  {
    if i == j {
    } else {
      ActivityIdStable(states, actions, i, j - 1);
      RunInv(states, actions, j - 1);
      assert states[j] == Apply(states[j - 1], actions[j - 1]);
    }
  }

  // ---- The abstract machine behind an interleaving --------------------------------------------------------

  /** The step is the accept section of a replacement whose activity is over. */
  predicate LateAccept(s: System, a: Action) {
    a.ViStep? && s.vi.AcceptNext? && !s.vi.isNew && !s.shared.core.Live()
  }

  /** The abstract operation of a step, if it changes the core at all. */
  function OpOf(s: System, a: Action): Option<Op>
    requires Enabled(s, a)
  {
    match a
    case ViStep =>
      if s.vi.AcceptNext? then Some(Submitting(true, s.vi.r, s.vi.activity))
      else if s.vi.CancelNext? then Some(Submitting(true, Request(s.vi.command, Capability, Cancel, None, true),
        Own(0)))
      else None
    case PollUpdates => Some(Polling)
    case RunnerFails(i) => Some(Failing(s.runners[i].command, Failed, Some(s.runners[i].activity)))
    case ItemReached(seqNo) =>
      if s.shared.active.Some? && s.shared.lastSeq.Some? && seqNo >= s.shared.lastSeq.value
      then Some(Completing(s.shared.active.value)) else None
    case _ => None
  }

  /** Every step of every interleaving is one operation of the abstract machine or none, unless it is a
      late accept: poll, cancel and accept included. */
  lemma StepRefines(s: System, a: Action)
    requires Inv(s) && Enabled(s, a) && !LateAccept(s, a)
    ensures Apply(s, a).shared.core ==
      match OpOf(s, a) { case None => s.shared.core case Some(op) => Lifecycle.Step(s.shared.core, op) }
  {
  }

  /** So a run without late accepts is, seen through its core, a run of the abstract machine. */
  lemma {:induction false} RunRefines(states: seq<System>, actions: seq<Action>, k: nat)
    returns (cores: seq<Core>, ops: seq<Op>)
    requires Run(states, actions) && k < |states| && forall i :: 0 <= i < k ==> !LateAccept(states[i], actions[i])
    ensures Lifecycle.Run(cores, ops) && cores[0] == EMPTY && cores[|ops|] == states[k].shared.core
  {
    if k == 0 {
      cores, ops := [EMPTY], [];
    } else {
      cores, ops := RunRefines(states, actions, k - 1);
      RunInv(states, actions, k - 1);
      StepRefines(states[k - 1], actions[k - 1]);
      var op := OpOf(states[k - 1], actions[k - 1]);
      if op.Some? {
        cores, ops := cores + [states[k].shared.core], ops + [op.value];
      }
    }
  }

  lemma Extend(states: seq<System>, actions: seq<Action>, a: Action)
    returns (states': seq<System>, actions': seq<Action>)
    requires Run(states, actions) && Enabled(states[|actions|], a)
    ensures Run(states', actions') && states'[|actions'|] == Apply(states[|actions|], a)
  {
    states', actions' := states + [Apply(states[|actions|], a)], actions + [a];
  }

  /** A run to an activity in flight with its mission uploaded. */
  lemma MissionInFlight() returns (states: seq<System>, actions: seq<Action>)
    ensures Run(states, actions)
    ensures states[|actions|] == System(
      Shared(Core(Some(Activity(Own(0), true)), map[Peer(1) := Accepted], []), Some(Peer(1)), Some(1)),
      Idle, [Runner(Peer(1), Own(0), false)], [])
  {
    var r := Request(Peer(1), Capability, New, None, true);
    states, actions := [System(Shared(EMPTY, None, None), Idle, [], [])], [];
    states, actions := Extend(states, actions, BeginSubmit(r, Own(0), true));
    states, actions := Extend(states, actions, ViStep);
    assert states[|actions|].vi == JoinThenAccept(r, Own(0), true);
    states, actions := Extend(states, actions, ViStep);
    states, actions := Extend(states, actions, ViStep);
    assert states[|actions|].vi == SpawnNext(Peer(1), Own(0));
    states, actions := Extend(states, actions, ViStep);
    states, actions := Extend(states, actions, RunnerSetsSeq(0, Some(1)));
  }

  /** Such a run exists: a replacement passes its check, the mission it would replace completes, and
      the replacement is then accepted for an activity that is over. */
  lemma ReplacementAfterCompletion() returns (states: seq<System>, actions: seq<Action>)
    ensures Run(states, actions)
    ensures var last := states[|actions|]; last.vi.AcceptNext? && !last.vi.isNew && !last.shared.core.Live()
  {
    var r := Request(Peer(2), OfActivity, Replace, Some(Own(0)), true);
    states, actions := MissionInFlight();
    states, actions := Extend(states, actions, BeginSubmit(r, Own(1), true));
    states, actions := Extend(states, actions, ViStep);
    assert states[|actions|].vi == JoinThenAccept(r, Own(0), false);
    states, actions := Extend(states, actions, ViStep);
    states, actions := Extend(states, actions, ItemReached(1));
  }

  // ---- Sections composed -----------------------------------------------------------------------------------

  function SectionsLeft(vi: ViPc): nat {
    match vi
    case Idle => 0
    case ReadLive(_, _) => 4
    case JoinThenAccept(_, _, _) => 3
    case AcceptNext(_, _, _) | JoinThenCancel(_) => 2
    case SpawnNext(_, _) | CancelNext(_) => 1
  }

  /** The Isolator thread alone, to the end of its submit. */
  function ViAlone(s: System): System
    decreases SectionsLeft(s.vi)
  {
    if s.vi.Idle? then s else ViAlone(Advance(s))
  }

  /** A submit that nothing interrupts is, section by section, the abstract one: the core is what `Submit` makes of
      it; a CANCEL returns exactly when `Decide` stops something; and something started has its runner. */
  lemma SubmitAlone(s: System, r: Request, nextId: Uuid, available: bool)
    requires Enabled(s, BeginSubmit(r, nextId, available))
    ensures var end := ViAlone(Apply(s, BeginSubmit(r, nextId, available)));
      var outcome := Decide(s.shared.core, available, r, nextId);
      && end.vi.Idle? && end.shared.core == Submit(s.shared.core, available, r, nextId)
      && end.past == s.past + (if outcome.Stopped? then [CancelReturned(r.command)] else [])
      && end.runners == s.runners + (if outcome.Started? then [Runner(r.command, outcome.activity, false)] else [])
      && end.shared.active ==
         (if outcome.Started? then Some(r.command)
          else if outcome.Stopped? && s.shared.active == Some(r.command) then None else s.shared.active)
      && end.shared.lastSeq ==
         (if outcome.Stopped? && s.shared.active == Some(r.command) then None else s.shared.lastSeq)
  {
    var s0 := Apply(s, BeginSubmit(r, nextId, available));
    if s0.vi.JoinThenCancel? {
      assert ViAlone(s0) == ViAlone(Advance(Advance(s0))) == Advance(Advance(s0));
    } else if s0.vi.ReadLive? {
      var s1 := Advance(s0);
      assert ViAlone(s0) == ViAlone(s1);
      if s1.vi.JoinThenAccept? {
        StartAlone(s1);
      }
    }
  }

  lemma StartAlone(s: System)
    requires s.vi.JoinThenAccept?
    ensures ViAlone(s) == s.(
      shared := AcceptSection(s.shared, s.vi.r.command, s.vi.activity, s.vi.isNew), vi := Idle,
      runners := s.runners + [Runner(s.vi.r.command, s.vi.activity, false)])
  {
    assert ViAlone(s) == ViAlone(Advance(s)) == ViAlone(Advance(Advance(s)));
    assert ViAlone(Advance(Advance(s))) == Advance(Advance(Advance(s)));
  }

  /** A CANCEL of a known command on its way, or back since there were `returned` entries in the past. */
  ghost predicate CancelUnderWay(s: System, command: Uuid, returned: nat) {
    || s.vi == JoinThenCancel(command) || s.vi == CancelNext(command)
    || (returned <= |s.past| && CancelReturned(command) in s.past[returned..])
  }

  lemma CancelGoesOn(s: System, a: Action, command: Uuid, returned: nat)
    requires Enabled(s, a) && returned <= |s.past| && CancelUnderWay(s, command, returned)
    ensures returned <= |Apply(s, a).past| && CancelUnderWay(Apply(s, a), command, returned)
  {
    var past, past' := s.past, Apply(s, a).past;
    assert past <= past';
    assert past'[returned..] == past[returned..] + past'[|past|..];
    if s.vi == CancelNext(command) && a.ViStep? {
      assert past'[|past|] == CancelReturned(command);
      assert CancelReturned(command) in past'[|past|..];
    }
  }

  /** In every interleaving a CANCEL of a known command, the link up, is obeyed: once the Isolator thread is idle
      again that CANCEL has returned, and the command is CANCELED from then on with no terminal of it queued,
      whatever runners and reader do meanwhile. */
  lemma {:induction false} CancelIsObeyed(states: seq<System>, actions: seq<Action>, i: nat, j: nat)
    requires Run(states, actions) && i < j < |states|
    requires actions[i].BeginSubmit? && actions[i].available && IsCancel(actions[i].r)
    requires actions[i].r.command in states[i].shared.core.commands
    ensures |states[i].past| <= |states[j].past|
    ensures CancelUnderWay(states[j], actions[i].r.command, |states[i].past|)
    ensures states[j].vi.Idle? ==>
      && CancelReturned(actions[i].r.command) in states[j].past[|states[i].past|..]
      && states[j].shared.core.InState(actions[i].r.command, Canceled)
      && forall u :: u in states[j].shared.core.pending ==> u.command != actions[i].r.command
    decreases j
  {
    if i + 1 == j {
      assert states[j] == Apply(states[i], actions[i]);
    } else {
      CancelIsObeyed(states, actions, i, j - 1);
      CancelGoesOn(states[j - 1], actions[j - 1], actions[i].r.command, |states[i].past|);
    }
    RunInv(states, actions, j);
  }

  /** What reading the live activity decided to start, on its way or begun: accepted, with a runner of its own. */
  ghost predicate StartUnderWay(s: System, r: Request, activity: Uuid) {
    || (s.vi.JoinThenAccept? && s.vi.r == r && s.vi.activity == activity)
    || (s.vi.AcceptNext? && s.vi.r == r && s.vi.activity == activity)
    || (s.vi == SpawnNext(r.command, activity) && r.command in s.shared.core.commands)
    || (&& r.command in s.shared.core.commands
        && exists i :: 0 <= i < |s.runners| && s.runners[i].command == r.command && s.runners[i].activity == activity)
  }

  lemma StartGoesOn(s: System, a: Action, r: Request, activity: Uuid)
    requires Enabled(s, a) && StartUnderWay(s, r, activity)
    ensures StartUnderWay(Apply(s, a), r, activity)
  {
    var s' := Apply(s, a);
    assert r.command in s.shared.core.commands ==> r.command in s'.shared.core.commands;
    assert forall i :: 0 <= i < |s.runners| ==>
      s'.runners[i].command == s.runners[i].command && s'.runners[i].activity == s.runners[i].activity;
    if s.vi == SpawnNext(r.command, activity) && a.ViStep? {
      assert s'.runners[|s.runners|] == Runner(r.command, activity, false);
    }
  }

  /** In every interleaving what the check decides to start is started: once the Isolator thread is idle again the
      command is on record and a runner has been given that command and that activity. */
  lemma {:induction false} StartIsCarriedOut(states: seq<System>, actions: seq<Action>, i: nat, j: nat)
    requires Run(states, actions) && i < j < |states| && states[i].vi.ReadLive? && actions[i].ViStep?
    requires Decide(states[i].shared.core, true, states[i].vi.r, states[i].vi.nextId).Started?
    ensures StartUnderWay(states[j], states[i].vi.r,
      Decide(states[i].shared.core, true, states[i].vi.r, states[i].vi.nextId).activity)
    decreases j
  {
    if i + 1 == j {
      assert states[j] == Apply(states[i], actions[i]);
    } else {
      StartIsCarriedOut(states, actions, i, j - 1);
      StartGoesOn(states[j - 1], actions[j - 1], states[i].vi.r,
        Decide(states[i].shared.core, true, states[i].vi.r, states[i].vi.nextId).activity);
    }
  }

  /** In every interleaving an item reached ends a live activity exactly when it is the mission's last or past it;
      then the active command is COMPLETED and that is queued to be told. */
  lemma MissionEndsExactly(states: seq<System>, actions: seq<Action>, k: nat)
    requires Run(states, actions) && k < |actions| && actions[k].ItemReached? && states[k].shared.core.Live()
    ensures !states[k + 1].shared.core.Live()
      <==> states[k].shared.lastSeq.Some? && actions[k].seqNo >= states[k].shared.lastSeq.value
    ensures states[k + 1].shared.core.Live() ==> states[k + 1] == states[k]
    ensures !states[k + 1].shared.core.Live() ==>
      && states[k].shared.active.Some? && states[k + 1].shared.active.None?
      && states[k + 1].shared.core.InState(states[k].shared.active.value, Completed)
      && states[k + 1].shared.core.pending == states[k].shared.core.pending
           + [Update(states[k].shared.active.value, Completed, Some(states[k].shared.core.activity.value.id))]
  {
    RunInv(states, actions, k);
  }
}
