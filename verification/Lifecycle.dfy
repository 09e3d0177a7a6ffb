/** The command lifecycle every vehicle backend offers the Isolator: submit, complete, fail, poll.
    `Core` is the state both backends share; the primitives are the only ways it changes. */
module Lifecycle {
  import opened Options

  datatype CommandState = Accepted | Completed | Failed | Canceled

  /** The current activity; `live` is false once it is reported COMPLETED. */
  datatype Activity = Activity(id: Uuid, live: bool)

  datatype Update = Update(command: Uuid, state: CommandState, activity: Option<Uuid>)

  datatype Core = Core(activity: Option<Activity>, commands: map<Uuid, CommandState>, pending: seq<Update>) {
    predicate Live() { activity.Some? && activity.value.live }

    predicate InState(command: Uuid, state: CommandState) { command in commands && commands[command] == state }
  }

  const EMPTY := Core(None, map[], [])

  datatype Choice = Capability | OfActivity
  datatype Kind = New | Replace | Cancel | OtherKind

  /** `valid` stands for the backend's own mode and payload checks. */
  datatype Request = Request(command: Uuid, choice: Choice, kind: Kind, activity: Option<Uuid>, valid: bool)

  datatype Reason =
    | Unavailable | NeedsUpdate | UnknownActivity | UnknownCommand | NeedsNewOrCancel | AlreadyLive | BadPayload

  datatype Outcome =
    | Refused(reason: Reason)
    | Started(activity: Uuid, isNew: bool)
    | Stopped

  /** What a submit answers, given the state it finds. `nextId` names the activity a NEW would start. */
  function Decide(c: Core, available: bool, r: Request, nextId: Uuid): Outcome {
    if !available then Refused(Unavailable)
    else if r.choice.OfActivity? then
      if !r.kind.Replace? then Refused(NeedsUpdate)
      else if !c.Live() || r.activity != Some(c.activity.value.id) then Refused(UnknownActivity)
      else if !r.valid then Refused(BadPayload)
      else Started(c.activity.value.id, false)
    else if r.kind.Cancel? then
      if r.command in c.commands then Stopped else Refused(UnknownCommand)
    else if !r.kind.New? then Refused(NeedsNewOrCancel)
    else if c.Live() then Refused(AlreadyLive)
    else if !r.valid then Refused(BadPayload)
    else Started(nextId, true)
  }

  // ---- Primitives ----------------------------------------------------------------------------------

  function Accept(c: Core, command: Uuid, activity: Uuid, isNew: bool): Core {
    c.(activity := if isNew then Some(Activity(activity, true)) else c.activity,
       commands := c.commands[command := Accepted])
  }

  function Without(pending: seq<Update>, command: Uuid): seq<Update> {
    if pending == [] then [] else
      var rest, last := Without(pending[..|pending| - 1], command), pending[|pending| - 1];
      if last.command == command then rest else rest + [last]
  }

  function CancelCommand(c: Core, command: Uuid): Core {
    Core(None, c.commands[command := Canceled], Without(c.pending, command))
  }

  function ActivityId(c: Core): Option<Uuid> {
    if c.activity.None? then None else Some(c.activity.value.id)
  }

  function Complete(c: Core, command: Uuid): Core {
    if !c.InState(command, Accepted) then c
    else Core(if c.activity.None? then None else Some(c.activity.value.(live := false)),
              c.commands[command := Completed],
              c.pending + [Update(command, Completed, ActivityId(c))])
  }

  function Fail(c: Core, command: Uuid, state: CommandState, activity: Option<Uuid>): Core {
    if !c.InState(command, Accepted) then c
    else Core(None, c.commands[command := state], c.pending + [Update(command, state, activity)])
  }

  function Submit(c: Core, available: bool, r: Request, nextId: Uuid): Core {
    match Decide(c, available, r, nextId)
    case Refused(_) => c
    case Started(activity, isNew) => Accept(c, r.command, activity, isNew)
    case Stopped => CancelCommand(c, r.command)
  }

  // ---- The invariant over whole histories ------------------------------------------------------------

  /** What the Isolator has seen: terminals returned by poll, and the return of each CANCEL. */
  datatype Seen = Polled(update: Update) | CancelReturned(command: Uuid)

  predicate Mentions(e: Seen, command: Uuid) {
    e.Polled? && e.update.command == command
  }

  /** Every queued terminal is its command's recorded state, at most one is queued for a command, and
      none for a command already polled. */
  ghost predicate PendingSound(c: Core, past: seq<Seen>) {
    && (forall i :: 0 <= i < |c.pending| ==>
          !c.pending[i].state.Accepted? && c.InState(c.pending[i].command, c.pending[i].state))
    && (forall i, j :: 0 <= i < j < |c.pending| ==> c.pending[i].command != c.pending[j].command)
    && (forall i, j :: 0 <= i < |c.pending| && 0 <= j < |past| ==> !Mentions(past[j], c.pending[i].command))
  }

  /** A command that was polled is past ACCEPTED; one whose CANCEL returned is CANCELED with nothing
      queued, and stays so. */
  ghost predicate PastSound(c: Core, past: seq<Seen>) {
    && (forall j :: 0 <= j < |past| && past[j].Polled? ==>
          past[j].update.command in c.commands && !c.commands[past[j].update.command].Accepted?)
    && (forall j :: 0 <= j < |past| && past[j].CancelReturned? ==>
          && c.InState(past[j].command, Canceled)
          && forall i :: 0 <= i < |c.pending| ==> c.pending[i].command != past[j].command)
  }

  /** Each command is polled at most once, and never after its CANCEL returned. */
  ghost predicate PastOrdered(past: seq<Seen>) {
    forall i, j :: 0 <= i < j < |past| && past[j].Polled? ==>
      !Mentions(past[i], past[j].update.command) && past[i] != CancelReturned(past[j].update.command)
  }

  ghost predicate Sound(c: Core, past: seq<Seen>) {
    PendingSound(c, past) && PastSound(c, past) && PastOrdered(past)
  }

  lemma AcceptKeepsSound(c: Core, past: seq<Seen>, command: Uuid, activity: Uuid, isNew: bool)
    requires Sound(c, past) && command !in c.commands
    ensures Sound(Accept(c, command, activity, isNew), past)
  {
  }

  lemma CompleteKeepsSound(c: Core, past: seq<Seen>, command: Uuid)
    requires Sound(c, past)
    ensures Sound(Complete(c, command), past)
  {
  }

  lemma FailKeepsSound(c: Core, past: seq<Seen>, command: Uuid, state: CommandState, activity: Option<Uuid>)
    requires Sound(c, past) && !state.Accepted?
    ensures Sound(Fail(c, command, state, activity), past)
  {
  }

  lemma {:induction false} WithoutKeepsOthers(pending: seq<Update>, command: Uuid)
    requires forall i, j :: 0 <= i < j < |pending| ==> pending[i].command != pending[j].command
    ensures var kept := Without(pending, command);
      && (forall i :: 0 <= i < |kept| ==> kept[i] in pending && kept[i].command != command)
      && (forall u :: u in pending && u.command != command ==> u in kept)
      && (forall i, j :: 0 <= i < j < |kept| ==> kept[i].command != kept[j].command)
  {
    if pending == [] {
    } else {
      WithoutKeepsOthers(pending[..|pending| - 1], command);
    }
  }

  lemma CancelKeepsSound(c: Core, past: seq<Seen>, command: Uuid)
    requires Sound(c, past)
    ensures Sound(CancelCommand(c, command), past + [CancelReturned(command)])
  {
    WithoutKeepsOthers(c.pending, command);
  }

  function AsPolled(pending: seq<Update>): seq<Seen> {
    seq(|pending|, i requires 0 <= i < |pending| => Polled(pending[i]))
  }

  lemma PollKeepsSound(c: Core, past: seq<Seen>)
    requires Sound(c, past)
    ensures Sound(c.(pending := []), past + AsPolled(c.pending))
  {
  }

  // ---- Runs of the abstract machine --------------------------------------------------------------------

  datatype Op =
    | Submitting(available: bool, request: Request, nextId: Uuid)
    | Completing(command: Uuid)
    | Failing(command: Uuid, state: CommandState, activity: Option<Uuid>)
    | Polling

  function Step(c: Core, op: Op): Core {
    match op
    case Submitting(available, r, nextId) => Submit(c, available, r, nextId)
    case Completing(command) => Complete(c, command)
    case Failing(command, state, activity) => Fail(c, command, state, activity)
    case Polling => c.(pending := [])
  }

  predicate Run(cores: seq<Core>, ops: seq<Op>) {
    |cores| == |ops| + 1 && forall i :: 0 <= i < |ops| ==> cores[i + 1] == Step(cores[i], ops[i])
  }

  /** For as long as an activity stays live its id does not change, whatever is submitted. */
  lemma {:induction false} ActivityIdStable(cores: seq<Core>, ops: seq<Op>, i: nat, j: nat)
    requires Run(cores, ops) && i <= j < |cores|
    requires forall k :: i <= k <= j ==> cores[k].Live()
    ensures cores[i].activity == cores[j].activity
    decreases j - i
  {
    if i < j {
      ActivityIdStable(cores, ops, i, j - 1);
      assert cores[j - 1 + 1] == Step(cores[j - 1], ops[j - 1]);
    }
  }

  /** A step that puts an id into the live activity without one being live before is an accepted NEW. */
  lemma OnlyNewGoesLive(c: Core, op: Op)
    requires !c.Live() && Step(c, op).Live()
    ensures op.Submitting? && op.request.kind.New? && op.request.choice.Capability? && op.available && op.request.valid
    ensures Step(c, op).activity == Some(Activity(op.nextId, true))
  {
  }
}
