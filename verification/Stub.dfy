/** The in-process backend, `platform/stub.py`: accepts or refuses at once, and completes or fails a
    command when told to. */
module Stub {
  import opened Options
  import opened Dicts
  import opened Lifecycle

  /** The backend's record of commands, oldest first. */
  type Ledger = d: Dict<Uuid, CommandState> | d.Valid() witness Dict([], map[])

  /** The command `complete` and `fail` take when none is named: the oldest still ACCEPTED. */
  function FirstAccepted(keys: seq<Uuid>, states: map<Uuid, CommandState>): Option<Uuid> {
    if keys == [] then None
    else if keys[0] in states && states[keys[0]].Accepted? then Some(keys[0])
    else FirstAccepted(keys[1..], states)
  }

  /** It is the earliest such command, and there is one exactly when any command is ACCEPTED. */
  lemma {:induction false} FirstAcceptedIsFirst(keys: seq<Uuid>, states: map<Uuid, CommandState>)
    ensures FirstAccepted(keys, states).None? <==>
      forall i :: 0 <= i < |keys| ==> !(keys[i] in states && states[keys[i]].Accepted?)
    ensures FirstAccepted(keys, states).Some? ==> exists i ::
      && 0 <= i < |keys| && FirstAccepted(keys, states) == Some(keys[i]) && keys[i] in states &&
        states[keys[i]].Accepted?
      && forall j :: 0 <= j < i ==> !(keys[j] in states && states[keys[j]].Accepted?)
  {
    if keys != [] && !(keys[0] in states && states[keys[0]].Accepted?) {
      FirstAcceptedIsFirst(keys[1..], states);
      assert forall i :: 1 <= i < |keys| ==> keys[i] == keys[1..][i - 1];
    }
  }

  function Target(named: Option<Uuid>, commands: Ledger): Option<Uuid> {
    if named.Some? then named else FirstAccepted(commands.keys, commands.at)
  }

  class StubPlatform {
    var available: bool
    var activity: Option<Activity>
    var commands: Ledger
    var pending: seq<Update>

    function Core(): Core
      reads this
    {
      Lifecycle.Core(activity, commands.at, pending)
    }

    constructor ()
      ensures available && Core() == EMPTY
    {
      available := true;
      activity := None;
      commands := Dict([], map[]);
      pending := [];
    }

    method SetReadiness(ready: bool)
      modifies this`available
      ensures available == ready
    {
      available := ready;
    }

    method SubmitFlightCommand(r: Request, nextId: Uuid) returns (outcome: Outcome)
      modifies this`activity, this`commands, this`pending
      ensures outcome == Decide(old(Core()), available, r, nextId)
      ensures Core() == Submit(old(Core()), available, r, nextId)
    {
      if !available {
        return Refused(Unavailable);
      }
      if r.choice.OfActivity? {
        outcome := SubmitActivity(r);
        return;
      }
      if r.kind.Cancel? {
        if r.command in commands.at {
          commands := commands.Put(r.command, Canceled);
          activity := None;
          pending := Without(pending, r.command);
          return Stopped;
        }
        return Refused(UnknownCommand);
      }
      if !r.kind.New? {
        return Refused(NeedsNewOrCancel);
      }
      if activity.Some? && activity.value.live {
        return Refused(AlreadyLive);
      }
      if !r.valid {
        return Refused(BadPayload);
      }
      activity := Some(Activity(nextId, true));
      commands := commands.Put(r.command, Accepted);
      return Started(nextId, true);
    }

    method SubmitActivity(r: Request) returns (outcome: Outcome)
      requires available && r.choice.OfActivity?
      modifies this`commands
      ensures forall nextId :: outcome == Decide(old(Core()), true, r, nextId)
      ensures forall nextId :: Core() == Submit(old(Core()), true, r, nextId)
    {
      if !r.kind.Replace? {
        return Refused(NeedsUpdate);
      }
      if activity.None? || !activity.value.live || r.activity != Some(activity.value.id) {
        return Refused(UnknownActivity);
      }
      if !r.valid {
        return Refused(BadPayload);
      }
      commands := commands.Put(r.command, Accepted);
      return Started(activity.value.id, false);
    }

    method CompleteFlightCommand(named: Option<Uuid>) returns (done: Option<Uuid>)
      modifies this`activity, this`commands, this`pending
      ensures var target := Target(named, old(commands));
        done == if target.Some? && old(Core()).InState(target.value, Accepted) then target else None
      ensures Core() == if done.Some? then Complete(old(Core()), done.value) else old(Core())
    {
      var target := Target(named, commands);
      if target.None? || !(target.value in commands.at && commands.at[target.value].Accepted?) {
        return None;
      }
      commands := commands.Put(target.value, Completed);
      var id := None;
      if activity.Some? {
        id := Some(activity.value.id);
        activity := Some(activity.value.(live := false));
      }
      pending := pending + [Update(target.value, Completed, id)];
      return target;
    }

    method FailFlightCommand(named: Option<Uuid>, state: CommandState) returns (done: Option<Uuid>)
      requires (state.Failed? || state.Canceled?)
      modifies this`activity, this`commands, this`pending
      ensures var target := Target(named, old(commands));
        done == if target.Some? && old(Core()).InState(target.value, Accepted) then target else None
      ensures Core() == if done.Some? then Fail(old(Core()), done.value, state, None) else old(Core())
    {
      var target := Target(named, commands);
      if target.None? || !(target.value in commands.at && commands.at[target.value].Accepted?) {
        return None;
      }
      commands := commands.Put(target.value, state);
      activity := None;
      pending := pending + [Update(target.value, state, None)];
      return target;
    }

    method PollCommandUpdates() returns (updates: seq<Update>)
      modifies this`pending
      ensures updates == old(pending) && Core() == old(Core()).(pending := [])
    {
      updates := pending;
      pending := [];
    }
  }
}
