/** Who controls the vehicle: acquire, steal, release and the VI's own revocation, with the statuses and
    assignments each publishes, `isolator/handlers/control.py`. */
module Control {
  import opened Options

  /** The request type after upper-casing. */
  datatype RequestType = Acquire | Release | Steal | AssignSteal | Unsupported

  datatype ControlRequest = ControlRequest(
    request: Uuid, kind: RequestType, controlType: string, choice: string,
    system: Option<Uuid>, service: Option<Uuid>, controllee: Option<Uuid>, capability: Option<Uuid>)

  datatype Processing = Queued | InProgress | Completed | Rejected | Canceled
  datatype Change = NewAssignment | RemovedAssignment
  datatype Controller = Controller(system: Uuid, service: Option<Uuid>, controlType: string, choice: string)

  datatype Event =
    | RequestStatus(request: Uuid, state: Processing)
    | Assignment(change: Change, controller: Controller, controllee: Uuid, capability: Uuid)

  /** The five control fields of the session state. */
  datatype Held = Held(
    system: Option<Uuid>, service: Option<Uuid>, controlType: Option<string>, choice: Option<string>,
      request: Option<Uuid>)

  const NOTHING := Held(None, None, None, None, None)

  /** This vehicle's own id and the capability it offers. */
  datatype Identity = Identity(system: Uuid, capability: Uuid)

  datatype Desk = Desk(held: Held, log: seq<Event>)

  // ---- What each step does to the fields and the log -------------------------------------------------

  function Said(d: Desk, e: Event): Desk {
    d.(log := d.log + [e])
  }

  function Laddered(d: Desk, request: Uuid): Desk {
    Said(Said(Said(d, RequestStatus(request, Queued)), RequestStatus(request, InProgress)),
      RequestStatus(request, Completed))
  }

  function Or<T>(o: Option<T>, fallback: T): T {
    if o.Some? then o.value else fallback
  }

  /** Python's `or` on optional text: the empty string falls back too. */
  function OrText(o: Option<string>, fallback: string): string {
    if o.Some? && o.value != "" then o.value else fallback
  }

  predicate Steals(kind: RequestType) {
    kind.Steal? || kind.AssignSteal?
  }

  function Acquired(me: Identity, d: Desk, req: ControlRequest, system: Uuid): Desk {
    if d.held.system.Some? && d.held.system != Some(system) && !Steals(req.kind)
    then Said(d, RequestStatus(req.request, Rejected))
    else
      var held := Held(Some(system), req.service, Some(req.controlType), Some(req.choice), Some(req.request));
      Said(Laddered(d.(held := held), req.request),
           Assignment(NewAssignment, Controller(system, req.service, req.controlType, req.choice),
                      Or(req.controllee, me.system), Or(req.capability, me.capability)))
  }

  function Released(me: Identity, d: Desk, req: ControlRequest, system: Uuid): Desk {
    if d.held.system != Some(system) then Said(d, RequestStatus(req.request, Rejected))
    else
      var controller := Controller(system, req.service, OrText(d.held.controlType, req.controlType), req.choice);
      Said(Laddered(d, req.request),
           Assignment(RemovedAssignment, controller, Or(req.controllee, me.system), Or(req.capability, me.capability)))
      .(held := NOTHING)
  }

  /** A request that does not parse, or names no request id, is dropped. */
  function Requested(me: Identity, d: Desk, inbound: Option<ControlRequest>): Desk {
    if inbound.None? then d
    else
      var req := inbound.value;
      if req.system.None? then Said(d, RequestStatus(req.request, Rejected))
      else if req.kind.Release? then Released(me, d, req, req.system.value)
      else if req.kind.Unsupported? then Said(d, RequestStatus(req.request, Rejected))
      else Acquired(me, d, req, req.system.value)
  }

  function Unpaired(me: Identity, d: Desk): Desk {
    if d.held.system.None? || d.held.request.None? then d
    else
      var controller := Controller(d.held.system.value, d.held.service,
        OrText(d.held.controlType, "CAPABILITY_PRIMARY"), OrText(d.held.choice, "GrantedControlType"));
      Said(Said(d, RequestStatus(d.held.request.value, Canceled)),
           Assignment(RemovedAssignment, controller, me.system, me.capability)).(held := NOTHING)
  }

  function Ticked(me: Identity, d: Desk, available: bool): Desk {
    if available then d else Unpaired(me, d)
  }

  class ControlDesk {
    const me: Identity
    var system: Option<Uuid>
    var service: Option<Uuid>
    var controlType: Option<string>
    var choice: Option<string>
    var request: Option<Uuid>
    var log: seq<Event>

    ghost function View(): Desk
      reads this
    {
      Desk(Held(system, service, controlType, choice, request), log)
    }

    constructor (me: Identity)
      ensures this.me == me && View() == Desk(NOTHING, [])
    {
      this.me := me;
      system, service, controlType, choice, request := None, None, None, None, None;
      log := [];
    }

    method Publish(e: Event)
      modifies this`log
      ensures View() == Said(old(View()), e)
    {
      log := log + [e];
    }

    method PublishStatusLadder(request: Uuid)
      modifies this`log
      ensures View() == Laddered(old(View()), request)
    {
      Publish(RequestStatus(request, Queued));
      Publish(RequestStatus(request, InProgress));
      Publish(RequestStatus(request, Completed));
    }

    method Clear()
      modifies this
      ensures View() == old(View()).(held := NOTHING)
    {
      system, service, controlType, choice, request := None, None, None, None, None;
    }

    method HandleAcquire(req: ControlRequest, controller: Uuid)
      modifies this
      ensures View() == Acquired(me, old(View()), req, controller)
    {
      if system.Some? && system != Some(controller) && !Steals(req.kind) {
        Publish(RequestStatus(req.request, Rejected));
        return;
      }
      system, service := Some(controller), req.service;
      controlType, choice, request := Some(req.controlType), Some(req.choice), Some(req.request);
      PublishStatusLadder(req.request);
      Publish(Assignment(NewAssignment, Controller(controller, req.service, req.controlType, req.choice),
                         Or(req.controllee, me.system), Or(req.capability, me.capability)));
    }

    method HandleRelease(req: ControlRequest, controller: Uuid)
      modifies this
      ensures View() == Released(me, old(View()), req, controller)
    {
      if system.None? || system != Some(controller) {
        Publish(RequestStatus(req.request, Rejected));
        return;
      }
      var kept := OrText(controlType, req.controlType);
      PublishStatusLadder(req.request);
      Publish(Assignment(RemovedAssignment, Controller(controller, req.service, kept, req.choice),
                         Or(req.controllee, me.system), Or(req.capability, me.capability)));
      Clear();
    }

    method Handle(inbound: Option<ControlRequest>)
      modifies this
      ensures View() == Requested(me, old(View()), inbound)
    {
      if inbound.None? {
        return;
      }
      var req := inbound.value;
      if req.system.None? {
        Publish(RequestStatus(req.request, Rejected));
      } else if req.kind.Release? {
        HandleRelease(req, req.system.value);
      } else if req.kind.Unsupported? {
        Publish(RequestStatus(req.request, Rejected));
      } else {
        HandleAcquire(req, req.system.value);
      }
    }

    method UnpairIfUnavailable(available: bool) returns (unpaired: bool)
      modifies this
      ensures View() == Ticked(me, old(View()), available)
      ensures unpaired <==> !available && old(system).Some? && old(request).Some?
    {
      if available || system.None? || request.None? {
        return false;
      }
      var controller := Controller(system.value, service,
        OrText(controlType, "CAPABILITY_PRIMARY"), OrText(choice, "GrantedControlType"));
      Publish(RequestStatus(request.value, Canceled));
      Publish(Assignment(RemovedAssignment, controller, me.system, me.capability));
      Clear();
      return true;
    }
  }

  // ---- An observer of the log alone -------------------------------------------------------------------

  datatype Holding = Holding(controller: Controller, request: Uuid)

  /** The last request seen COMPLETED, and the controller in force with the request that gave it control. */
  datatype Observed = Observed(approved: Option<Uuid>, holding: Option<Holding>)

  function Noted(o: Observed, e: Event): Observed {
    match e
    case RequestStatus(r, state) => if state.Completed? then o.(approved := Some(r)) else o
    case Assignment(change, controller, _, _) =>
      if change.RemovedAssignment? || o.approved.None? then o.(holding := None)
      else o.(holding := Some(Holding(controller, o.approved.value)))
  }

  function Observe(log: seq<Event>): Observed {
    if log == [] then Observed(None, None) else Noted(Observe(log[..|log| - 1]), log[|log| - 1])
  }

  /** What an entry may claim, given what was seen before it: an assignment follows an approval, a
      removal names the holder, and a CANCELED status names the request the holder acquired with. */
  predicate Honest(o: Observed, e: Event) {
    match e
    case RequestStatus(r, state) => state.Canceled? ==> o.holding.Some? && r == o.holding.value.request
    case Assignment(change, controller, _, _) =>
      if change.NewAssignment? then o.approved.Some?
      else o.holding.Some? && controller.system == o.holding.value.controller.system
  }

  ghost predicate AllHonest(log: seq<Event>) {
    log == [] || (AllHonest(log[..|log| - 1]) && Honest(Observe(log[..|log| - 1]), log[|log| - 1]))
  }

  function HeldOf(holding: Option<Holding>): Held {
    if holding.None? then NOTHING
    else
      var c := holding.value.controller;
      Held(Some(c.system), c.service, Some(c.controlType), Some(c.choice), Some(holding.value.request))
  }

  /** The five stored fields are exactly what the log says, and the log is honest throughout. */
  ghost predicate Tracks(d: Desk) {
    d.held == HeldOf(Observe(d.log).holding) && AllHonest(d.log)
  }

  lemma SaidHonest(d: Desk, e: Event)
    requires AllHonest(d.log) && Honest(Observe(d.log), e)
    ensures AllHonest(Said(d, e).log) && Observe(Said(d, e).log) == Noted(Observe(d.log), e)
  {
    assert (d.log + [e])[..|d.log + [e]| - 1] == d.log;
  }

  lemma LadderedHonest(d: Desk, request: Uuid)
    requires AllHonest(d.log)
    ensures AllHonest(Laddered(d, request).log) && Laddered(d, request).held == d.held
    ensures Observe(Laddered(d, request).log) == Observe(d.log).(approved := Some(request))
  {
    var d1 := Said(d, RequestStatus(request, Queued));
    var d2 := Said(d1, RequestStatus(request, InProgress));
    SaidHonest(d, RequestStatus(request, Queued));
    SaidHonest(d1, RequestStatus(request, InProgress));
    SaidHonest(d2, RequestStatus(request, Completed));
  }

  lemma AcquiredTracks(me: Identity, d: Desk, req: ControlRequest, system: Uuid)
    requires Tracks(d)
    ensures Tracks(Acquired(me, d, req, system))
  {
    SaidHonest(d, RequestStatus(req.request, Rejected));
    var held := Held(Some(system), req.service, Some(req.controlType), Some(req.choice), Some(req.request));
    var taken := d.(held := held);
    LadderedHonest(taken, req.request);
    SaidHonest(Laddered(taken, req.request),
               Assignment(NewAssignment, Controller(system, req.service, req.controlType, req.choice),
                          Or(req.controllee, me.system), Or(req.capability, me.capability)));
  }

  lemma ReleasedTracks(me: Identity, d: Desk, req: ControlRequest, system: Uuid)
    requires Tracks(d)
    ensures Tracks(Released(me, d, req, system))
  {
    SaidHonest(d, RequestStatus(req.request, Rejected));
    if d.held.system == Some(system) {
      var controller := Controller(system, req.service, OrText(d.held.controlType, req.controlType), req.choice);
      LadderedHonest(d, req.request);
      SaidHonest(Laddered(d, req.request),
                 Assignment(RemovedAssignment, controller, Or(req.controllee, me.system),
                   Or(req.capability, me.capability)));
    }
  }

  lemma UnpairedTracks(me: Identity, d: Desk)
    requires Tracks(d)
    ensures Tracks(Unpaired(me, d)) && Unpaired(me, d).held == NOTHING
  {
    if d.held.system.Some? {
      var controller := Controller(d.held.system.value, d.held.service,
        OrText(d.held.controlType, "CAPABILITY_PRIMARY"), OrText(d.held.choice, "GrantedControlType"));
      SaidHonest(d, RequestStatus(d.held.request.value, Canceled));
      SaidHonest(Said(d, RequestStatus(d.held.request.value, Canceled)),
                 Assignment(RemovedAssignment, controller, me.system, me.capability));
    }
  }

  lemma RequestedTracks(me: Identity, d: Desk, inbound: Option<ControlRequest>)
    requires Tracks(d)
    ensures Tracks(Requested(me, d, inbound))
  {
    if inbound.Some? {
      var req := inbound.value;
      SaidHonest(d, RequestStatus(req.request, Rejected));
      if req.system.Some? {
        AcquiredTracks(me, d, req, req.system.value);
        ReleasedTracks(me, d, req, req.system.value);
      }
    }
  }

  // ---- Runs ----------------------------------------------------------------------------------------------

  datatype Step = Request(inbound: Option<ControlRequest>) | Tick(available: bool)

  function Next(me: Identity, d: Desk, step: Step): Desk {
    match step
    case Request(inbound) => Requested(me, d, inbound)
    case Tick(available) => Ticked(me, d, available)
  }

  ghost predicate Run(me: Identity, states: seq<Desk>, steps: seq<Step>) {
    && |states| == |steps| + 1 && states[0] == Desk(NOTHING, [])
    && forall i :: 0 <= i < |steps| ==> states[i + 1] == Next(me, states[i], steps[i])
  }

  /** What a step publishes; it takes back nothing published before. */
  function Added(me: Identity, d: Desk, step: Step): (more: seq<Event>)
    ensures Next(me, d, step).log == d.log + more
  {
    assert d.log <= Next(me, d, step).log;
    Next(me, d, step).log[|d.log|..]
  }

  /** At every point of every run, whoever reads only the published log knows the five stored fields
      exactly: controller, service, control type, control choice and the request that acquired it. */
  lemma {:induction false} LogTracksHolder(me: Identity, states: seq<Desk>, steps: seq<Step>, k: nat)
    requires Run(me, states, steps) && k < |states|
    ensures Tracks(states[k])
    ensures states[k].held.system.Some? <==> states[k].held.request.Some?
  {
    if k == 0 {
    } else {
      LogTracksHolder(me, states, steps, k - 1);
      match steps[k - 1] {
        case Request(inbound) => RequestedTracks(me, states[k - 1], inbound);
        case Tick(_) => UnpairedTracks(me, states[k - 1]);
      }
    }
  }

  /** Every REMOVED assignment names the holder of that moment, and every CANCELED status the request
      that holder acquired with. */
  lemma RemovalsNameHolder(me: Identity, states: seq<Desk>, steps: seq<Step>, k: nat, i: nat)
    requires Run(me, states, steps) && k < |states| && i < |states[k].log|
    ensures Honest(Observe(states[k].log[..i]), states[k].log[i])
  {
    LogTracksHolder(me, states, steps, k);
    HonestAt(states[k].log, i);
  }

  lemma {:induction false} HonestAt(log: seq<Event>, i: nat)
    requires AllHonest(log) && i < |log|
    ensures Honest(Observe(log[..i]), log[i])
  {
    if i < |log| - 1 {
      HonestAt(log[..|log| - 1], i);
      assert log[..|log| - 1][..i] == log[..i];
    }
  }

  /** The request parses and names this controller. */
  predicate Asks(inbound: Option<ControlRequest>, controller: Uuid) {
    inbound.Some? && inbound.value.system == Some(controller)
  }

  /** Control passes straight from one holder to another exactly on a STEAL or ASSIGN_STEAL that names
      the new one. */
  lemma HandoverExactlyBySteal(me: Identity, d: Desk, step: Step, a: Uuid, b: Uuid)
    requires d.held.system == Some(a) && a != b
    ensures Next(me, d, step).held.system == Some(b)
      <==> step.Request? && Asks(step.inbound, b) && Steals(step.inbound.value.kind)
  {
  }

  /** A holder loses control without successor exactly by its own RELEASE or on a tick that finds the
      capability not AVAILABLE; and no holder survives such a tick. */
  lemma HolderLeavesExactly(me: Identity, states: seq<Desk>, steps: seq<Step>, k: nat, a: Uuid)
    requires Run(me, states, steps) && k < |steps| && states[k].held.system == Some(a)
    ensures states[k + 1].held.system.None? <==>
      || steps[k] == Tick(false)
      || (&& steps[k].Request? && steps[k].inbound.Some? && steps[k].inbound.value.kind.Release?
          && steps[k].inbound.value.system == Some(a))
  {
    LogTracksHolder(me, states, steps, k);
  }

  /** A controller's request is granted exactly when it is a steal, or an acquire that nobody else's hold stands
      against; control is then held as asked for, and that is told. Anything else but the holder's own release is
      answered REJECTED and leaves the fields as they are. */
  lemma GrantedExactly(me: Identity, d: Desk, inbound: Option<ControlRequest>, a: Uuid)
    requires Asks(inbound, a)
    ensures var req, after := inbound.value, Requested(me, d, inbound);
      var granted := (req.kind.Acquire? && (d.held.system.None? || d.held.system == Some(a)))
                     || req.kind.Steal? || req.kind.AssignSteal?;
      && (granted ==>
            && after.held == Held(Some(a), req.service, Some(req.controlType), Some(req.choice), Some(req.request))
            && after.log == d.log + [
                 RequestStatus(req.request, Queued), RequestStatus(req.request, InProgress),
                 RequestStatus(req.request, Completed),
                 Assignment(NewAssignment, Controller(a, req.service, req.controlType, req.choice),
                   if req.controllee.Some? then req.controllee.value else me.system,
                   if req.capability.Some? then req.capability.value else me.capability)])
      && (!granted && !(req.kind.Release? && d.held.system == Some(a)) ==>
            after == d.(log := d.log + [RequestStatus(req.request, Rejected)]))
  {
  }
}
