/** The Isolator thread, its inbound queue and its wakeup event, as interleaved atomic steps: any
    number of bus threads calling `dispatch`, one caller of `start` / `stop`, and the Isolator
    thread, which may sit between two steps for as long as it likes. */
module TickThread {
  import opened Options

  type Body = nat
  type Tid = nat

  /** Where an Isolator thread is in `_tick_loop`. */
  datatype LoopPc =
    | NotStarted          // the Thread object exists, start() has not been called on it
    | CheckStop           // while not _stop.is_set()
    | Drain               // _inbound.get_nowait()
    | Handle(body: Body)  // dispatching the body it took
    | Choose              // is the period over?
    | Tick                // inside _tick
    | Wait                // _wakeup.wait(timeout)
    | Clear               // _wakeup.clear()
    | Dead

  /** Where a bus thread is in `dispatch`. */
  datatype ProducerPc =
    | Outside
    | ReadThread(body: Body)                     // thread = self._thread
    | AskAlive(body: Body, thread: Option<Tid>)  // thread.is_alive()
    | Put(body: Body)                            // _inbound.put(...)
    | SetWakeup                                  // _wakeup.set()
    | Direct(body: Body)                         // no live thread: handle it here

  /** Where the one caller of `start` and `stop` is. */
  datatype CallerPc =
    | Resting
    | StartRead | StartAsk(thread: Option<Tid>) | Advertise | ClearStop | ClearWakeup | Spawn | Launch(tid: Tid)
    | SetStop | WakeForStop | StopRead | Join(tid: Tid) | AskJoined(tid: Tid) | Disconnect

  /** Bookkeeping the program does not keep: the bodies that entered `dispatch`, were put on the
      queue, were handled by an Isolator thread, and were handled by the calling thread. */
  datatype History = History(arrived: seq<Body>, put: seq<Body>, handled: seq<Body>, direct: seq<Body>)

  datatype State = State(
    threads: seq<LoopPc>, tracked: Option<Tid>, stop: bool, wakeup: bool, queue: seq<Body>,
    producers: seq<ProducerPc>, caller: CallerPc, past: History)

  /** The flags carry what the program text leaves open: whether the period is over or a wait or
      join times out, which body arrives, whether the caller starts or stops. */
  datatype Action =
    | LoopStep(tid: Tid, timedOut: bool)
    | ProducerStep(producer: nat, body: Body)
    | CallerStep(starting: bool, timedOut: bool)

  predicate Alive(pc: LoopPc) {
    !pc.NotStarted? && !pc.Dead?
  }

  predicate ThreadRunning(s: State, thread: Option<Tid>) {
    thread.Some? && thread.value < |s.threads| && Alive(s.threads[thread.value])
  }

  predicate Enabled(s: State, a: Action) {
    match a
    case LoopStep(t, timedOut) =>
      t < |s.threads| && Alive(s.threads[t]) && (s.threads[t].Wait? ==> s.wakeup || timedOut)
    case ProducerStep(i, _) => i < |s.producers|
    case CallerStep(_, timedOut) =>
      s.caller.Join? ==> timedOut || !ThreadRunning(s, Some(s.caller.tid))
  }

  function Apply(s: State, a: Action): State
    requires Enabled(s, a)
  {
    match a
    case LoopStep(t, timedOut) => Loop(s, t, timedOut)
    case ProducerStep(i, body) => Produce(s, i, body)
    case CallerStep(starting, _) => Call(s, starting)
  }

  function Loop(s: State, t: Tid, timedOut: bool): State
    requires t < |s.threads| && Alive(s.threads[t])
  {
    match s.threads[t]
    case CheckStop => At(s, t, if s.stop then Dead else Drain)
    case Drain =>
      if s.queue == [] then At(s, t, Choose)
      else At(s, t, Handle(s.queue[0])).(queue := s.queue[1..])
    case Handle(body) => At(s, t, Drain).(past := s.past.(handled := s.past.handled + [body]))
    case Choose => At(s, t, if timedOut then Tick else Wait)
    case Tick => At(s, t, CheckStop)
    case Wait => At(s, t, Clear)
    case Clear => At(s, t, CheckStop).(wakeup := false)
  }

  function At(s: State, t: Tid, pc: LoopPc): State
    requires t < |s.threads|
  {
    s.(threads := s.threads[t := pc])
  }

  function Produce(s: State, i: nat, arriving: Body): State
    requires i < |s.producers|
  {
    match s.producers[i]
    case Outside => By(s, i, ReadThread(arriving)).(past := s.past.(arrived := s.past.arrived + [arriving]))
    case ReadThread(body) => By(s, i, AskAlive(body, s.tracked))
    case AskAlive(body, thread) => By(s, i, if ThreadRunning(s, thread) then Put(body) else Direct(body))
    case Put(body) => By(s, i, SetWakeup).(queue := s.queue + [body], past := s.past.(put := s.past.put + [body]))
    case SetWakeup => By(s, i, Outside).(wakeup := true)
    case Direct(body) => By(s, i, Outside).(past := s.past.(direct := s.past.direct + [body]))
  }

  function By(s: State, i: nat, pc: ProducerPc): State
    requires i < |s.producers|
  {
    s.(producers := s.producers[i := pc])
  }

  function Call(s: State, starting: bool): State {
    match s.caller
    case Resting => s.(caller := if starting then StartRead else SetStop)
    case StartRead => s.(caller := StartAsk(s.tracked))
    case StartAsk(thread) => s.(caller := if ThreadRunning(s, thread) then Resting else Advertise)
    case Advertise => s.(caller := ClearStop)
    case ClearStop => s.(stop := false, caller := ClearWakeup)
    case ClearWakeup => s.(wakeup := false, caller := Spawn)
    case Spawn =>
      s.(threads := s.threads + [NotStarted], tracked := Some(|s.threads|), caller := Launch(|s.threads|))
    case Launch(t) =>
      (if t < |s.threads| then At(s, t, CheckStop) else s).(caller := Resting)
    case SetStop => s.(stop := true, caller := WakeForStop)
    case WakeForStop => s.(wakeup := true, caller := StopRead)
    case StopRead => s.(caller := if s.tracked.None? then Disconnect else Join(s.tracked.value))
    case Join(t) => s.(caller := AskJoined(t))
    case AskJoined(t) =>
      if ThreadRunning(s, Some(t)) then s.(caller := Disconnect)
      else s.(tracked := None, caller := Disconnect)
    case Disconnect => s.(caller := Resting)
  }

  predicate Init(s: State) {
    && s.threads == [] && s.tracked.None? && !s.stop && !s.wakeup && s.queue == []
    && (forall i :: 0 <= i < |s.producers| ==> s.producers[i].Outside?) && s.caller.Resting?
    && s.past == History([], [], [], [])
  }

  /** A run: states linked by enabled actions. */
  predicate Run(states: seq<State>, actions: seq<Action>) {
    && |states| == |actions| + 1
    && Init(states[0])
    && forall i :: 0 <= i < |actions| ==>
      Enabled(states[i], actions[i]) && states[i + 1] == Apply(states[i], actions[i])
  }

  // ---- The invariant -----------------------------------------------------------------------------

  ghost predicate NoneAlive(s: State) {
    forall t :: 0 <= t < |s.threads| ==> !Alive(s.threads[t])
  }

  /** Only the tracked thread can be anything but dead. */
  ghost predicate OneThread(s: State) {
    && (forall t :: 0 <= t < |s.threads| && !s.threads[t].Dead? ==> s.tracked == Some(t))
    && (s.tracked.Some? ==> s.tracked.value < |s.threads|)
  }

  /** The caller's own copies agree with what is tracked; past its check, `start` finds none alive. */
  ghost predicate CallerAgrees(s: State) {
    && (s.tracked.Some? && s.tracked.value < |s.threads| && s.threads[s.tracked.value].NotStarted?
        ==> s.caller == Launch(s.tracked.value))
    && match s.caller {
      case StartAsk(thread) => thread == s.tracked
      case Advertise | ClearStop | ClearWakeup | Spawn => !ThreadRunning(s, s.tracked)
      case Launch(t) => s.tracked == Some(t) && t < |s.threads| && s.threads[t].NotStarted?
      case Join(t) => s.tracked == Some(t)
      case AskJoined(t) => s.tracked == Some(t)
      case _ => true
    }
  }

  /** Someone is on the way from a put to the set that announces it. */
  ghost predicate PutPending(s: State) {
    exists i :: 0 <= i < |s.producers| && s.producers[i].SetWakeup?
  }

  /** A thread that has seen the queue empty, or `_stop` clear, and not yet looked again will be woken. */
  ghost predicate WakeupComing(s: State) {
    forall t :: 0 <= t < |s.threads| ==>
      && (s.threads[t].Choose? || s.threads[t].Wait? ==> s.queue == [] || s.wakeup || PutPending(s))
      && (s.threads[t].Drain? || s.threads[t].Handle? || s.threads[t].Choose? || s.threads[t].Wait? ==>
            !s.stop || s.wakeup || s.caller.WakeForStop?)
  }

  /** The body an Isolator thread has taken off the queue and not finished with. */
  function InHand(s: State): seq<Body> {
    if s.tracked.Some? && s.tracked.value < |s.threads| && s.threads[s.tracked.value].Handle?
    then [s.threads[s.tracked.value].body] else []
  }

  /** Nothing is lost, repeated or reordered on the way through the queue. */
  ghost predicate QueueConserved(s: State) {
    s.past.put == s.past.handled + InHand(s) + s.queue
  }

  predicate Holds(pc: ProducerPc, body: Body) {
    (pc.ReadThread? || pc.AskAlive? || pc.Put? || pc.Direct?) && pc.body == body
  }

  /** How many of the first k producers hold the body. */
  function HeldBy(producers: seq<ProducerPc>, body: Body, k: nat): nat
    requires k <= |producers|
  {
    if k == 0 then 0 else HeldBy(producers, body, k - 1) + if Holds(producers[k - 1], body) then 1 else 0
  }

  function Times(bodies: seq<Body>, body: Body): nat {
    if bodies == [] then 0
    else Times(bodies[..|bodies| - 1], body) + if bodies[|bodies| - 1] == body then 1 else 0
  }

  lemma TimesAppend(bodies: seq<Body>, last: Body, body: Body)
    ensures Times(bodies + [last], body) == Times(bodies, body) + if last == body then 1 else 0
  {
    assert (bodies + [last])[..|bodies|] == bodies;
  }

  /** Every body that entered `dispatch` is accounted for, as often as it came. */
  ghost predicate Accounted(s: State, body: Body) {
    Times(s.past.arrived, body)
    == Times(s.past.put, body) + Times(s.past.direct, body) + HeldBy(s.producers, body, |s.producers|)
  }

  ghost predicate Inv(s: State) {
    && OneThread(s) && CallerAgrees(s) && WakeupComing(s) && QueueConserved(s)
    && forall body :: Accounted(s, body)
  }

  lemma {:induction false} HeldByUpdate(producers: seq<ProducerPc>, i: nat, pc: ProducerPc, body: Body, k: nat)
    requires i < |producers| && k <= |producers|
    ensures HeldBy(producers[i := pc], body, k) + (if i < k && Holds(producers[i], body) then 1 else 0)
         == HeldBy(producers, body, k) + (if i < k && Holds(pc, body) then 1 else 0)
  {
    if k == 0 {
    } else {
      HeldByUpdate(producers, i, pc, body, k - 1);
    }
  }

  lemma {:induction false} HeldByNone(producers: seq<ProducerPc>, body: Body, k: nat)
    requires k <= |producers| && forall i :: 0 <= i < |producers| ==> producers[i].Outside?
    ensures HeldBy(producers, body, k) == 0
  {
    if k == 0 {
    } else {
      HeldByNone(producers, body, k - 1);
    }
  }

  lemma InitInv(s: State)
    requires Init(s)
    ensures Inv(s)
  {
    forall body ensures Accounted(s, body) {
      HeldByNone(s.producers, body, |s.producers|);
    }
  }

  lemma LoopKeepsThread(s: State, t: Tid, timedOut: bool)
    requires OneThread(s) && CallerAgrees(s) && Enabled(s, LoopStep(t, timedOut))
    ensures s.tracked == Some(t) && OneThread(Loop(s, t, timedOut)) && CallerAgrees(Loop(s, t, timedOut))
  {
    var s' := Loop(s, t, timedOut);
    assert s'.caller == s.caller && s'.tracked == s.tracked && |s'.threads| == |s.threads|;
    assert forall u :: 0 <= u < |s.threads| && u != t ==> s'.threads[u] == s.threads[u];
  }

  lemma LoopKeepsWakeup(s: State, t: Tid, timedOut: bool)
    requires OneThread(s) && WakeupComing(s) && Enabled(s, LoopStep(t, timedOut))
    ensures WakeupComing(Loop(s, t, timedOut))
  {
    var s' := Loop(s, t, timedOut);
    assert s'.producers == s.producers;
    assert PutPending(s') == PutPending(s);
    assert forall u :: 0 <= u < |s.threads| && u != t ==> s'.threads[u] == s.threads[u] && s.threads[u].Dead?;
  }

  lemma LoopKeepsQueue(s: State, t: Tid, timedOut: bool)
    requires OneThread(s) && QueueConserved(s) && Enabled(s, LoopStep(t, timedOut))
    ensures QueueConserved(Loop(s, t, timedOut))
  {
    assert s.tracked == Some(t);
    if s.threads[t].Drain? {
      DrainKeepsQueue(s, t, timedOut);
    } else if s.threads[t].Handle? {
      HandleKeepsQueue(s, t, timedOut);
    } else {
      assert InHand(s) == [] && InHand(Loop(s, t, timedOut)) == [];
    }
  }

  lemma DrainKeepsQueue(s: State, t: Tid, timedOut: bool)
    requires s.tracked == Some(t) && t < |s.threads| && s.threads[t].Drain? && QueueConserved(s)
    ensures QueueConserved(Loop(s, t, timedOut))
  {
    if s.queue == [] {
      assert InHand(s) == [] && InHand(Loop(s, t, timedOut)) == [];
    } else {
      assert InHand(s) == [] && InHand(Loop(s, t, timedOut)) == [s.queue[0]];
      assert s.queue == [s.queue[0]] + s.queue[1..];
    }
  }

  lemma HandleKeepsQueue(s: State, t: Tid, timedOut: bool)
    requires s.tracked == Some(t) && t < |s.threads| && s.threads[t].Handle? && QueueConserved(s)
    ensures QueueConserved(Loop(s, t, timedOut))
  {
    assert InHand(s) == [s.threads[t].body] && InHand(Loop(s, t, timedOut)) == [];
  }

  /** The fields the accounts are kept in. */
  ghost predicate SameAccounts(s: State, s': State) {
    && s'.past.arrived == s.past.arrived && s'.past.put == s.past.put && s'.past.direct == s.past.direct
    && s'.producers == s.producers
  }

  lemma LoopAndCallKeepAccounts(s: State, t: Tid, timedOut: bool, starting: bool)
    ensures Enabled(s, LoopStep(t, timedOut)) ==> SameAccounts(s, Loop(s, t, timedOut))
    ensures SameAccounts(s, Call(s, starting))
  {
  }

  lemma SameAccountsAccounted(s: State, s': State)
    requires SameAccounts(s, s') && forall body :: Accounted(s, body)
    ensures forall body :: Accounted(s', body)
  {
    forall body ensures Accounted(s', body) {
      assert Accounted(s, body);
    }
  }

  lemma ProduceKeepsThreads(s: State, i: nat, body: Body)
    requires OneThread(s) && CallerAgrees(s) && i < |s.producers|
    ensures OneThread(Produce(s, i, body)) && CallerAgrees(Produce(s, i, body))
    ensures Produce(s, i, body).threads == s.threads
  {
    var s' := Produce(s, i, body);
    assert s'.threads == s.threads && s'.caller == s.caller && s'.tracked == s.tracked;
  }

  lemma ProduceKeepsWakeup(s: State, i: nat, body: Body)
    requires WakeupComing(s) && i < |s.producers|
    ensures WakeupComing(Produce(s, i, body))
  {
    var s' := Produce(s, i, body);
    assert s'.threads == s.threads && s'.caller == s.caller && s'.stop == s.stop;
    assert s'.queue != s.queue ==> s'.producers[i].SetWakeup?;
    if PutPending(s) && !s'.wakeup {
      var j :| 0 <= j < |s.producers| && s.producers[j].SetWakeup?;
      assert s'.producers[j].SetWakeup?;
    }
  }

  lemma ProduceKeepsQueue(s: State, i: nat, body: Body)
    requires QueueConserved(s) && i < |s.producers|
    ensures QueueConserved(Produce(s, i, body))
  {
    var s' := Produce(s, i, body);
    assert InHand(s') == InHand(s);
    if s.producers[i].Put? {
      var put := [s.producers[i].body];
      assert s'.past.put == s.past.put + put && s'.queue == s.queue + put;
      assert s.past.handled + InHand(s) + s.queue + put == s.past.handled + InHand(s) + (s.queue + put);
    }
  }

  /** A producer's step moves a body from one account to the next, or brings a new one in. */
  ghost predicate Balanced(s: State, s': State, i: nat, body: Body)
    requires i < |s.producers| == |s'.producers|
  {
    Times(s'.past.arrived, body) + Times(s.past.put, body) + Times(s.past.direct, body)
    + (if Holds(s.producers[i], body) then 1 else 0)
    == Times(s.past.arrived, body) + Times(s'.past.put, body) + Times(s'.past.direct, body)
    + (if Holds(s'.producers[i], body) then 1 else 0)
  }

  lemma ProduceBalances(s: State, i: nat, arriving: Body, body: Body)
    requires i < |s.producers|
    ensures Produce(s, i, arriving).producers == s.producers[i := Produce(s, i, arriving).producers[i]]
    ensures Balanced(s, Produce(s, i, arriving), i, body)
  {
    match s.producers[i] {
      case Outside => ArrivalBalances(s, i, arriving, body);
      case Put(_) => PutBalances(s, i, arriving, body);
      case Direct(_) => DirectBalances(s, i, arriving, body);
      case _ => PassageBalances(s, i, arriving, body);
    }
  }

  lemma ArrivalBalances(s: State, i: nat, arriving: Body, body: Body)
    requires i < |s.producers| && s.producers[i].Outside?
    ensures Balanced(s, Produce(s, i, arriving), i, body)
  {
    TimesAppend(s.past.arrived, arriving, body);
  }

  lemma PutBalances(s: State, i: nat, arriving: Body, body: Body)
    requires i < |s.producers| && s.producers[i].Put?
    ensures Balanced(s, Produce(s, i, arriving), i, body)
  {
    TimesAppend(s.past.put, s.producers[i].body, body);
  }

  lemma DirectBalances(s: State, i: nat, arriving: Body, body: Body)
    requires i < |s.producers| && s.producers[i].Direct?
    ensures Balanced(s, Produce(s, i, arriving), i, body)
  {
    TimesAppend(s.past.direct, s.producers[i].body, body);
  }

  lemma PassageBalances(s: State, i: nat, arriving: Body, body: Body)
    requires i < |s.producers|
    requires s.producers[i].ReadThread? || s.producers[i].AskAlive? || s.producers[i].SetWakeup?
    ensures Balanced(s, Produce(s, i, arriving), i, body)
  {
  }

  lemma BalancedAccounts(s: State, s': State, i: nat, body: Body)
    requires Accounted(s, body) && i < |s.producers| == |s'.producers|
    requires s'.producers == s.producers[i := s'.producers[i]] && Balanced(s, s', i, body)
    ensures Accounted(s', body)
  {
    HeldByUpdate(s.producers, i, s'.producers[i], body, |s.producers|);
  }

  lemma CallKeepsOneThread(s: State, starting: bool)
    requires OneThread(s) && CallerAgrees(s)
    ensures OneThread(Call(s, starting))
  {
  }

  lemma CallKeepsAgreement(s: State, starting: bool)
    requires OneThread(s) && CallerAgrees(s)
    ensures CallerAgrees(Call(s, starting))
  {
  }

  lemma CallKeepsWakeup(s: State, starting: bool)
    requires OneThread(s) && CallerAgrees(s) && WakeupComing(s)
    ensures WakeupComing(Call(s, starting))
  {
    var s' := Call(s, starting);
    assert s'.producers == s.producers;
    assert PutPending(s) == PutPending(s');
  }

  lemma CallKeepsQueue(s: State, starting: bool)
    requires OneThread(s) && CallerAgrees(s) && QueueConserved(s)
    ensures QueueConserved(Call(s, starting))
  {
    assert InHand(Call(s, starting)) == InHand(s);
  }

  lemma StepKeepsInv(s: State, a: Action)
    requires Inv(s) && Enabled(s, a)
    ensures Inv(Apply(s, a))
  {
    match a {
      case LoopStep(t, timedOut) =>
        LoopKeepsThread(s, t, timedOut);
        LoopKeepsWakeup(s, t, timedOut);
        LoopKeepsQueue(s, t, timedOut);
        LoopAndCallKeepAccounts(s, t, timedOut, false);
        SameAccountsAccounted(s, Loop(s, t, timedOut));
      case ProducerStep(i, arriving) =>
        ProduceKeepsThreads(s, i, arriving);
        ProduceKeepsWakeup(s, i, arriving);
        ProduceKeepsQueue(s, i, arriving);
        forall body ensures Accounted(Produce(s, i, arriving), body) {
          ProduceBalances(s, i, arriving, body);
          BalancedAccounts(s, Produce(s, i, arriving), i, body);
        }
      case CallerStep(starting, _) =>
        CallKeepsOneThread(s, starting);
        CallKeepsAgreement(s, starting);
        CallKeepsWakeup(s, starting);
        CallKeepsQueue(s, starting);
        LoopAndCallKeepAccounts(s, 0, false, starting);
        SameAccountsAccounted(s, Call(s, starting));
    }
  }

  lemma {:induction false} RunInv(states: seq<State>, actions: seq<Action>, k: nat)
    requires Run(states, actions) && k < |states|
    ensures Inv(states[k])
  {
    if k == 0 {
      InitInv(states[0]);
    } else {
      RunInv(states, actions, k - 1);
      StepKeepsInv(states[k - 1], actions[k - 1]);
    }
  }

  // ---- What every run guarantees -----------------------------------------------------------------

  /** No lost wakeup: whenever the thread is at its wait with work queued or a stop requested, the
      event is set or its set is the next thing some producer or the stopper does. */
  lemma NoLostWakeup(states: seq<State>, actions: seq<Action>, k: nat, t: Tid)
    requires Run(states, actions) && k < |states|
    requires t < |states[k].threads| && states[k].threads[t].Wait?
    requires states[k].queue != [] || states[k].stop
    ensures states[k].wakeup || states[k].caller.WakeForStop? || PutPending(states[k])
  {
    RunInv(states, actions, k);
  }

  /** Never two Isolator threads: one that is alive is the tracked one. */
  lemma AtMostOneThread(states: seq<State>, actions: seq<Action>, k: nat, t: Tid, u: Tid)
    requires Run(states, actions) && k < |states|
    requires t < |states[k].threads| && u < |states[k].threads|
    requires Alive(states[k].threads[t]) && Alive(states[k].threads[u])
    ensures t == u && states[k].tracked == Some(t)
  {
    RunInv(states, actions, k);
  }

  /** `_stop` is only ever cleared while no Isolator thread is alive, so a stuck one never sees it
      go false again. */
  lemma StopClearedOnlyWhenDead(states: seq<State>, actions: seq<Action>, k: nat)
    requires Run(states, actions) && k < |actions|
    requires states[k].stop && !states[k + 1].stop
    ensures NoneAlive(states[k])
  {
    RunInv(states, actions, k);
  }

  /** Queued bodies are handled in order, each once, however often the thread is stopped and started:
      what was put is what was handled, then the body in hand, then what is still queued. Every body
      that entered `dispatch` was put, handled by its own caller, or is still in a producer's hands. */
  lemma NothingLost(states: seq<State>, actions: seq<Action>, k: nat)
    requires Run(states, actions) && k < |states|
    ensures states[k].past.put == states[k].past.handled + InHand(states[k]) + states[k].queue
    ensures forall body :: Accounted(states[k], body)
  {
    RunInv(states, actions, k);
  }

  /** How many steps of its own the thread is from exiting, beyond the bodies it must still drain. */
  function StepsToExit(pc: LoopPc): nat {
    match pc
    case Handle(_) => 6
    case Drain => 5
    case Choose => 4
    case Wait => 3
    case Tick | Clear => 2
    case CheckStop => 1
    case NotStarted | Dead => 0
  }

  /** What the thread still owes: two steps for each queued body, and those to its exit. */
  function Debt(s: State, t: Tid): nat
    requires t < |s.threads|
  {
    2 * |s.queue| + StepsToExit(s.threads[t])
  }

  /** The steps taken by thread t among actions i to j. */
  function LoopSteps(actions: seq<Action>, t: Tid, i: nat, j: nat): nat
    requires i <= j <= |actions|
  {
    if i == j then 0
    else LoopSteps(actions, t, i, j - 1) + if actions[j - 1].LoopStep? && actions[j - 1].tid == t then 1 else 0
  }

  /** A step that takes `paid` off what the thread owes, a body put meanwhile adding two. */
  ghost predicate Pays(s: State, s': State, t: Tid, paid: nat)
    requires t < |s.threads|
  {
    && t < |s'.threads| && !s'.threads[t].NotStarted? && |s'.past.put| >= |s.past.put|
    && Debt(s', t) + paid <= Debt(s, t) + 2 * (|s'.past.put| - |s.past.put|)
  }

  lemma LoopPays(s: State, u: Tid, timedOut: bool, t: Tid)
    requires Enabled(s, LoopStep(u, timedOut)) && s.stop && t < |s.threads| && !s.threads[t].NotStarted?
    ensures Pays(s, Loop(s, u, timedOut), t, if u == t then 1 else 0)
  {
    var s' := Loop(s, u, timedOut);
    assert s'.past.put == s.past.put && |s'.queue| <= |s.queue|;
    if u != t {
      assert s'.threads[t] == s.threads[t];
    }
  }

  lemma ProducePays(s: State, i: nat, body: Body, t: Tid)
    requires i < |s.producers| && t < |s.threads| && !s.threads[t].NotStarted?
    ensures Pays(s, Produce(s, i, body), t, 0)
  {
    var s' := Produce(s, i, body);
    assert s'.threads == s.threads && |s'.queue| - |s.queue| == |s'.past.put| - |s.past.put|;
  }

  lemma CallPays(s: State, starting: bool, t: Tid)
    requires CallerAgrees(s) && t < |s.threads| && !s.threads[t].NotStarted?
    ensures Pays(s, Call(s, starting), t, 0)
  {
    var s' := Call(s, starting);
    assert s'.past == s.past && s'.queue == s.queue && s'.threads[t] == s.threads[t];
  }

  lemma StepPays(s: State, a: Action, t: Tid)
    requires Inv(s) && Enabled(s, a) && s.stop && t < |s.threads| && !s.threads[t].NotStarted?
    ensures Pays(s, Apply(s, a), t, if a.LoopStep? && a.tid == t then 1 else 0)
  {
    match a {
      case LoopStep(u, timedOut) => LoopPays(s, u, timedOut, t);
      case ProducerStep(i, body) => ProducePays(s, i, body, t);
      case CallerStep(starting, _) => CallPays(s, starting, t);
    }
  }

  /** A requested stop is heeded, in every run: for as long as `_stop` stays set, the steps a thread takes,
      with those it still owes, are no more than what it owed and two for every body put meanwhile. */
  lemma {:induction false} StopIsHeeded(states: seq<State>, actions: seq<Action>, t: Tid, i: nat, j: nat)
    requires Run(states, actions) && i <= j < |states|
    requires forall k :: i <= k <= j ==> states[k].stop
    requires t < |states[i].threads| && Alive(states[i].threads[t])
    ensures t < |states[j].threads| && !states[j].threads[t].NotStarted?
    ensures |states[j].past.put| >= |states[i].past.put|
    ensures LoopSteps(actions, t, i, j) + Debt(states[j], t)
         <= Debt(states[i], t) + 2 * (|states[j].past.put| - |states[i].past.put|)
    decreases j
  {
    if i == j {
    } else {
      StopIsHeeded(states, actions, t, i, j - 1);
      RunInv(states, actions, j - 1);
      StepPays(states[j - 1], actions[j - 1], t);
    }
  }

  /** So with nothing more put, a thread that has taken as many steps as it owed is dead. */
  lemma StoppedThreadDies(states: seq<State>, actions: seq<Action>, t: Tid, i: nat, j: nat)
    requires Run(states, actions) && i <= j < |states|
    requires forall k :: i <= k <= j ==> states[k].stop
    requires t < |states[i].threads| && Alive(states[i].threads[t])
    requires states[j].past.put == states[i].past.put && LoopSteps(actions, t, i, j) >= Debt(states[i], t)
    ensures t < |states[j].threads| && states[j].threads[t].Dead?
  {
    StopIsHeeded(states, actions, t, i, j);
  }

  // ---- Going round the loop --------------------------------------------------------------------------------

  /** What a step of the loop turned out to be. */
  datatype Turn =
    | SawStop | SawNoStop | FoundWork | FoundNone | Handled | PeriodOver | PeriodNotOver | Ticked | Waited | Cleared

  /** Which turn of thread t an action is, judged by where the thread stands and what it finds there. */
  function TurnOf(s: State, a: Action, t: Tid): Option<Turn> {
    if !(a.LoopStep? && a.tid == t && t < |s.threads|) then None
    else match s.threads[t] {
      case CheckStop => Some(if s.stop then SawStop else SawNoStop)
      case Drain => Some(if s.queue == [] then FoundNone else FoundWork)
      case Handle(_) => Some(Handled)
      case Choose => Some(if a.timedOut then PeriodOver else PeriodNotOver)
      case Tick => Some(Ticked)
      case Wait => Some(Waited)
      case Clear => Some(Cleared)
      case _ => None
    }
  }

  /** How often thread t took each turn in the first k actions. */
  function Turns(states: seq<State>, actions: seq<Action>, t: Tid, k: nat): Turn -> nat
    requires k <= |actions| < |states|
  {
    if k == 0 then (turn: Turn) => 0
    else OneMore(Turns(states, actions, t, k - 1), TurnOf(states[k - 1], actions[k - 1], t))
  }

  function OneMore(turns: Turn -> nat, taken: Option<Turn>): Turn -> nat {
    (turn: Turn) => turns(turn) + One(taken == Some(turn))
  }

  function One(now: bool): nat {
    if now then 1 else 0
  }

  function Where(s: State, t: Tid): LoopPc {
    if t < |s.threads| then s.threads[t] else NotStarted
  }

  /** Whatever came to a place has left it or is there. Every tick follows a period found over and every wait one
      found not over; every such look follows a queue found empty; and so on round the loop. */
  ghost predicate RoundTheLoop(turns: Turn -> nat, pc: LoopPc) {
    TicksAndWaits(turns, pc) && DrainsAndChecks(turns, pc)
  }

  ghost predicate TicksAndWaits(turns: Turn -> nat, pc: LoopPc) {
    && turns(Ticked) + One(pc.Tick?) == turns(PeriodOver)
    && turns(Waited) + One(pc.Wait?) == turns(PeriodNotOver)
    && turns(Cleared) + One(pc.Clear?) == turns(Waited)
    && turns(PeriodOver) + turns(PeriodNotOver) + One(pc.Choose?) == turns(FoundNone)
  }

  ghost predicate DrainsAndChecks(turns: Turn -> nat, pc: LoopPc) {
    && turns(FoundNone) + turns(FoundWork) + One(pc.Drain?) == turns(SawNoStop) + turns(Handled)
    && turns(Handled) + One(pc.Handle?) == turns(FoundWork)
    && turns(SawStop) == One(pc.Dead?)
    && turns(SawStop) + turns(SawNoStop) + One(pc.CheckStop?)
       == One(!pc.NotStarted?) + turns(Ticked) + turns(Cleared)
  }

  /** Which places a turn leads between; no turn leaves a thread where it is, or launches it. */
  ghost predicate LeadsFrom(pc: LoopPc, taken: Option<Turn>, pc': LoopPc) {
    match taken
    case None => pc' == pc || (pc.NotStarted? && pc'.CheckStop?)
    case Some(SawStop) => pc.CheckStop? && pc'.Dead?
    case Some(SawNoStop) => pc.CheckStop? && pc'.Drain?
    case Some(FoundWork) => pc.Drain? && pc'.Handle?
    case Some(FoundNone) => pc.Drain? && pc'.Choose?
    case Some(Handled) => pc.Handle? && pc'.Drain?
    case Some(PeriodOver) => pc.Choose? && pc'.Tick?
    case Some(PeriodNotOver) => pc.Choose? && pc'.Wait?
    case Some(Ticked) => pc.Tick? && pc'.CheckStop?
    case Some(Waited) => pc.Wait? && pc'.Clear?
    case Some(Cleared) => pc.Clear? && pc'.CheckStop?
  }

  lemma TurnLeads(s: State, a: Action, t: Tid)
    requires CallerAgrees(s) && Enabled(s, a)
    ensures LeadsFrom(Where(s, t), TurnOf(s, a, t), Where(Apply(s, a), t))
  {
    match a {
      case LoopStep(u, timedOut) =>
        if u != t {
          assert Where(Loop(s, u, timedOut), t) == Where(s, t);
        }
      case ProducerStep(i, body) =>
        assert Produce(s, i, body).threads == s.threads;
      case CallerStep(starting, _) =>
        CallLeads(s, starting, t);
    }
  }

  lemma CallLeads(s: State, starting: bool, t: Tid)
    requires CallerAgrees(s)
    ensures LeadsFrom(Where(s, t), None, Where(Call(s, starting), t))
  {
  }

  lemma RoundKept(turns: Turn -> nat, pc: LoopPc, taken: Option<Turn>, pc': LoopPc)
    requires RoundTheLoop(turns, pc) && LeadsFrom(pc, taken, pc')
    ensures RoundTheLoop(OneMore(turns, taken), pc')
  {
    TicksAndWaitsKept(turns, pc, taken, pc');
    DrainsAndChecksKept(turns, pc, taken, pc');
  }

  lemma TicksAndWaitsKept(turns: Turn -> nat, pc: LoopPc, taken: Option<Turn>, pc': LoopPc)
    requires TicksAndWaits(turns, pc) && LeadsFrom(pc, taken, pc')
    ensures TicksAndWaits(OneMore(turns, taken), pc')
  {
  }

  lemma DrainsAndChecksKept(turns: Turn -> nat, pc: LoopPc, taken: Option<Turn>, pc': LoopPc)
    requires DrainsAndChecks(turns, pc) && LeadsFrom(pc, taken, pc')
    ensures DrainsAndChecks(OneMore(turns, taken), pc')
  {
  }

  /** In every run each thread goes round its loop: the ticks it took and the one it is in are as many as the
      times it found its period over, having found the queue empty just before; and likewise for every other
      turn of the loop. */
  lemma {:induction false} EveryTurnLedOn(states: seq<State>, actions: seq<Action>, t: Tid, k: nat)
    requires Run(states, actions) && k <= |actions|
    ensures RoundTheLoop(Turns(states, actions, t, k), Where(states[k], t))
  {
    if k == 0 {
    } else {
      EveryTurnLedOn(states, actions, t, k - 1);
      RunInv(states, actions, k - 1);
      TurnLeads(states[k - 1], actions[k - 1], t);
      RoundKept(Turns(states, actions, t, k - 1), Where(states[k - 1], t), TurnOf(states[k - 1], actions[k - 1], t),
                Where(states[k], t));
    }
  }

  /** A thread is in its tick or its wait only from a look at the period, and looks only from an empty queue. */
  lemma EntersExactly(states: seq<State>, actions: seq<Action>, t: Tid, k: nat)
    requires Run(states, actions) && k < |actions|
    ensures !Where(states[k], t).Tick? ==>
      (Where(states[k + 1], t).Tick? <==> Where(states[k], t).Choose? && actions[k] == LoopStep(t, true))
    ensures !Where(states[k], t).Wait? ==>
      (Where(states[k + 1], t).Wait? <==> Where(states[k], t).Choose? && actions[k] == LoopStep(t, false))
    ensures !Where(states[k], t).Choose? && Where(states[k + 1], t).Choose? ==>
      Where(states[k], t).Drain? && states[k].queue == []
  {
    RunInv(states, actions, k);
    TurnLeads(states[k], actions[k], t);
  }

  // ---- The operations undisturbed ------------------------------------------------------------------------------

  /** n steps of producer i, nobody else moving. */
  function ProduceAlone(s: State, i: nat, body: Body, n: nat): State
    requires i < |s.producers|
    ensures |ProduceAlone(s, i, body, n).producers| == |s.producers|
  {
    if n == 0 then s else Produce(ProduceAlone(s, i, body, n - 1), i, body)
  }

  /** `dispatch` from a bus thread: with an Isolator thread alive the body goes to the back of the queue and the
      event is set; with none it is handled on the spot. Nothing else changes. */
  lemma DispatchAlone(s: State, i: nat, body: Body)
    requires Inv(s) && i < |s.producers| && s.producers[i].Outside?
    ensures var past := s.past.(arrived := s.past.arrived + [body]);
      if NoneAlive(s)
      then ProduceAlone(s, i, body, 4) == s.(past := past.(direct := past.direct + [body]))
      else ProduceAlone(s, i, body, 5) == s.(queue := s.queue + [body], wakeup := true,
                                             past := past.(put := past.put + [body]))
  {
    var s1, s2 := ProduceAlone(s, i, body, 1), ProduceAlone(s, i, body, 2);
    assert s1 == Produce(ProduceAlone(s, i, body, 0), i, body) && s2 == Produce(s1, i, body);
    assert s2.producers[i] == AskAlive(body, s.tracked);
    assert NoneAlive(s) <==> !ThreadRunning(s, s.tracked);
    assert ProduceAlone(s, i, body, 3) == Produce(s2, i, body);
    assert ProduceAlone(s, i, body, 4) == Produce(Produce(s2, i, body), i, body);
    assert ProduceAlone(s, i, body, 4).producers[i := Outside] == s.producers;
  }

  /** The caller's i-th step, nobody else moving. */
  ghost predicate CallsNext(run: seq<State>, starting: bool, i: nat) {
    i + 1 < |run| && run[i + 1] == Call(run[i], starting)
  }

  lemma AliveIsTracked(s: State)
    requires OneThread(s)
    ensures NoneAlive(s) <==> !ThreadRunning(s, s.tracked)
  {
  }

  /** `start` with an Isolator thread alive changes nothing. */
  lemma StartWhileRunning(run: seq<State>)
    requires |run| == 4 && OneThread(run[0]) && run[0].caller.Resting? && !NoneAlive(run[0])
    requires forall i: nat :: i < 3 ==> CallsNext(run, true, i)
    ensures run[3] == run[0]
  {
    var s := run[0];
    AliveIsTracked(s);
    assert CallsNext(run, true, 0);
    assert run[1] == s.(caller := StartRead);
    assert CallsNext(run, true, 1);
    assert run[2] == s.(caller := StartAsk(s.tracked));
    assert CallsNext(run, true, 2);
  }

  /** `start` with none alive: a new thread is tracked and at the top of its loop, stop and wakeup clear. */
  lemma StartAlone(run: seq<State>)
    requires |run| == 9 && OneThread(run[0]) && run[0].caller.Resting? && NoneAlive(run[0])
    requires forall i: nat :: i < 8 ==> CallsNext(run, true, i)
    ensures run[8] == run[0].(threads := run[0].threads + [CheckStop], tracked := Some(|run[0].threads|),
                              stop := false, wakeup := false)
  {
    var s, t := run[0], |run[0].threads|;
    AliveIsTracked(s);
    assert CallsNext(run, true, 0);
    assert run[1] == s.(caller := StartRead);
    assert CallsNext(run, true, 1);
    assert run[2] == s.(caller := StartAsk(s.tracked));
    assert CallsNext(run, true, 2);
    assert run[3] == s.(caller := Advertise);
    assert CallsNext(run, true, 3);
    assert run[4] == s.(caller := ClearStop);
    assert CallsNext(run, true, 4);
    assert run[5] == s.(stop := false, caller := ClearWakeup);
    assert CallsNext(run, true, 5);
    assert run[6] == s.(stop := false, wakeup := false, caller := Spawn);
    assert CallsNext(run, true, 6);
    var spawned := s.(threads := s.threads + [NotStarted], tracked := Some(t), stop := false, wakeup := false);
    assert run[7] == spawned.(caller := Launch(t));
    assert CallsNext(run, true, 7);
    assert spawned.threads[t := CheckStop] == s.threads + [CheckStop];
  }

  /** `stop` with nothing tracked sets the flag and the event. */
  lemma StopUntracked(run: seq<State>)
    requires |run| == 6 && run[0].caller.Resting? && run[0].tracked.None?
    requires forall i: nat :: i < 5 ==> CallsNext(run, false, i)
    ensures run[5] == run[0].(stop := true, wakeup := true)
  {
    StopRaised(run);
    assert CallsNext(run, false, 3);
    assert CallsNext(run, false, 4);
  }

  lemma StopRaised(run: seq<State>)
    requires |run| >= 4 && run[0].caller.Resting?
    requires forall i: nat :: i < 3 ==> CallsNext(run, false, i)
    ensures run[3] == run[0].(stop := true, wakeup := true, caller := StopRead)
  {
    assert CallsNext(run, false, 0);
    assert run[1] == run[0].(caller := SetStop);
    assert CallsNext(run, false, 1);
    assert run[2] == run[0].(stop := true, caller := WakeForStop);
    assert CallsNext(run, false, 2);
  }

  /** `stop` with a thread tracked also joins it: it stays tracked exactly when it outlives the join. */
  lemma StopAlone(run: seq<State>)
    requires |run| == 8 && OneThread(run[0]) && run[0].caller.Resting? && run[0].tracked.Some?
    requires forall i: nat :: i < 7 ==> CallsNext(run, false, i)
    ensures run[7] == run[0].(stop := true, wakeup := true,
                              tracked := if NoneAlive(run[0]) then None else run[0].tracked)
  {
    var t, woken := run[0].tracked.value, run[0].(stop := true, wakeup := true);
    AliveIsTracked(run[0]);
    StopRaised(run);
    assert CallsNext(run, false, 3);
    assert run[4] == woken.(caller := Join(t));
    assert CallsNext(run, false, 4);
    assert run[5] == woken.(caller := AskJoined(t));
    assert CallsNext(run, false, 5);
    assert run[6] == woken.(tracked := if ThreadRunning(woken, Some(t)) then Some(t) else None, caller := Disconnect);
    assert CallsNext(run, false, 6);
  }
}
