# A verified model of the open-vi vehicle interface

open-vi stands between a message bus and a vehicle backend. One process, the Isolator, takes commands,
route plans and control requests off the bus, drives the backend, and publishes what happens. This
project models the machines inside it in Dafny and proves what they promise.

| files | what they model |
|---|---|
| `Basis`, `Curve`, `Hull`, `Marsden` | NURBS sampling of a commanded curve: the Cox-de Boor recursion, the sampling loop and its fallbacks; where samples may lie, and Marsden's identity, which fixes their values |
| `Envelope`, `Validation` | the altitude envelope on its 0.1 m grid, and the checks on paths, hold vectors and curves |
| `TickThread` | the Isolator thread, its queue and wakeup event, and `start` / `stop`, as interleaved atomic steps |
| `Lifecycle`, `Stub`, `Px4` | the command lifecycle, the in-process backend, and the PX4 backend with its lock, runners and reader |
| `Routes`, `Session`, `SessionRuns`, `Outcomes`, `SessionLog`, `CommandLog` | the route store, the handlers and the tick over four session objects; what every run keeps; what each operation comes to; what every run publishes |
| `Control` | who holds control, and the published assignments |
| `Links`, `PathLinks`, `LinkedPaths` | reading linked path segments from an element tree, and writing them; linked paths as trees, in any listed order |
| `Mission` | prefix skipping, mission items and upload |
| `Topics`, `Query`, `Loopback` | topic names and delivery, data queries, and the synchronous loopback bus with the handlers on it |
| `Options` | optional values, ids, an ordered dictionary, waypoints, trimming text, and two list readers |

Code that changes state in the source is a class here. Each of its methods is proved equal to a function
on the object's value (`View`), the runs are sequences of those functions, and the lemmas are about the
runs. `SessionRuns.Perform` and `PerformMessage` close the circle: the running Isolator takes exactly the
steps of `SessionRuns.Next`. Interleavings (`TickThread`, `Px4`) are state machines whose steps are the atomic
operations and the critical sections.

Reading notes.

- `Own(k)` is the k-th id drawn by this process, `Peer(k)` an id chosen by someone else; drawn ids never repeat.
- sha256, the plan id in a text and the flyability of a text are arbitrary functions of the text (`Routes.Texts`).
- Curves and the envelope are over exact reals; the map from metres to degrees is a parameter.
- `Event.source` on a route execution status is bookkeeping: the activation's command, which the message does not carry.
- Readiness, terminals raised by the backend, timeouts, replies of the autopilot and what the reader hears
  are free choices of the environment in every run.

Results with an exact condition, because the plain claim does not hold of the code:

- curve parameters strictly increase if and only if one step exceeds the 1e-12 end margin (`Curve.ParamsIncrease`);
- an advertised bound is flyable under every display tie rule if and only if the limit is an even number of
  tenths or home leaves no tie (`Envelope.AdvertisedBoundsFlyable`);
- a submit to the PX4 backend acts as one step if and only if it is a NEW or its activity is still live at
  its second section (`Px4.AcceptIsAtomic`), and `Px4.ReplacementAfterCompletion` is a run where it is not;
- a plan stands on a ladder it climbed throughout a run if and only if every failsafe response that flew it
  found its ladder full (`SessionLog.LadderHoldsExactly`); `SessionLog.FailsafeBypassesLadder` is a run where
  one does not;
- a written path reads back as its waypoints if and only if each number in it reads back from its own text
  (`PathLinks.WrittenPathReadsBack`); the nine digits written for an angle do not keep every number;
- a query lists as plans exactly what it sends if and only if no plan's id clashes with the capability's or
  the field's (`Query.ListsExactlyWhatItSends`); `Loopback.ClashReachable` is a run where one does.

## Model

| member | source | states |
|---|---|---|
| Basis.LocalSupport | src/open_vi/domain/flight.py:509-535 | every N(i,p) is non-negative and vanishes outside the knots it depends on, zero denominators included |
| Basis.TermsShareNeighbour | src/open_vi/domain/flight.py:519-535 | the right term of one basis function and the left term of the next add up to the function below, also on repeated knots |
| Basis.Telescope | src/open_vi/domain/flight.py:509-535 | a window of degree-p functions sums to the inner window one degree down plus two end terms |
| Basis.PartitionOfUnity | src/open_vi/domain/flight.py:489-535 | for m = n+p+1 non-decreasing knots and u in [knots[p], knots[n]) the n functions sum to exactly 1, each non-negative and locally supported |
| Basis.ActiveWindow | src/open_vi/domain/flight.py:509-535 | in knot interval j only the functions j-p..j can be non-zero |
| Basis.ClampedStart | src/open_vi/domain/flight.py:509-535 | at a clamped start one function per degree is 1 and all its neighbours 0 |
| Marsden.MarsdensIdentity | src/open_vi/domain/flight.py:509-535 | for u in [knots[p], knots[n]) and every x, the sum of (x - knots[i+1])..(x - knots[i+p]) * N(i,p)(u) is (x - u) to the power p: the basis takes the B-spline's own values, not merely values that sum to 1 |
| Marsden.LinearPrecision | src/open_vi/domain/flight.py:509-535 | knot averages reproduce the parameter: the sum of (knots[i+1] + .. + knots[i+p]) * N(i,p)(u) is p * u |
| Marsden.RationalCurveReproduced | src/open_vi/domain/flight.py:489-535 | with weights and weighted coordinates taken from those products at x, y and z the point at u is ((y-u)^p/(x-u)^p, (z-u)^p/(x-u)^p), so basis, weights and coordinates each enter exactly |
| Marsden.SampledCurveReproduced | src/open_vi/domain/flight.py:464-535 | and so is every sample of such a curve, at its own parameter |
| Curve.NurbsPoint | src/open_vi/domain/flight.py:489-506 | the accumulating loop returns the weighted rational combination, or the first control point when nothing pulls |
| Curve.EvaluateNurbs | src/open_vi/domain/flight.py:464-486 | the sampling loop returns the specified samples at the specified parameters, or the polyline on an empty span |
| Curve.SampleAepOffsets | src/open_vi/domain/flight.py:446-461 | curve samples exactly when all three guards hold, the control polyline otherwise |
| Curve.GuardsForceDegree | src/open_vi/domain/flight.py:438-473 | degree >= 1, sorted knots and a non-empty span force 1 <= p < n, so every knot read is in bounds |
| Curve.ParamsInSpan | src/open_vi/domain/flight.py:474-484 | all parameters but the last lie in the span; the last does if and only if the span is at least 1e-12 long |
| Curve.SampledExactly | src/open_vi/domain/flight.py:464-486 | as many samples as asked for but no fewer than control points; the i-th is the curve's point i of count-1 equal steps into the span, the last 1e-12 short of its end |
| Curve.ParamsIncrease | src/open_vi/domain/flight.py:474-484 | parameters strictly increase if and only if the step exceeds 1e-12 |
| Curve.MassInSpan | src/open_vi/domain/flight.py:489-506 | inside the span the weight sum is at least the smallest weight, so the fallback cannot fire |
| Hull.PointIsConvexCombination | src/open_vi/domain/flight.py:489-506 | every returned point is a combination of control points with non-negative coefficients summing to 1; points that do not pull have coefficient 0 |
| Hull.SampleLength | src/open_vi/domain/flight.py:446-486 | the result has max(samples, n) points on the curve branch and n otherwise |
| Hull.SamplesInHull | src/open_vi/domain/flight.py:446-506 | every half-plane holding all control points holds every sample: curve, polyline, fallback and the last parameter |
| Hull.SamplesInBox | src/open_vi/domain/flight.py:446-506 | every sample lies in the bounding box of the control points |
| Hull.PointInLocalHull | src/open_vi/domain/flight.py:489-535 | in span j the point lies in every half-plane holding control points j-p..j alone |
| Hull.SamplesTranslate | src/open_vi/domain/flight.py:446-506 | translating the control points translates every sample, with no condition on weights or knots |
| Hull.ClampedFirstSample | src/open_vi/domain/flight.py:464-535 | with a clamped start the first sample is exactly the first control point |
| Envelope.FlyableExactly | src/open_vi/domain/flight.py:126-143 | the accepted heights, exactly: both grid bounds widened by half a step, a half-step edge in only at an even bound |
| Envelope.BandAccepted | src/open_vi/domain/flight.py:126-143 | every height in [min, max] is accepted, every accepted one is within 0.1 m of it |
| Envelope.BoundSurvivesDisplay | src/open_vi/domain/flight.py:132-143 | a bound sent with three decimals and displayed to 0.1 m reads back as itself under every tie rule if and only if the limit is even or home leaves no tie |
| Envelope.TieDown | src/open_vi/domain/flight.py:132-143 | the tie case: an odd limit loses or gains a whole tenth |
| Envelope.AdvertisedBoundsFlyable | src/open_vi/codec/capability.py:217-228 | both advertised bounds are flyable under every display tie rule, if and only if both limits are an even number of tenths or home leaves no tie |
| Envelope.LowerBoundSurvives | src/open_vi/domain/flight.py:132-143 | the same for a lower limit in any whole number of millimetres: it is never read as too low if and only if the display rounds the sent bound up, or rounds it down to a height that still reaches the limit's own grid value |
| Envelope.UpperBoundSurvives | src/open_vi/domain/flight.py:132-143 | the same for an upper limit in any whole number of millimetres: it is never read as too high if and only if the display rounds the sent bound down, or rounds it up to a height that stays at the limit's own grid value |
| Validation.ValidateWaypointPath | src/open_vi/domain/flight.py:146-209 | accepts exactly the non-empty paths of finite, in-envelope points; otherwise reports the first bad one |
| Validation.PointAcceptedExactly | src/open_vi/domain/flight.py:126-209 | a point is accepted if and only if latitude, longitude and altitude are there and finite and the altitude above home is inside the envelope; which fault it has otherwise |
| Validation.BandPointAccepted | src/open_vi/domain/flight.py:126-209 | a complete point in the band is accepted; one more than 0.1 m outside is refused for its altitude |
| Validation.HoldAcceptedExactly | src/open_vi/domain/flight.py:212-322 | a hold vector is accepted if and only if it asks for nothing unsupported, its references are known, its numbers finite, its speeds not negative, and its altitude inside the envelope from the baseline its reference calls for |
| Validation.HoldAgreesWithWaypoint | src/open_vi/domain/flight.py:212-322 | an otherwise sound hold vector's altitude is accepted exactly when a waypoint at that altitude is, home counting only for home-based references |
| Validation.SampleCurveWaypoints | src/open_vi/domain/flight.py:341-360 | one waypoint per sample, each the projection of its sample at the one altitude |
| Validation.ValidateCurveFollowing | src/open_vi/domain/flight.py:363-435 | acceptance is the shape checks and then the envelope test on the single altitude; a bad control point is the first one |
| Validation.AcceptedCurveInBox | src/open_vi/domain/flight.py:363-506 | a curve of accepted shape has at least four control points and positive weights, and every sample of it stays in any box that holds its control points |
| TickThread.RunInv | src/open_vi/isolator/executive.py:115-230 | the invariant behind the results below holds in every interleaving |
| TickThread.NoLostWakeup | src/open_vi/isolator/executive.py:343-362 | a thread at its wait with work queued or stop set has its wakeup set, or someone between put/set and the wakeup's set |
| TickThread.AtMostOneThread | src/open_vi/isolator/executive.py:169-230 | at most one Isolator thread is alive and it is the tracked one, whatever times out or is stuck |
| TickThread.StopClearedOnlyWhenDead | src/open_vi/isolator/executive.py:169-205 | stop is cleared only when no Isolator thread is alive |
| TickThread.NothingLost | src/open_vi/isolator/executive.py:115-167 | bodies put = bodies handled, in order, then the one in hand, then those queued; and every body dispatched is accounted for, over any number of restarts |
| TickThread.StopIsHeeded | src/open_vi/isolator/executive.py:207-230 | in every run, while stop stays set, the steps a thread takes and those it still owes are at most what it owed when stop was set, two for each queued body and six to its exit, plus two for each body put meanwhile |
| TickThread.StoppedThreadDies | src/open_vi/isolator/executive.py:343-362 | with nothing more put, a thread that has taken as many steps as it owed is dead |
| TickThread.EveryTurnLedOn | src/open_vi/isolator/executive.py:343-362 | in every run, for every thread, ticks taken and the one in progress are as many as the times it found its period over; likewise waits, for a period not over; such looks, for a queue found empty; and every other turn of the loop |
| TickThread.EntersExactly | src/open_vi/isolator/executive.py:343-362 | in every run a thread enters its tick if and only if it found its period over, its wait if and only if it found it not over, and looks at the period only having found the queue empty |
| TickThread.DispatchAlone | src/open_vi/isolator/executive.py:115-147 | a dispatch nothing interrupts puts the body last on the queue and sets the wakeup if some Isolator thread is alive, and handles it on the spot if none is |
| TickThread.StartAlone | src/open_vi/isolator/executive.py:169-205 | a start nothing interrupts, with no thread alive, leaves a new one tracked at the top of its loop, stop and wakeup clear |
| TickThread.StartWhileRunning | src/open_vi/isolator/executive.py:169-189 | a start while an Isolator thread is alive changes nothing |
| TickThread.StopUntracked | src/open_vi/isolator/executive.py:207-230 | a stop with no thread tracked sets the flag and the event and nothing else |
| TickThread.StopAlone | src/open_vi/isolator/executive.py:207-230 | a stop nothing interrupts sets the flag and the event, and the thread stays tracked if and only if it outlives the join |
| Lifecycle.ActivityIdStable | src/open_vi/platform/stub.py:80-184 | the activity id is constant for as long as the activity is live, whatever is submitted |
| Lifecycle.OnlyNewGoesLive | src/open_vi/platform/stub.py:80-149 | only an accepted NEW makes an idle backend live |
| Stub.FirstAcceptedIsFirst | src/open_vi/platform/stub.py:186-257 | with no command named, complete and fail take the oldest ACCEPTED one, if there is one |
| Stub.StubPlatform.SubmitFlightCommand | src/open_vi/platform/stub.py:80-149 | answers and changes state exactly as the abstract lifecycle's submit |
| Stub.StubPlatform.SubmitActivity | src/open_vi/platform/stub.py:151-184 | the activity branch of the same |
| Stub.StubPlatform.CompleteFlightCommand | src/open_vi/platform/stub.py:186-221 | an ACCEPTED command becomes COMPLETED with its activity over and one terminal queued; any other is left alone |
| Stub.StubPlatform.FailFlightCommand | src/open_vi/platform/stub.py:223-257 | an ACCEPTED command becomes FAILED or CANCELED with no activity and one terminal queued |
| Stub.StubPlatform.PollCommandUpdates | src/open_vi/platform/stub.py:259-263 | returns the queued terminals in order and leaves none |
| Px4.Px4Adapter.SubmitFlightCommand | src/open_vi/platform/px4/adapter.py:276-365 | with nothing in between, the same answer and the same effect as the abstract lifecycle's submit |
| Px4.Px4Adapter.AcceptLocked | src/open_vi/platform/px4/adapter.py:396-428 | the critical section that records an accepted command |
| Px4.Px4Adapter.CancelLocked | src/open_vi/platform/px4/adapter.py:292-308 | the critical section that cancels a command and drops its queued terminals |
| Px4.Px4Adapter.FailLocked | src/open_vi/platform/px4/adapter.py:430-470 | the critical section of a failing runner, stale or not |
| Px4.Px4Adapter.MaybeCompleteMissionLocked | src/open_vi/platform/px4/adapter.py:690-714 | the reader's critical section when a mission item is reached |
| Px4.SectionsRefine | src/open_vi/platform/px4/adapter.py:430-714 | a failing runner's section and the reader's section are each a step of the abstract lifecycle or none, in any state |
| Px4.StepRefines | src/open_vi/platform/px4/adapter.py:276-714 | in every interleaving each step, poll and cancel included, is one operation of the abstract lifecycle or none, late accepts apart |
| Px4.RunRefines | src/open_vi/platform/px4/adapter.py:276-714 | every interleaving without a late accept is, through its core, a run of the abstract lifecycle |
| Px4.LiveActivityHasCommand | src/open_vi/platform/px4/adapter.py:396-470 | in every interleaving a live activity has an active command and it is ACCEPTED |
| Px4.ActivityIdStable | src/open_vi/platform/px4/adapter.py:396-470 | in every interleaving the activity id is constant for as long as the activity stays live |
| Px4.PendingMatchesRecord | src/open_vi/platform/px4/adapter.py:430-470 | every queued terminal is its command's recorded state |
| Px4.PolledAtMostOnce | src/open_vi/platform/px4/adapter.py:604-609 | each command is returned by poll at most once |
| Px4.NothingAfterCancel | src/open_vi/platform/px4/adapter.py:292-308 | nothing is polled for a command after its CANCEL returned, stale runners notwithstanding |
| Px4.SubmitAlone | src/open_vi/platform/px4/adapter.py:276-428 | section after section, a submit nothing interrupts leaves the core the abstract submit leaves; a CANCEL returns exactly when the decision is to stop; whatever was started has a runner |
| Px4.CancelIsObeyed | src/open_vi/platform/px4/adapter.py:292-308 | in every interleaving a CANCEL of a known command over a live link has returned by the time the Isolator thread is idle again, and the command is CANCELED from then on with no terminal queued |
| Px4.StartIsCarriedOut | src/open_vi/platform/px4/adapter.py:310-428 | in every interleaving what the check decides to start ends accepted, with a runner for that command and activity |
| Px4.MissionEndsExactly | src/open_vi/platform/px4/adapter.py:690-714 | in every interleaving an item reached ends a live activity if and only if it is the mission's last or past it; then the active command is COMPLETED and queued to be told |
| Px4.AcceptIsAtomic | src/open_vi/platform/px4/adapter.py:310-428 | a submit's second section acts as the whole submit taken now, if and only if it is a NEW or its activity is still live |
| Px4.ReplacementAfterCompletion | src/open_vi/platform/px4/adapter.py:341-428 | a run in which a replacement is accepted for an activity that has just completed |
| Routes.RouteStore.Ingest | src/open_vi/isolator/routes.py:93-123 | text and digest are stored; INACTIVE and DEACTIVATED become READY_FOR_UPLOAD |
| Routes.ListedExactly | src/open_vi/isolator/routes.py:125-152 | the ids handed out are exactly those with text and digest, each once |
| Routes.RouteStore.HandleActivation | src/open_vi/isolator/routes.py:154-232 | one ladder command: result and new store as specified by the transition table |
| Routes.RouteStore.Commit | src/open_vi/isolator/routes.py:234-244 | sets the state of a known plan and nothing else |
| Routes.IngestKeepsSound | src/open_vi/isolator/routes.py:93-123 | ingest keeps the store sound: no INACTIVE or mid state at rest, text on every rung but the first, digests matching, text under its own id |
| Routes.ClimbKeepsSound | src/open_vi/isolator/routes.py:31-64 | every ladder command keeps the store sound |
| Routes.CommitKeepsSound | src/open_vi/isolator/routes.py:234-244 | committing a terminal state keeps the store sound |
| Session.Isolator.ActivateStoredRoute | src/open_vi/isolator/handlers/route.py:50-134 | the whole new session after flying a stored plan, accepted or refused |
| Session.Isolator.DeactivateRoute | src/open_vi/isolator/handlers/route.py:211-246 | the whole new session after taking a plan down |
| Session.Isolator.HandleActivation | src/open_vi/isolator/handlers/route.py:157-315 | the whole new session after one activation command, answers included |
| Session.Isolator.HandleRoutePlan | src/open_vi/isolator/handlers/route.py:317-374 | the whole new session after a plan arrives |
| Session.Isolator.HandleFailsafe | src/open_vi/isolator/handlers/failsafe.py:26-78 | the whole new session after a failsafe response: the response and plan on record, what it flies and what it publishes |
| Session.Isolator.HandleFlightCommand | src/open_vi/isolator/handlers/flight_command.py:34-159 | the whole new session after one direct flight command: gate, backend, answer |
| Session.Isolator.AbortExecutingRoute | src/open_vi/isolator/executive.py:312-337 | the whole new session after the VI's own abort |
| Session.Isolator.PublishCommandUpdates | src/open_vi/isolator/executive.py:290-310 | the whole new session after the four passes over polled terminals |
| Session.Isolator.PublishPlanExecution | src/open_vi/isolator/publishers.py:125-220 | publishes the plan-execution family of the live execution, or the idle one |
| SessionRuns.Perform | src/open_vi/isolator/executive.py:149-388 | each of the session's steps is what the running Isolator does |
| SessionRuns.PerformMessage | src/open_vi/isolator/handlers/route.py:157-186 | a message of several commands is taken as exactly that many steps, in order |
| SessionRuns.AlwaysAgrees | src/open_vi/isolator/execution.py:14-50 | over every run: execution fields all set or all empty, never FAILED at rest, its plan ACTIVATED with text, its command known to the backend; flight session and backend name the same activity when both name one; the store sound |
| SessionRuns.TextAfterStep | src/open_vi/isolator/routes.py:93-152 | a plan's text changes only when a message carrying that plan arrives, and then to that message |
| SessionRuns.TextNeverLost | src/open_vi/isolator/routes.py:93-152 | text once retained is retained for the rest of the run |
| SessionRuns.FailsafeAfterStep | src/open_vi/isolator/handlers/failsafe.py:36-47 | the failsafe response on record changes only by a failsafe message: to it, or to none by any removal, whether or not its plan was flown |
| SessionRuns.NextExtendsLog | src/open_vi/isolator/publishers.py:69-220 | no step takes back anything published |
| SessionRuns.HandedOutGenuine | src/open_vi/isolator/handlers/query.py:105-130 | whatever is handed out carries its own digest and its own plan id, so the query's checksum failure is unreachable |
| SessionRuns.ActivateAcceptedExactly | src/open_vi/isolator/handlers/route.py:50-134 | ACTIVATE is accepted if and only if the backend is available and the plan is READY_FOR_ACTIVATION with flyable text, idle or live; then the plan is ACTIVATED and executing under a new command on the live activity |
| SessionRuns.DeactivateEndsExactly | src/open_vi/isolator/handlers/route.py:211-246 | DEACTIVATE from ACTIVATED succeeds if and only if the backend is available or nothing executes, and then ends DEACTIVATED with execution and flight idle |
| SessionRuns.RejectedChangesNothing | src/open_vi/isolator/handlers/route.py:157-246 | a REJECTED activation leaves plan states, text, execution, flight session and backend as they were |
| Outcomes.RefusedActivation | src/open_vi/isolator/handlers/route.py:157-286 | a refused activation publishes one REJECTED answer with the plan's state and nothing else |
| Outcomes.LadderClimbed | src/open_vi/isolator/routes.py:31-64 | the three ladder commands that do not touch the vehicle: accepted if and only if the plan is in a state they start from, UPLOAD with text; the state each ends in and the three answers each gives |
| Outcomes.ActivationTold | src/open_vi/isolator/handlers/route.py:50-134 | everything an accepted ACTIVATE publishes, in order: activity, execution under the route's command and the named mission, three answers |
| Outcomes.DeactivationTold | src/open_vi/isolator/handlers/route.py:211-286 | a DEACTIVATE of an ACTIVATED plan cancels whatever route command is executing and publishes it FAILED, then the answer and the mission |
| Outcomes.CancelObeyedExactly | src/open_vi/isolator/handlers/flight_command.py:144-159 | a direct CANCEL is obeyed if and only if the backend is available and knows the command, whatever is live, designated or flying; nothing else stops a command |
| Outcomes.ObeyedCancel | src/open_vi/isolator/handlers/flight_command.py:34-104 | then the command is CANCELED, no activity is left, no terminal of it is queued, every other command and terminal stays, and CANCELED is all that is published |
| Outcomes.RefusedCommand | src/open_vi/isolator/handlers/flight_command.py:34-68 | a refused command is told REJECTED, a task is suggested, and nothing else changes |
| Outcomes.StartedCommand | src/open_vi/isolator/handlers/flight_command.py:69-89 | a started or replacing command is ACCEPTED under a live activity, which the flight session takes; what is published |
| Outcomes.Aborted | src/open_vi/isolator/executive.py:312-337 | the VI's own abort: the execution published FAILED, its plan DEACTIVATED and told so, nothing executing, nothing flying |
| Outcomes.TickOutcome | src/open_vi/isolator/executive.py:290-337 | what a tick makes of the polled terminals: a failed or canceled one of the executing command ends the route and DEACTIVATES its plan, otherwise a completed one finishes it, otherwise it goes on; when the flight session ends; every other plan, text and command as it was |
| Outcomes.AnnouncedExactly | src/open_vi/isolator/handlers/route.py:317-374 | in every run a plan has been announced if and only if its text is stored and was not there at the start |
| SessionLog.ExecutionStatusesOrdered | src/open_vi/isolator/publishers.py:168-220 | for each activation, over every run, the published states are EXECUTING one or more times, COMPLETED any number, then FAILED at most once and nothing after |
| SessionRuns.CommandStartsExactly | src/open_vi/isolator/handlers/flight_command.py:95-159 | a direct command starts or replaces something if and only if it is designated, valid, the backend available, and it is a NEW with nothing live or an UPDATE naming the flight session's live activity |
| CommandLog.EachCommandToldInOrder | src/open_vi/isolator/publishers.py:69-122 | refusals apart, over every run in which peers name each command once, every command is told ACCEPTED at most once, then a terminal at most once, then only answers to CANCEL; a peer's command hears none of these before its acceptance |
| CommandLog.TerminalReachesPeer | src/open_vi/isolator/publishers.py:69-122 | an ACCEPTED command no route sent, once the backend completes, fails or cancels it, is told just that by the next tick, once |
| SessionLog.NextClimbsExactly | src/open_vi/isolator/routes.py:31-64 | a step leaves a plan on a ladder it climbed if and only if it is not a failsafe response that flies the plan from anywhere but the top of a full ladder |
| SessionLog.LadderHoldsExactly | src/open_vi/isolator/handlers/failsafe.py:26-78 | over every run, the plan stands on a ladder it climbed at every point if and only if every failsafe response that flew it found the ladder full |
| SessionLog.ActivatedClimbedLadder | src/open_vi/isolator/routes.py:31-64 | in such runs a plan is ACTIVATED only if its latest accepted answers were UPLOADED, READY_FOR_ACTIVATION, ACTIVATED |
| SessionLog.FailsafeBypassesLadder | src/open_vi/isolator/handlers/failsafe.py:26-78 | a run in which a failsafe response reaches ACTIVATED with no command accepted for the plan |
| Control.ControlDesk.Handle | src/open_vi/isolator/handlers/control.py:112-226 | fields and log after any control request |
| Control.ControlDesk.UnpairIfUnavailable | src/open_vi/isolator/handlers/control.py:35-101 | fields, log and answer after the tick's check |
| Control.LogTracksHolder | src/open_vi/isolator/handlers/control.py:143-226 | over every run, reading only the published log gives all five stored control fields exactly; controller and request id are set together or not at all |
| Control.RemovalsNameHolder | src/open_vi/isolator/handlers/control.py:49-101 | every REMOVED names the holder of that moment, every CANCELED the request it acquired with |
| Control.HandoverExactlyBySteal | src/open_vi/isolator/handlers/control.py:143-155 | one holder replaces another directly if and only if the new one sends STEAL or ASSIGN_STEAL |
| Control.HolderLeavesExactly | src/open_vi/isolator/executive.py:373-384 | control becomes vacant if and only if the holder releases it or a tick finds the capability not AVAILABLE |
| Control.GrantedExactly | src/open_vi/isolator/handlers/control.py:112-226 | control is granted if and only if the request is a steal or an acquire no other holder stands against; all five fields and everything published; anything else but the holder's release is answered REJECTED and changes nothing |
| Links.Follow | src/open_vi/codec/path.py:110-128 | the walk ends on every link graph, cyclic or dangling, with the chain of links |
| Links.ChainIsTheWalk | src/open_vi/codec/path.py:105-128 | there is exactly one walk that follows every link it can, repeats nothing and stops only where it must; it is the one taken |
| Links.ListedOrderIrrelevant | src/open_vi/codec/path.py:93-136 | with distinct ids and a first link that resolves, the listed order does not matter |
| PathLinks.ParsePathWaypoints | src/open_vi/codec/path.py:16-27 | linked paths first, the document scan when they give nothing; the outcome where a number does not parse |
| PathLinks.PathSegmentWaypoints | src/open_vi/codec/path.py:93-136 | index, walk and reading loops give the points in link order, or in document order |
| PathLinks.DocumentOrder | src/open_vi/codec/path.py:159-184 | the scan reads each element's last direct latitude, longitude and altitude |
| PathLinks.BuildPathElement | src/open_vi/codec/path.py:30-72 | the written tree, element by element |
| PathLinks.DocumentOrderIrrelevant | src/open_vi/codec/path.py:93-136 | the order segments are written in is irrelevant to the points read |
| PathLinks.ReadInFlightOrder | src/open_vi/codec/path.py:93-136 | however its segments are laid out, a linked path is read in flight order |
| PathLinks.UnresolvedKeepsDocumentOrder | src/open_vi/codec/path.py:129-136 | when the first link names no segment, document order is kept, repeated ids or not |
| LinkedPaths.SpellingRead | src/open_vi/codec/path.py:75-78 | every spelling of an id, dashes anywhere and either case, is read as the same id |
| LinkedPaths.LinkedPathReads | src/open_vi/codec/path.py:16-156 | a linked path written as elements, each segment with its id, position and link, reads as its waypoints' texts do in flight order, in every order of its segments and every spelling of its ids |
| LinkedPaths.LinkedPathReadsBack | src/open_vi/codec/path.py:16-156 | so it gives back its waypoints in flight order if and only if each number in them survives its text |
| PathLinks.ReadsAnywhere | src/open_vi/codec/path.py:16-72 | a written path read from any element that holds it as its one Path gives what its waypoints' texts give, and the waypoints themselves when their numbers survive |
| PathLinks.WrittenPathReads | src/open_vi/codec/path.py:16-72 | whatever the number format, reading a written path gives exactly what its waypoints' texts give, point by point, or fails with the first that does |
| PathLinks.WrittenPathReadsBack | src/open_vi/codec/path.py:16-72 | reading a written path gives the waypoints back, for every list, if and only if each of its numbers reads back from its own text |
| Mission.AdvanceMissionWaypoints | src/open_vi/platform/px4/mission.py:48-80 | the popping loop keeps what the recursive definition keeps |
| Mission.PassedExactly | src/open_vi/platform/px4/mission.py:48-80 | a waypoint is passed if and only if it is captured or more than a right angle away from the goal as seen from the vehicle |
| Mission.AheadIsKept | src/open_vi/platform/px4/mission.py:48-80 | a waypoint straight on towards the goal and outside the capture radius is never passed |
| Mission.KeepsFromResumption | src/open_vi/platform/px4/mission.py:48-80 | what is kept is the suffix from index i if and only if everything before i is captured or behind and i is neither, or is the goal |
| Mission.SkippingSettles | src/open_vi/platform/px4/mission.py:48-92 | skipping twice skips nothing more |
| Mission.WiderKeepsLess | src/open_vi/platform/px4/mission.py:48-80 | a wider capture radius never keeps more |
| Mission.TruncationError | src/open_vi/platform/px4/mission.py:186-187 | the integer angle is within 1e-7 degrees of the commanded one and never past it |
| Mission.MissionLink.UploadWaypoints | src/open_vi/platform/px4/mission.py:117-209 | everything sent and the outcome, each failure at its own point |
| Mission.MissionLink.ExecuteWaypointFollowing | src/open_vi/platform/px4/mission.py:244-307 | everything sent around the upload, airborne or not |
| Mission.UploadsExactly | src/open_vi/platform/px4/mission.py:117-209 | an upload succeeds if and only if there is a path, every item is asked for, every position is finite and the acknowledgement is good |
| Mission.MissionEndsAtGoal | src/open_vi/platform/px4/mission.py:244-307 | the item sent under the returned sequence number is the waypoint at the commanded goal, with or without takeoff; only a loiter over it follows |
| Query.CollectListings | src/open_vi/isolator/handlers/query.py:96-130 | the listing, or the checksum failure exactly when a plan looked at is not intact |
| Query.ServableExactly | src/open_vi/isolator/handlers/query.py:164-203 | the plans sent are those asked for that can be handed out, each once |
| Query.ListsExactlyWhatItSends | src/open_vi/isolator/handlers/query.py:96-203 | ids listed as plans = ids of plans sent, in order, if and only if none clashes with the capability's or the field's id |
| Query.ListsExactlyWhatIsAskedFor | src/open_vi/isolator/handlers/query.py:96-130 | the ids listed are, each once, those the kinds ask for: the capability, every plan that can be handed out, the home field and its plans |
| Loopback.LoopbackBus.Publish | src/open_vi/asb/memory.py:78-82 | record, then handle before returning; every cascade ends |
| Topics.InMemoryAsb.Publish | src/open_vi/asb/memory.py:66-82 | refused exactly when not connected; recorded under the topic's type; handed on exactly when something subscribed matches or nothing is subscribed |
| Topics.InMemoryAsb.Attach | src/open_vi/isolator/executive.py:97-113 | connected, and subscribed to both topics of each type |
| Topics.NameSurvives | src/open_vi/asb/topics.py:6-19 | what a publisher calls a message is what the handlers are told it is |
| Topics.DeliveredExactly | src/open_vi/asb/memory.py:99-113 | with these types subscribed, a message is delivered if and only if it is of one of them |
| Loopback.LoopbackBus.HandleQuery | src/open_vi/isolator/handlers/query.py:52-94 | ladder, listing and native outs, on a bus that answers back |
| Loopback.LoopbackBus.Record | src/open_vi/isolator/handlers/capability.py:29-54 | what a designation or a task leaves behind, and that the Isolator's own leave nothing |
| Loopback.SilenceAnswersSilence | src/open_vi/isolator/handlers/heartbeat.py:58-63 | the Isolator's own heartbeat, offer and task change nothing and are answered with nothing |
| Loopback.PlanSentQuietly | src/open_vi/isolator/handlers/route.py:317-332 | a stored plan sent out comes back under its own id and is answered with nothing, though a DEACTIVATED one becomes READY_FOR_UPLOAD |
| Loopback.QueryAnswered | src/open_vi/isolator/handlers/query.py:52-94 | a query on the loopback bus always completes, with exactly its ladder and outs, and changes no plan beyond reviving the ones it sent |
| Loopback.QueryTold | src/open_vi/isolator/handlers/query.py:52-94 | everything on the bus from a query to its end: QUEUED, PROCESSING, COMPLETED with its listing, then what it sends; no kind asked for is every kind |
| Loopback.HeartbeatAnswered | src/open_vi/isolator/handlers/heartbeat.py:58-73 | another service's heartbeat is answered with this one's, its own with nothing |
| Loopback.OverlayTaken | src/open_vi/isolator/handlers/capability.py:29-54 | another's offer for this vehicle sets or clears the overlay and the vehicle's own offer goes out; any other offer changes nothing |
| Loopback.TaskHeard | src/open_vi/isolator/handlers/task.py:89-119 | another's task is answered when first heard and again after it was removed |
| Loopback.LoopbackAddsNothing | src/open_vi/asb/memory.py:66-82 | with a sound store, every inbound message causes the Isolator's own answer and no answer to any answer; the answers of the handlers modelled elsewhere are whatever those handlers publish |
| Loopback.NoEchoInAnyRun | src/open_vi/isolator/handlers/task.py:89-93 | the same in every state that any run of the session reaches |
| Loopback.SessionStepUnanswered | src/open_vi/isolator/publishers.py:69-220 | every event any session step publishes, as a bus message, comes back unanswered |
| Loopback.ControlStepUnanswered | src/open_vi/isolator/handlers/control.py:35-272 | and so does everything a control step publishes |
| Loopback.QuerySendsWhatItLists | src/open_vi/isolator/handlers/query.py:132-203 | the ids read out of the plans a query sends are the ids it lists, if and only if none clashes; each goes out once |
| Loopback.ClashReachable | src/open_vi/isolator/handlers/query.py:96-203 | a run in which a peer's plan has the capability's id, and a query sends a plan it does not list as one |

## Left out

- Floating point: curves, envelope and angles use exact reals; a non-finite number is a flag.
- Trigonometry: the curve projection and the mission's distance and offsets are arbitrary functions.
- XML text, namespaces, timestamps and envelopes; path reading works on a tree, every other message is a record of what a handler reads of it.
- Text outside ASCII: padding and upper case in segment ids are the ASCII ones.
- STOMP, MAVLink input and output, offboard streaming, configuration and the command line.
- Telemetry, the other status outs, ISA conversions and airfield geometry.
- Route validation and task commands: short answers without state of their own to keep.
- `RouteStore.prime` and `inject_contingency`, which the running system does not use.
- Handler exceptions in the middle of a step.
- Loopback.LoopbackBus.Publish: hands every message to the handlers, connected, because which are delivered is in `Topics`, and one nobody subscribes to changes nothing when handed over (`Loopback.SilenceAnswersSilence`).
- Loopback.LoopbackAddsNothing: takes what the flight, route, failsafe, control, validation, system and task handlers publish as given; for the first four `Loopback.SessionStepUnanswered` and `Loopback.ControlStepUnanswered` cover every step there is.
- SessionRuns.Perform: one tick is its command updates and the plan-execution part of the status package; advertising and the other status outs change no session state, and the revocation of control is in `Control`.
- A second registration of `dispatch` after a restart: `Loopback` has one.
- Reason texts of refusals; the reasons themselves are kept apart in `Lifecycle.Reason`.
- Px4.Px4Adapter.SubmitFlightCommand: mode and payload checks are one validity flag, as in `Stub`, because both backends share the lifecycle and differ in those checks.
- `Px4` keeps its concurrency on values: the class methods are the critical sections, and the interleavings are runs over their functions.
- `TickThread` takes the handling of a body as one step, and does not model the session lock, which the single Isolator thread never contends for within a run.
- Setting the autopilot's mode, arming and waiting for altitude in `Mission` are messages without answers.
