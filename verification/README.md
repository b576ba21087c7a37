# Verification of the robot emulators and their dispatcher

A Dafny model of the parts of this repository whose behaviour is hardest to see from one function
at a time, with machine-checked proofs of what they promise.

* **The VDA 5050 order protocol, both ends.** `Vda5050` holds the vocabulary and, in `Chain`, what
  section 6.1 of VDA 5050 asks of an order. `OrderAcceptance` is the acceptance decision,
  `Missions` the compiler of routes, `RobotModel` the order state of the virtual robot and its
  atomic steps, `Actions` the action engine as a machine of concurrent tasks. `RobotInvariants` and
  `RobotTheorems` say what every run of the robot keeps. `VirtualAgvObject` and `ActionEngineObject`
  are the same two objects as classes, method by method, each tied to the state functions.
  `OrderChain` and `OrderActions` follow a mission released in any non-decreasing schedule through a
  network that drops, repeats, delays and reorders, `OrderHandover` shows that each action reaches
  the engine once. `AddedActions` and `ServedActions` say what becomes of an action an update adds,
  `StrandingRun` is a run on which one is left behind. `SettledActions` and `SlippedActions` say when
  an action that has settled changes once more, `SlippingRun` is a run on which one does.
  `StepEffects` says, step by step, exactly what changes of what can be observed of the robot and
  when, `OrderRegistry` which actions it lists, `QueueProgress` that the queue is served,
  `SettingOff` exactly when it drives off, and `BesideRun` is a run on which it does so beside an
  action it has forgotten. `MissionController` is the dispatcher's side, with the schedule it
  uses, `OrderRest` says what a driven-out order leaves, `EndToEnd` puts both sides together, and
  `DispatchProgress` says that an attempt goes on and comes to its end.
  Every stretch of the original between two awaits is one atomic step.
* **The simulated MiR robot.** `MissionTimeline` derives mission windows, phases and the odometer
  from the instants stored with the queue entries, `SimClock` is the pausable, scalable clock
  (and both together, driven by requests on the wall clock), `DistanceStatistics` the per-day
  buckets. Time is exact (`real`).
* **The RFC 6455 transport.** `WebSocketFrames` is the frame codec on bytes, `WebSocketConnection`
  fragmented receive, control frames and closing.
* **Documents.** `Json` and `OpenApi` show that converting Swagger 2.0 to OpenAPI 3 commutes with
  resolving references, `References` that what comes out has none left, `OperationReading` what the
  loaders and the converter make of each field, and `OperationTables` that both loaders then read the
  same operations.
  `Fragments` folds the sub-objects of a scraped PDF back into the definitions that mention them,
  `ConsistencyWarnings` is the pass after it. `TrailingCommas` is the one-pass normalizer of
  upstream schemas.
* **Sessions.** `SessionTable` is the bounded table of isolated robots.

Conventions. An `ActionRun` object is an index into an append-only table, so the queue, the active
list and the robot's lists share entries as the original's references do. An edge object is known by
the number of the accepted message it came with (`RxEdge.tag`), which models the identity test
`self._edges.get(...) is not edge`. Mask keys, the wall clock, and the outcome of geometric tests
are parameters. One request reads the clock once. A digest comparison is a comparison of contents.
`nat` is Python's unbounded integer; lengths on the wire are bounded where the format bounds them.

Where the code does something a reader would not expect, the model keeps it and says so:

* An update that adds an action to the node the robot is driving towards leaves that action WAITING
  and unqueued past the arrival there. By the time the robot has reached the stitch node an added
  action is handed over exactly if this was not the case (`HandedOverExactlyUnlessUnderWay`). One
  that was passed over waits on until a cancel, a mode switch or a newer message that names its id
  (`OverlookedStaysStranded`); the arrival at a later node naming it would hand it over
  (`ServedByArrival`). `OvertakenRun` is such a run from power-on.
* An action that the queue runner holds, popped and unstarted, when a cancel or mode switch comes is
  reported FAILED and executed afterwards (`FailedActionRuns`); so is an action no cancel stops whose
  handler has yet to begin. Along an attempt these are the only settled actions whose status changes
  (`SettledChangesExactly`).
* The robot can set off beside a HARD action that is at work: an update that takes back one of two
  elements naming the action makes the robot forget it, and the next order takes it off the active
  list without a cancel (`SetsOffBesideHard`). It never does so beside a SOFT or HARD action it still
  lists, nor beside an instant action (`NeverBesideOwn`); told from the run, it sets off exactly if
  no such action is scheduled or was started, and has not settled, since the last fresh order
  (`SetsOffOnRun`).
* `PUT /status` with state 3 thaws the clock during an emergency stop (`ResumeThawsEmergencyStop`);
  that is the only operation that does (`FrozenUnlessResumed`).
* Deleting a finished mission lowers the odometer (`DeleteCanLowerOdometer`). Deleting never raises
  it (`DeleteNeverRaisesOdometer`), and lowers it exactly if the missions behind leave some of the
  freed time unused (`DeleteLowersExactly`).
* Parameters declared for a whole path are not converted, so the OpenAPI loader reads them all as
  `string`: the tables then agree exactly if that is their type (`SharedParameterAgreesExactly`).
* A reference to a dropped fragment remains in a converted PDF exactly when a fragment reached from
  what is kept leads back to itself (`NoneLeftExactlyWithoutCycle`); it is then reported.
* A rejection of a later message does not end an attempt: rejected means that the first state which
  names the order does not approve of it (`RejectedExactly`).
* A second pass of the comma stripper changes its own output exactly when two commas stood doubled
  before a closer (`IdempotentExactlyWhenNotDoubled`, `DoubledCommaSurvives`).

`dafny verify dfyconfig.toml` checks everything. Each file holds one module; definitions come before
the lemmas about them, and each main result is preceded by the small lemmas it rests on.

## Model

| member | source | states |
|---|---|---|
| OrderAcceptance.StructuralCheckIsExact | packages/vda5050-emulator/src/vda5050_emulator/order.py:70-110 | the structural check finds no problem if and only if the order is one even/odd chain whose released part is a non-empty prefix of nodes and exactly the edges between them, with matching end points on 2.x |
| OrderAcceptance.PrefixLength | packages/vda5050-emulator/src/vda5050_emulator/order.py:106-110 | the longest all-released prefix |
| OrderAcceptance.AcceptanceIsExact | packages/vda5050-emulator/src/vda5050_emulator/order.py:172-225 | an order is accepted as fresh if and only if it is a chain, every node action is supported at nodes and every edge action at edges, orders are accepted, every map is known, the robot is idle and where the order starts, and the number is 0; as an update if and only if, besides, the order is the current one, not cancelled, the number is greater, and the first node is the decision point |
| OrderAcceptance.RejectionIsExact | packages/vda5050-emulator/src/vda5050_emulator/order.py:172-224 | for each reason of Figure 8 the exact condition, told from the order and the snapshot, under which an order is turned away for it, and when it is ignored |
| StepEffects.DecisionIsExact | packages/vda5050-emulator/src/vda5050_emulator/robot.py:481-517 | what a delivered order comes to from the state of the robot itself: refused beyond 1000 nodes or 999 edges, fresh, update, ignored exactly if it is the same message again, reported if it has the same number and other content |
| Missions.Elements | packages/vda5050-master/src/vda5050_master/missions.py:86-118 | the two loops produce the nodes and edges of the route from a waypoint on, released up to the given base |
| Missions.CompiledIsChain | packages/vda5050-master/src/vda5050_master/missions.py:86-163 | every compiled message is a chain with the intended base, for every route, start and release |
| Missions.CompiledOrdersAreAcceptable | packages/vda5050-master/src/vda5050_master/missions.py:120-172 | `order` and `update` fail exactly on a release, previous release or update id out of range; what they return passes the acceptor's structural check and starts at the previous decision point, which is the waypoint released last |
| Missions.InitialTellsMission | packages/vda5050-master/src/vda5050_master/missions.py:86-134 | the first message names the whole route: node by node the id, number, coordinates, map, heading, deviation and actions of the waypoint, the deviation in the shape of the version, and edge by edge the number, id and, on 2.x, the end points |
| Missions.UpdateTellsMission | packages/vda5050-master/src/vda5050_master/missions.py:86-163 | an update names the rest of the route likewise, from the waypoint released last |
| Missions.EdgeIdsDiffer | packages/vda5050-master/src/vda5050_master/missions.py:106-117 | different edges of a mission go by different ids |
| Missions.DecimalRoundTrip | packages/vda5050-master/src/vda5050_master/missions.py:106-117 | the number in an edge id reads back as the number it was written for |
| Actions.StepKeepsDiscipline | packages/vda5050-emulator/src/vda5050_emulator/actions.py:103-201 | every step of the concurrent engine keeps: one live queue runner, runs queued at most once, nothing started twice, an exclusive run alone |
| Actions.RunsAreDisciplined | packages/vda5050-emulator/src/vda5050_emulator/actions.py:103-160 | the same over every interleaving of enqueue, instant start, runner, handler and settle steps |
| Actions.ExclusiveRunsAlone | packages/vda5050-emulator/src/vda5050_emulator/actions.py:114-130 | while a SINGLE or HARD queued action is started and unsettled no other queue-born action is at work, and there is at most one live runner |
| Actions.OutstandingAmong | packages/vda5050-emulator/src/vda5050_emulator/actions.py:176-189 | the runs a cancel waits for are exactly the active, unsettled, non-instant, non-retriable ones |
| QueueProgress.RunnerAdvances | packages/vda5050-emulator/src/vda5050_emulator/actions.py:114-130 | the queue runner stands still exactly while it waits for an action that has not finished, or is done; every other move takes it nearer to the end |
| QueueProgress.AlwaysServed | packages/vda5050-emulator/src/vda5050_emulator/actions.py:103-130 | over every run from power-on: whatever is queued has a live runner, and no other runner is alive |
| ActionEngineObject.ActionEngine.Enqueue | packages/vda5050-emulator/src/vda5050_emulator/actions.py:103-107 | appends to the queue and starts a runner exactly when none is alive |
| ActionEngineObject.ActionEngine.StartInstant | packages/vda5050-emulator/src/vda5050_emulator/actions.py:109-112 | an instant action becomes active with a task, past the queue |
| ActionEngineObject.ActionEngine.Resume | packages/vda5050-emulator/src/vda5050_emulator/actions.py:114-130 | what a queue runner does between two waits, at the head, in the batch wait and while an exclusive run is at work |
| ActionEngineObject.ActionEngine.FailScheduled | packages/vda5050-emulator/src/vda5050_emulator/actions.py:172-175 | the draining loop fails exactly the queued runs and empties the queue |
| ActionEngineObject.ActionEngine.CancelActive | packages/vda5050-emulator/src/vda5050_emulator/actions.py:176-189 | the loop over active runs changes exactly those and returns what is outstanding, also when a run is listed twice |
| ActionEngineObject.ActionEngine.CancelOrderActions | packages/vda5050-emulator/src/vda5050_emulator/actions.py:168-189 | the whole cancel pass, and the runs it leaves to wait for |
| ActionEngineObject.ActionEngine.FinishEdgeActions | packages/vda5050-emulator/src/vda5050_emulator/actions.py:191-198 | exactly the unsettled active runs of the edge left behind finish |
| ActionEngineObject.ActionEngine.DropHorizonStates | packages/vda5050-emulator/src/vda5050_emulator/actions.py:200-201 | the queue keeps exactly the registered ids, in order |
| RobotInvariants.StepKeepsRobot | packages/vda5050-emulator/src/vda5050_emulator/robot.py:481-976 | every step of the robot keeps the invariant: one contiguous chain released up to the decision point, state lists that are the elements ahead, a driven edge that leads on from the last node, a consistent action registry |
| RobotInvariants.AcceptedUpdateStitches | packages/vda5050-emulator/src/vda5050_emulator/robot.py:567-575 | an accepted update meets a laid-out graph exactly at its last released node |
| RobotInvariants.StitchedChain | packages/vda5050-emulator/src/vda5050_emulator/robot.py:567-610 | stitching a chain onto the decision point gives one longer chain with the new base |
| RobotInvariants.ArriveIsLaid | packages/vda5050-emulator/src/vda5050_emulator/robot.py:951-967 | an arrival moves exactly one node on and drops exactly that node and its edge from the state lists |
| RobotTheorems.RunsKeepInvariant | packages/vda5050-emulator/src/vda5050_emulator/robot.py:481-976 | over every run from power-on the graph is a chain and the state lists are the elements beyond the last node, in order, with matching id and release |
| RobotTheorems.ChainReading | packages/vda5050-emulator/src/vda5050_emulator/robot.py:533-610 | an edge is stored exactly between two stored nodes, is released exactly when both are, and the last node never passes the decision point |
| RobotTheorems.StatesReading | packages/vda5050-emulator/src/vda5050_emulator/robot.py:533-610 | the state lists name what lies ahead, nearest first, each with id, number and release of the stored element |
| StepEffects.IdleIsNoWork | packages/vda5050-emulator/src/vda5050_emulator/robot.py:477-479 | a robot is idle exactly if no node and no edge lies ahead and no listed action is unsettled |
| StepEffects.IdentityIsExact | packages/vda5050-emulator/src/vda5050_emulator/robot.py:519-531 | an accepted message, and nothing else, changes which order the robot has; a cancel that takes effect marks it cancelled and the next accepted message takes that back |
| StepEffects.GraphIsExact | packages/vda5050-emulator/src/vda5050_emulator/robot.py:533-610 | an accepted message stores each of its elements as sent and drops what lay beyond its first node; what clears the order empties the graph; nothing else touches it |
| StepEffects.PlaceIsExact | packages/vda5050-emulator/src/vda5050_emulator/robot.py:951-967 | the last node changes with a fresh order, to its first node, and with an arrival, to the captured target; a mode switch forgets its name; nothing else moves it |
| StepEffects.StopsExactly | packages/vda5050-emulator/src/vda5050_emulator/robot.py:795-841 | a driving robot stops exactly by arriving on an edge that is still the order's or by finding that it no longer is |
| StepEffects.RequestIsExact | packages/vda5050-emulator/src/vda5050_emulator/robot.py:969-975 | after any step, exactly when a new base is asked for |
| StepEffects.RequestsExactly | packages/vda5050-emulator/src/vda5050_emulator/robot.py:969-975 | over every run from power-on a base is asked for only where the route has a horizon and no released edge leads on, and always by a robot that has come to rest there |
| StepEffects.QueueIsExact | packages/vda5050-emulator/src/vda5050_emulator/robot.py:564-638 | the queue after any step: what is appended, in which order, what is taken from the front, what an update takes out and what empties it |
| StepEffects.MovingIsExact | packages/vda5050-emulator/src/vda5050_emulator/actions.py:114-198 | what driving, delivering and the queue runner do to each single action: leaving an edge finishes exactly the actions of that edge at work, a fresh order stops registered tasks, the runner starts one |
| StepEffects.HandlersDecide | packages/vda5050-emulator/src/vda5050_emulator/actions.py:132-160 | a handler at work reports and ends as it likes, one that is being stopped can only fail, and a run without a task at work is out of reach |
| StepEffects.ClearsExactly | packages/vda5050-emulator/src/vda5050_emulator/robot.py:1125-1145 | a cancel takes effect exactly if there is work left of an order nobody has cancelled yet and the request names this order or none |
| StepEffects.ClearingIsExact | packages/vda5050-emulator/src/vda5050_emulator/actions.py:168-189 | what a cancel or mode switch does to each single action, across queue, active list, registry and tasks |
| StepEffects.InstantIsExact | packages/vda5050-emulator/src/vda5050_emulator/robot.py:664-693 | an instant action whose id is known is ignored; a new one starts at once beside the queue, or is reported FAILED if it is not supported |
| OrderRegistry.FreshIsEnrolled | packages/vda5050-emulator/src/vda5050_emulator/robot.py:533-556 | a fresh order lists exactly one waiting run for each id that its nodes and edges name and no instant action has, with the action, place and origin of such an element, and stops the tasks of everything registered |
| OrderRegistry.UpdateIsEnrolled | packages/vda5050-emulator/src/vda5050_emulator/robot.py:567-610 | an update forgets exactly the ids its horizon drops, and lists one run for each further id: of the actions new on its first node, then of its other nodes and its edges |
| SettingOff.SetsOffExactly | packages/vda5050-emulator/src/vda5050_emulator/robot.py:760-797 | a standing robot sets off if and only if nothing outside the order keeps it, a released edge leads on to a stored node, and no SOFT or HARD action is queued or is active and unsettled; it then drives along that edge to that node |
| SettingOff.ActiveExactly | packages/vda5050-emulator/src/vda5050_emulator/actions.py:103-130 | the active list after any step: what the step starts, and what was active before, of which a fresh order keeps the instant actions |
| SettingOff.SetsOffOnRun | packages/vda5050-emulator/src/vda5050_emulator/robot.py:760-793 | told from the whole run from power-on: exactly if a released edge leads on, nothing that blocks driving is queued, and every such action started since the last fresh order, or instant one ever, has settled |
| SettingOff.NeverBesideOwn | packages/vda5050-emulator/src/vda5050_emulator/robot.py:760-793 | over every run from power-on the robot never sets off beside a SOFT or HARD action that has been started and has not settled, if it lists it or it is an instant action |
| BesideRun.SetsOffBesideHard | packages/vda5050-emulator/src/vda5050_emulator/robot.py:567-583 | a concrete run from power-on on which it sets off beside a HARD action at work that an update made it forget |
| RobotTheorems.UpdateLeavesBaseAlone | packages/vda5050-emulator/src/vda5050_emulator/robot.py:567-610 | an accepted update leaves base elements the same objects, only adds releases, changes no action status, and the edge being driven stays current |
| RobotTheorems.CancelCoversEveryAction | packages/vda5050-emulator/src/vda5050_emulator/robot.py:1125-1160 | right after the clear pass of cancelOrder nothing is left of the graph and every action of the order is settled or awaited, also on nodes never reached |
| RobotTheorems.ArrivalHandsOver | packages/vda5050-emulator/src/vda5050_emulator/robot.py:951-967 | arriving hands every waiting action of the node to the engine if the captured node is still the stored one |
| RobotTheorems.CapturedUnlessRestitched | packages/vda5050-emulator/src/vda5050_emulator/robot.py:795-797 | nothing but an update stitched onto the driver's target makes the captured node stale |
| RobotTheorems.AddedActionIsQueued | packages/vda5050-emulator/src/vda5050_emulator/robot.py:583-597 | an action an update adds to its stitch node is listed and waits, and is queued if and only if the robot had reached that node |
| RobotTheorems.AddedMidEdgeIsStranded | packages/vda5050-emulator/src/vda5050_emulator/robot.py:795-967 | added while the robot drives towards that node, the action is passed over by the arrival there: it still waits, unqueued, and the robot is not idle |
| AddedActions.HandedOverExactlyUnlessOverlooked | packages/vda5050-emulator/src/vda5050_emulator/robot.py:583-638 | along any run that does not disturb it, by the time the stitch node is reached an added action has been handed over if and only if the update did not come while the robot drove to that node with a captured node that does not name the action |
| AddedActions.HandedOverExactlyUnlessUnderWay | packages/vda5050-emulator/src/vda5050_emulator/robot.py:795-967 | with the captured node fresh that is: if and only if the robot was not driving towards the stitch node |
| ServedActions.AddedIsHandedOverExactly | packages/vda5050-emulator/src/vda5050_emulator/robot.py:583-638 | through any later updates, those included that send the stitch node again or name the action elsewhere, an added action has been handed over if and only if the robot had reached the stitch node or has since come to an element whose captured object names it, unless an update makes the robot forget the run |
| ServedActions.ServedExactly | packages/vda5050-emulator/src/vda5050_emulator/robot.py:630-638 | a step hands a waiting action over if and only if it is an arrival at a node, or a departure along an edge, that names it |
| AddedActions.OverlookedStaysStranded | packages/vda5050-emulator/src/vda5050_emulator/robot.py:612-638 | a passed over action stays waiting and unqueued, and the robot busy, along every run without a cancel, a mode switch or a newer message naming its id |
| AddedActions.StrandedStays | packages/vda5050-emulator/src/vda5050_emulator/robot.py:612-638 | each such step keeps it so |
| AddedActions.ServedByArrival | packages/vda5050-emulator/src/vda5050_emulator/robot.py:951-967 | arriving at any node that names the waiting action queues it |
| StrandingRun.OvertakenRun | packages/vda5050-emulator/src/vda5050_emulator/robot.py:795-841 | a concrete run from power-on: order, setting off, then an update that adds an action to the node ahead |
| StrandingRun.OvertakenStrands | packages/vda5050-emulator/src/vda5050_emulator/robot.py:612-638 | whatever silent steps follow that run, the action is never handed over |
| VirtualAgvObject.VirtualAgv.FindDecisionPoint | packages/vda5050-emulator/src/vda5050_emulator/robot.py:446-450 | the search finds the released node with the greatest number, if there is one |
| VirtualAgvObject.VirtualAgv.Situation | packages/vda5050-emulator/src/vda5050_emulator/robot.py:442-479 | the snapshot handed to the decision is that of the object's state |
| VirtualAgvObject.VirtualAgv.OnOrder | packages/vda5050-emulator/src/vda5050_emulator/robot.py:481-531 | the whole new state after an order message, and the error reported; a rejected or repeated message changes nothing |
| VirtualAgvObject.VirtualAgv.StartFreshOrder | packages/vda5050-emulator/src/vda5050_emulator/robot.py:533-565 | the state a fresh order leaves: graph, states, registered actions, the first node's actions queued |
| VirtualAgvObject.VirtualAgv.ApplyOrderUpdate | packages/vda5050-emulator/src/vda5050_emulator/robot.py:567-610 | the state an update leaves: horizon replaced from the stitch on, in the graph, the state lists, the registry and the queue |
| VirtualAgvObject.VirtualAgv.RegisterOrderAction | packages/vda5050-emulator/src/vda5050_emulator/robot.py:612-625 | a known id is not registered again, a new one is listed last |
| VirtualAgvObject.VirtualAgv.EnqueueElementActions | packages/vda5050-emulator/src/vda5050_emulator/robot.py:630-638 | exactly the element's registered waiting actions are queued, in order |
| VirtualAgvObject.VirtualAgv.OnInstantAction | packages/vda5050-emulator/src/vda5050_emulator/robot.py:664-693 | a redelivered id does nothing, an unsupported action fails, others start at once |
| VirtualAgvObject.VirtualAgv.DriverStep | packages/vda5050-emulator/src/vda5050_emulator/robot.py:772-793 | the driver rests and may ask for a new base, or sets off along the next released edge |
| VirtualAgvObject.VirtualAgv.ArriveOrAbandon | packages/vda5050-emulator/src/vda5050_emulator/robot.py:817-841 | a traversal arrives, or is abandoned if its edge object was replaced |
| VirtualAgvObject.VirtualAgv.ArriveAt | packages/vda5050-emulator/src/vda5050_emulator/robot.py:951-967 | every field an arrival changes, and the queue after the node's actions are handed over |
| VirtualAgvObject.VirtualAgv.UpdateNewBaseRequest | packages/vda5050-emulator/src/vda5050_emulator/robot.py:969-975 | a new base is requested exactly when a horizon exists and no released edge lies ahead |
| VirtualAgvObject.VirtualAgv.HandleCancelOrder | packages/vda5050-emulator/src/vda5050_emulator/robot.py:1125-1145 | refused exactly when idle, already cancelled or meant for another order; otherwise the cleared state and the runs awaited |
| VirtualAgvObject.VirtualAgv.ClearOrderExecution | packages/vda5050-emulator/src/vda5050_emulator/robot.py:1147-1167 | every registered order action still WAITING fails, then graph and state lists are empty |
| VirtualAgvObject.VirtualAgv.SwitchToClearingMode | packages/vda5050-emulator/src/vda5050_emulator/robot.py:1293-1323 | the state after entering MANUAL, SERVICE, TEACH_IN or STARTUP |
| OrderChain.MessagesAreCompiled | packages/vda5050-master/src/vda5050_master/controller.py:200-242 | every message sent is what the mission compiler returns for its releases; the base never shrinks, and grows with every message if the releases do |
| OrderChain.SentIsChain | packages/vda5050-master/src/vda5050_master/missions.py:120-163 | every message sent is a chain that releases up to its base |
| OrderChain.StitchNamesPredecessor | packages/vda5050-master/src/vda5050_master/controller.py:221-242 | where every message adds to the base, the stitch point of a message identifies the one message it can follow |
| OrderChain.AcceptedIsPrefix | packages/vda5050-master/src/vda5050_master/controller.py:200-242 | where every message adds to the base, over any loss, repetition, delay and reordering, beside messages of other orders that the robot turns away, with driving, cancels, mode switches and engine steps in between, the accepted messages are exactly numbers 0 to k-1 in order |
| OrderChain.AcceptedIsChained | packages/vda5050-master/src/vda5050_master/controller.py:200-242 | for every non-decreasing schedule of releases and every network, messages of other orders that are turned away included, the accepted messages start with number 0, go up in number, and each starts at the decision point the one before left |
| OrderChain.BusyTurnsOthersAway | packages/vda5050-emulator/src/vda5050_emulator/order.py:172-225 | while an attempt keeps the robot busy every message of another order is turned away and changes nothing |
| OrderChain.StepTakesUp | packages/vda5050-emulator/src/vda5050_emulator/robot.py:481-531 | a delivery is either a message that stitches onto the base of the one taken up last, and is taken up, or changes nothing at all |
| OrderChain.DueMessageIsAccepted | packages/vda5050-emulator/src/vda5050_emulator/order.py:172-225 | a message that is due is accepted if and only if it fits, the surroundings admit it, and the robot is idle and in reach (first message) or neither cancelled nor cleared (updates) |
| OrderChain.LosslessFifo | packages/vda5050-master/src/vda5050_master/controller.py:221-242 | delivered in order and without loss to a robot found ready, every message from the first on is accepted, also one that releases nothing |
| OrderChain.IncrementalEqualsOneShot | packages/vda5050-master/src/vda5050_master/missions.py:86-163 | for every non-decreasing schedule of releases and every network, the robot stores the graph it would store after one order with the base of the message taken up last |
| OrderChain.InOrderEqualsOneShot | packages/vda5050-master/src/vda5050_master/missions.py:86-163 | delivered in order, any non-decreasing schedule ends in the graph of the one order with the last release |
| OrderActions.ActionIdsFollowMission | packages/vda5050-master/src/vda5050_master/missions.py:79-81 | for every non-decreasing schedule of releases and every network, through updates, cancels and mode switches, the listed action ids are the mission's ids in the mission's order |
| OrderActions.UpdateLedgerIds | packages/vda5050-emulator/src/vda5050_emulator/robot.py:567-625 | an update forgets exactly the actions beyond its stitch node and lists them again in order |
| OrderActions.FreshLedgerIds | packages/vda5050-emulator/src/vda5050_emulator/robot.py:545-556 | a fresh order lists the mission's actions in order, whatever instant actions are registered |
| OrderHandover.HandOver | packages/vda5050-emulator/src/vda5050_emulator/robot.py:630-638 | handing over the actions of a waypoint keeps the engine's discipline and touches no later action |
| OrderHandover.InHandGoesOn | packages/vda5050-emulator/src/vda5050_emulator/robot.py:481-976 | through every step of an attempt, updates included, the actions beyond the robot stay unqueued, unstarted and waiting |
| OrderHandover.StartsInHand | packages/vda5050-emulator/src/vda5050_emulator/robot.py:533-565 | so they are from the first message on, on a robot that was at rest |
| SettledActions.SettledStays | packages/vda5050-emulator/src/vda5050_emulator/actions.py:132-160 | while the engine is disciplined, as it is along an attempt until a cancel or mode switch, no step changes the status of a settled action, that cancel or switch included |
| SettledActions.ChangesExactly | packages/vda5050-emulator/src/vda5050_emulator/actions.py:132-189 | in any state and for any step, the status of a settled action changes if and only if its handler had not begun and now reports another status, or it is queued although finished and a cancel empties the queue |
| SlippedActions.SettledChangesExactly | packages/vda5050-emulator/src/vda5050_emulator/actions.py:114-175 | along every attempt with cancels and mode switches, from a robot at rest, a settled action changes its status if and only if a cancel or switch overlooked it, it has been started, and its handler now first reports; overlooked is what the runner held popped and unstarted, and at a cancel also an unstoppable action whose handler had not begun |
| SlippedActions.SettledForGood | packages/vda5050-emulator/src/vda5050_emulator/actions.py:168-189 | an action that no cancel and no switch of the attempt overlooks keeps the status it settled with to the end |
| SlippedActions.OverlookedFails | packages/vda5050-emulator/src/vda5050_emulator/robot.py:1147-1160 | what a cancel or switch overlooks is reported FAILED at once |
| SlippingRun.FailedActionRuns | packages/vda5050-emulator/src/vda5050_emulator/actions.py:114-160 | a concrete run from power-on: order, the runner pops its action, cancel, the runner starts it; it has FAILED, and RUNNING is the next thing its handler reports |
| OrderHandover.LosslessFromRest | packages/vda5050-master/src/vda5050_master/controller.py:221-242 | an idle robot at rest with the first node in reach is found ready, so everything delivered in order is accepted |
| MissionController.ObservedKeeps | packages/vda5050-master/src/vda5050_master/controller.py:200-274 | the release bookkeeping names the message sent last, each update sent is the one due, a decided attempt is left alone, and completion needs every mission action shown FINISHED and none FAILED |
| MissionController.VerdictIsExact | packages/vda5050-master/src/vda5050_master/controller.py:208-218 | the first state that names the order decides: the attempt is rejected exactly if that state shows another order or an error about this one, and otherwise waits for the next release, or for the end if the whole route is released |
| MissionController.RejectedExactly | packages/vda5050-master/src/vda5050_master/controller.py:208-217 | over any sequence of states an attempt is rejected if and only if the first one that names the order, as its own or in an error, does not approve of it |
| MissionController.ReleaseIsExact | packages/vda5050-master/src/vda5050_master/controller.py:220-242 | while waypoints are unreleased a state sends the next message exactly if it stands at the waypoint released last or asks for a base; the message starts at that waypoint and names the rest of the route, with the next release |
| MissionController.WaitsExactly | packages/vda5050-master/src/vda5050_master/controller.py:244-302 | the last two waits go on exactly until a state has nothing ahead and shows every action settled or RETRIABLE, and after a skip until all are final |
| MissionController.Showing | packages/vda5050-master/src/vda5050_master/controller.py:260-266 | the collected entries are empty exactly when no mission action is in one of the statuses |
| MissionController.ConclusionIsShown | packages/vda5050-master/src/vda5050_master/controller.py:244-274 | an outcome is concluded only from a state that shows every mission action FINISHED or FAILED, and it is a failure if and only if one is shown FAILED |
| MissionController.StepwiseIsStrict | packages/vda5050-master/src/vda5050_master/controller.py:200-242 | the controller's schedule, a fixed number of waypoints more each time, adds to the base with every message; it exists exactly for a step in range |
| MissionController.StepwiseNext | packages/vda5050-master/src/vda5050_master/controller.py:221-242 | there is a next message exactly while waypoints are unreleased, and it releases one step more, cut off at the end |
| MissionController.DriveAttempt.Begin | packages/vda5050-master/src/vda5050_master/controller.py:200-206 | the attempt starts exactly when the release is in range, with the first message |
| MissionController.DriveAttempt.OnState | packages/vda5050-master/src/vda5050_master/controller.py:208-302 | what the attempt does and sends on each state message, in each of its waits; the rows above and those of `DispatchProgress` say what that comes to |
| MissionController.DriveAttempt.Extend | packages/vda5050-master/src/vda5050_master/controller.py:231-242 | one turn of the release loop sends the update for the extended base; compiling it never fails |
| MissionController.DriveAttempt.Settle | packages/vda5050-master/src/vda5050_master/controller.py:244-302 | asks to skip exactly the RETRIABLE actions, or concludes |
| EndToEnd.CompletedIsDone | packages/vda5050-master/src/vda5050_master/controller.py:244-274 | COMPLETED means the whole route was sent and the robot stands at the last waypoint with every mission action FINISHED, as it did in the state concluded from; state messages may be late or lost, order messages lost, repeated and overtaken, and others turned away in between |
| EndToEnd.FailedIsSettled | packages/vda5050-master/src/vda5050_master/controller.py:250-274 | FAILED after the wait for the end means the same, every mission action settled and at least one FAILED |
| EndToEnd.AttemptsCanStart | packages/vda5050-master/src/vda5050_master/controller.py:200-206 | for every mission, release step in range and order id, a robot just switched on is a start such runs begin from |
| EndToEnd.NextAttemptCanStart | packages/vda5050-master/src/vda5050_master/controller.py:200-206 | whatever run an attempt completed or failed on, its robot is a start for the next attempt with a fresh order id and fresh action ids |
| OrderRest.OrderBusyGoesOn | packages/vda5050-emulator/src/vda5050_emulator/robot.py:481-976 | through every step of an attempt what is unsettled on the robot belongs to the order, so a completed order leaves it at rest |
| EndToEnd.DrainedIsAtEnd | packages/vda5050-emulator/src/vda5050_emulator/robot.py:951-967 | node states drain only after the last update has been applied and driven |
| EndToEnd.StaysAtEnd | packages/vda5050-emulator/src/vda5050_emulator/robot.py:772-793 | a robot at the end of the route stays there whatever arrives, short of a cancel or mode switch |
| EndToEnd.ShownIsTrue | packages/vda5050-master/src/vda5050_master/fleet.py:213-223 | a state message shows a mission action in some status if and only if the action has it on the robot |
| DispatchProgress.TakenUpIsApproved | packages/vda5050-master/src/vda5050_master/controller.py:208-218 | on every run: once the robot has taken up the order its state lets a waiting attempt go on |
| DispatchProgress.ReleaseGoesOn | packages/vda5050-master/src/vda5050_master/controller.py:220-242 | a robot that has driven out what was sent last and whose state is seen is sent the next message, which it takes up where nothing outside stands in the way |
| DispatchProgress.HandshakeIsRun | packages/vda5050-master/src/vda5050_master/controller.py:220-242 | that exchange is a continuation of every run |
| DispatchProgress.EndIsExact | packages/vda5050-master/src/vda5050_master/controller.py:244-274 | in the wait for the end the state of the robot decides: over exactly if it is at the end of the route with every action finished or failed, completed exactly if all are finished; RETRIABLE ones are asked to be skipped |
| DispatchProgress.SkipsExactly | packages/vda5050-master/src/vda5050_master/controller.py:286-294 | asked to be skipped are exactly the mission's actions that wait for a retry on the robot |
| DispatchProgress.FinalIsExact | packages/vda5050-master/src/vda5050_master/controller.py:296-302 | after that the attempt is over exactly if no action waits any more |
| DispatchProgress.DoneIsConcluded | packages/vda5050-master/src/vda5050_master/controller.py:200-274 | along every run, losses and reordering included, on which no state reported an error about the order: once the robot is at the end of the route with every action finished or failed, two further states seen end the attempt, COMPLETED exactly if all are finished |
| DispatchProgress.RunsAreNotAhead | packages/vda5050-master/src/vda5050_master/controller.py:200-242 | over every run the robot has taken up nothing that was not sent, and a rejected attempt has seen a state with an error about its order |
| MissionTimeline.OneMissionAtATime | packages/amr-emulator/src/amr_emulator/behaviors.py:344-383 | over every run of enqueue, abort, delete, clear and clock readings windows are ordered and disjoint and at most one mission executes |
| MissionTimeline.WindowIsExact | packages/amr-emulator/src/amr_emulator/behaviors.py:344-365 | a mission starts one second after it was queued or when the one before is over, whichever is later, and takes its own duration; an abort ends it there, even before it started |
| MissionTimeline.AbortIsExact | packages/amr-emulator/src/amr_emulator/behaviors.py:223-233 | an abort marks exactly the missions that have neither ended nor been aborted before |
| MissionTimeline.StepKeepsOk | packages/amr-emulator/src/amr_emulator/behaviors.py:223-233 | every operation keeps the queue in order with each abort instant at or after the previous finish |
| MissionTimeline.UnreachableQueuesOverlap | packages/amr-emulator/src/amr_emulator/behaviors.py:344-365 | a queue no run can build has overlapping windows |
| MissionTimeline.StepNeverMovesBack | packages/amr-emulator/src/amr_emulator/behaviors.py:376-383 | no surviving entry moves back in Pending, Executing, Done or Aborted in any operation, also when an earlier one is deleted |
| MissionTimeline.RunNeverMovesBack | packages/amr-emulator/src/amr_emulator/behaviors.py:376-383 | nor over any run it survives |
| MissionTimeline.AbortNotBack | packages/amr-emulator/src/amr_emulator/behaviors.py:223-233 | an abort turns exactly the unfinished entries into Aborted and leaves Done ones Done |
| MissionTimeline.OdometerIsContinuous | packages/amr-emulator/src/amr_emulator/behaviors.py:411-421 | no jump at an enqueue or abort; between clock readings it grows by at most the time that passed |
| MissionTimeline.OdometerNeverOutrunsClock | packages/amr-emulator/src/amr_emulator/behaviors.py:411-421 | along any run without deletes it never falls and never outruns the clock |
| MissionTimeline.OdometerWithinQueueTime | packages/amr-emulator/src/amr_emulator/behaviors.py:411-421 | it never exceeds the time since the first entry was queued |
| MissionTimeline.DeleteNeverRaisesOdometer | packages/amr-emulator/src/amr_emulator/behaviors.py:1010-1020 | a delete never raises the odometer and leaves it alone if the mission had not started |
| MissionTimeline.DeleteLowersExactly | packages/amr-emulator/src/amr_emulator/behaviors.py:1010-1020 | a delete lowers the odometer if and only if the entry exists, had run, and the windows behind it, moved up, leave part of its time unused |
| MissionTimeline.DeleteCanLowerOdometer | packages/amr-emulator/src/amr_emulator/behaviors.py:1010-1020 | it can lower it, by the whole of a finished mission |
| MissionTimeline.MissionQueue.ComputeWindows | packages/amr-emulator/src/amr_emulator/behaviors.py:344-365 | the cursor loop computes the recursive window function |
| MissionTimeline.MissionQueue.Post | packages/amr-emulator/src/amr_emulator/behaviors.py:921-938 | a new entry with the current instant and its own frozen duration goes last |
| MissionTimeline.MissionQueue.AbortQueue | packages/amr-emulator/src/amr_emulator/behaviors.py:223-233 | marks by the windows computed beforehand, keeping earlier marks |
| MissionTimeline.MissionQueue.Remove | packages/amr-emulator/src/amr_emulator/behaviors.py:1010-1020 | removes the entry with that id, or reports that there is none |
| MissionTimeline.MissionQueue.RemoveAll | packages/amr-emulator/src/amr_emulator/behaviors.py:1004-1007 | empties the queue, which takes the odometer to zero |
| MissionTimeline.MissionQueue.ExecutedSeconds | packages/amr-emulator/src/amr_emulator/behaviors.py:411-421 | the sum over the windows is the odometer |
| SimClock.Continuous | packages/amr-emulator/src/amr_emulator/behaviors.py:261-341 | no pause, hold, resume, fault change or scale change makes the clock jump |
| SimClock.NeverBackwards | packages/amr-emulator/src/amr_emulator/behaviors.py:310-341 | over any sequence of them it never runs backwards |
| SimClock.ReadsAsStopwatch | packages/amr-emulator/src/amr_emulator/behaviors.py:304-341 | after any operations at any instants the clock shows at every instant what a plain stopwatch does: reading, speed and what holds it, without anchors and totals |
| SimClock.PausedStandsStill | packages/amr-emulator/src/amr_emulator/behaviors.py:323-328 | after a pause, for whatever reason and however often, every later reading is that of the pause |
| SimClock.ResumedRuns | packages/amr-emulator/src/amr_emulator/behaviors.py:331-341 | after a resume the reading grows by elapsed time times scale, whatever had stopped the clock |
| SimClock.FaultsDecide | packages/amr-emulator/src/amr_emulator/behaviors.py:261-287 | after a change of faults the clock stands still if it was running and a holding fault is active, runs again exactly if a fault had stopped it and none holds any more, and a pause somebody asked for stays |
| SimClock.RescaledRuns | packages/amr-emulator/src/amr_emulator/behaviors.py:561-580 | a scale from 0.001 to 3600 counts from now on, any other changes nothing, and a stopped clock stays stopped |
| SimClock.OnlyMissionFailureAborts | packages/amr-emulator/src/amr_emulator/behaviors.py:261-276 | clock operations leave the queue alone, but for a mission failure that was not active before, which aborts everything unfinished |
| SimClock.FrozenUnlessResumed | packages/amr-emulator/src/amr_emulator/behaviors.py:261-341 | an operation lets the clock run during a holding fault exactly when it is a resume |
| SimClock.ResumeThawsEmergencyStop | packages/amr-emulator/src/amr_emulator/behaviors.py:331-341 | the exception at work |
| SimClock.OneMissionOnTheWallClock | packages/amr-emulator/src/amr_emulator/behaviors.py:214-383 | whatever requests arrive on the wall clock, clock operations and faults included, at most one mission executes |
| SimClock.SimulatedClock.Read | packages/amr-emulator/src/amr_emulator/behaviors.py:214-220 | scaled time minus every paused interval |
| SimClock.SimulatedClock.SetTimeScale | packages/amr-emulator/src/amr_emulator/behaviors.py:561-580 | re-anchors at the current simulated instant; out of range it is refused and changes nothing |
| SimClock.SimulatedClock.PauseSim | packages/amr-emulator/src/amr_emulator/behaviors.py:323-328 | a second pause keeps the first instant and takes over the reason |
| SimClock.SimulatedClock.ResumeSim | packages/amr-emulator/src/amr_emulator/behaviors.py:331-341 | adds the paused interval and forgets the reason, whatever it was |
| SimClock.SimulatedClock.ReplaceFaults | packages/amr-emulator/src/amr_emulator/behaviors.py:261-287 | freezes or thaws by the new set, never touching a pause somebody asked for, and aborts the queue exactly on a newly active aborting fault |
| SimClock.SimulatedClock.PutStatus | packages/amr-emulator/src/amr_emulator/behaviors.py:850-901 | state change first, then the error reset, which never aborts the queue |
| DistanceStatistics.AddWindow | packages/amr-emulator/src/amr_emulator/behaviors.py:1114-1120 | the midnight loop ends and adds to each day exactly the overlap of the window with it |
| DistanceStatistics.ByDay | packages/amr-emulator/src/amr_emulator/behaviors.py:1101-1125 | every bucket is the total overlap with its day, and a day is present exactly if it is today or has any |
| DistanceStatistics.DayIsNotOverbooked | packages/amr-emulator/src/amr_emulator/behaviors.py:1101-1125 | no day has more than 86400 seconds |
| DistanceStatistics.DaysConserveSeconds | packages/amr-emulator/src/amr_emulator/behaviors.py:1101-1125 | the days add up to the executed seconds and no other day has any |
| WebSocketFrames.CodecRoundTrip | packages/massrobotics-emulator/src/massrobotics_emulator/ws.py:106-199 | for every payload, key and suffix the opposite role reads back the same frame and leaves exactly the suffix; it is refused exactly when a control frame is fragmented or oversized or the payload exceeds the limit |
| WebSocketFrames.SentInFormat | packages/massrobotics-emulator/src/massrobotics_emulator/ws.py:106-127 | what is written has the format of section 5.2 of RFC 6455: first byte, mask bit and length field, big-endian extended length of 0, 2 or 8 bytes by the range of the length, key, and the payload masked octet by octet |
| WebSocketFrames.SentIsShortest | packages/massrobotics-emulator/src/massrobotics_emulator/ws.py:114-121 | no shorter string of bytes is read as the same frame by the opposite role |
| WebSocketFrames.ReadsExactly | packages/massrobotics-emulator/src/massrobotics_emulator/ws.py:172-199 | a frame is read exactly where the input begins with one in that format, masked as the role demands, legal and within the limit, and exactly the bytes behind it are left |
| WebSocketFrames.RefusesExactly | packages/massrobotics-emulator/src/massrobotics_emulator/ws.py:172-196 | why a frame is not read: the stream ends before or inside it, or it is refused, with 1002 for its first bytes, 1009 for its length, 1002 for its mask bit, in this order |
| WebSocketFrames.XorIsBitwise | packages/massrobotics-emulator/src/massrobotics_emulator/ws.py:122-125 | masking is exclusive or, bit by bit |
| WebSocketFrames.SequenceRoundTrip | packages/massrobotics-emulator/src/massrobotics_emulator/ws.py:106-199 | any sequence of sent frames decodes to itself |
| WebSocketFrames.MaskedTwice | packages/massrobotics-emulator/src/massrobotics_emulator/ws.py:122-125 | masking is its own inverse for every key |
| WebSocketFrames.BigRoundTrip | packages/massrobotics-emulator/src/massrobotics_emulator/ws.py:115-121 | extended lengths survive the wire |
| WebSocketConnection.ReceivesEveryLegalSplit | packages/massrobotics-emulator/src/massrobotics_emulator/ws.py:132-166 | for every legal split with any pings and pongs in between the message is the concatenation of the fragments, each ping was answered once, in order, with its payload, and what follows is unread |
| WebSocketConnection.RefusesOutOfPlace | packages/massrobotics-emulator/src/massrobotics_emulator/ws.py:147-157 | every out-of-place continuation, interleaved data frame, binary frame and reserved opcode fails with its close code, after any unfinished stretch |
| WebSocketConnection.CloseRoundTrip | packages/massrobotics-emulator/src/massrobotics_emulator/ws.py:86-104 | a close arrives with its code and as much of the reason as fits, and is answered with that code |
| WebSocketConnection.SentIsExact | packages/massrobotics-emulator/src/massrobotics_emulator/ws.py:106-128 | one unfragmented frame is written in that format, and a client draws a new key for it |
| WebSocketConnection.ClosesExactly | packages/massrobotics-emulator/src/massrobotics_emulator/ws.py:86-104 | an open connection sends two bytes of code and at most 123 bytes of the reason and is closed; a closed one stays as it is |
| WebSocketConnection.NextDecides | packages/massrobotics-emulator/src/massrobotics_emulator/ws.py:132-166 | what the next frame makes of a receive in progress, for every opcode, legal or not |
| WebSocketConnection.WebSocket.SendFrame | packages/massrobotics-emulator/src/massrobotics_emulator/ws.py:106-128 | the bytes written are the frame's encoding, whose format `SentInFormat` gives in all three length forms |
| WebSocketConnection.WebSocket.ReadFrame | packages/massrobotics-emulator/src/massrobotics_emulator/ws.py:172-199 | reading step by step is decoding, and leaves the connection as the outcome demands |
| WebSocketConnection.WebSocket.Close | packages/massrobotics-emulator/src/massrobotics_emulator/ws.py:86-104 | sends one close frame, and none when already closed |
| WebSocketConnection.WebSocket.ReceiveText | packages/massrobotics-emulator/src/massrobotics_emulator/ws.py:132-166 | the loop computes the receive function the theorems are about |
| TrailingCommas.StripTrailingCommas | scripts/sync_vda5050_schemas.py:52-90 | the pass with deletions in the buffer removes exactly the commas outside strings whose next non-blank character is a closer, and its count is the length difference |
| TrailingCommas.KeepsLiterals | scripts/sync_vda5050_schemas.py:52-90 | string literals come through untouched and nothing but commas outside them is lost |
| TrailingCommas.TrailingExactly | scripts/sync_vda5050_schemas.py:52-90 | a comma goes exactly if it stands outside strings and only blanks are between it and a closing brace or bracket |
| TrailingCommas.LiteralsArePassedOver | scripts/sync_vda5050_schemas.py:52-90 | whatever a literal contains, escaped quotes included, it comes through as one piece and what follows is treated as if it stood alone |
| TrailingCommas.IdempotentExactlyWhenNotDoubled | scripts/sync_vda5050_schemas.py:52-90 | a second pass changes nothing if and only if no two commas stood doubled before a closer |
| TrailingCommas.DoubledCommaSurvives | scripts/sync_vda5050_schemas.py:52-90 | the input on which it does |
| OpenApi.DerefCommutes | packages/amr-emulator/src/amr_emulator/openapi3.py:16-27 | dereferencing in the converted document is the rewriting of dereferencing in the original, at every depth, cyclic references and raised errors included |
| OpenApi.RefResolves | packages/amr-emulator/src/amr_emulator/spec.py:52-58 | a rewritten reference leads to the rewritten target, through escapes and nested paths |
| References.DerefIsSelfContained | packages/amr-emulator/src/amr_emulator/spec.py:60-81 | dereferencing returns a schema with no reference left within its members, items and alternatives, cycles included |
| References.PointerRoundTrip | packages/amr-emulator/src/amr_emulator/spec.py:56-58 | the part of a reference written for a key leads back to that key, slashes and tildes included |
| OperationTables.LoadersAgree | packages/amr-emulator/src/amr_emulator/openapi3.py:33-106 | for JSON-first operations without path-level parameters the table loaded from the converted document has the same operations, parameters, status codes and body flags as the original's, and schemas that dereference alike |
| OperationTables.OperationAgrees | packages/amr-emulator/src/amr_emulator/spec.py:84-153 | one operation read by both loaders, body and responses included |
| OperationTables.ParametersAgree | packages/amr-emulator/src/amr_emulator/openapi3.py:33-55 | path and query parameters come through with name, place and type, in order |
| OperationTables.ResponsesAgree | packages/amr-emulator/src/amr_emulator/openapi3.py:62-73 | every numeric status code keeps a schema that dereferences to the rewriting of the original's |
| OperationTables.SharedParameterAgreesExactly | packages/amr-emulator/src/amr_emulator/openapi3.py:86-88 | a path-level parameter agrees exactly if its type is `string` |
| OperationTables.SameDerived | packages/amr-emulator/src/amr_emulator/spec.py:31-41 | success status and path parameter types follow |
| OperationTables.ConvertOperation | packages/amr-emulator/src/amr_emulator/openapi3.py:40-73 | the loops over parameters and responses compute the converted operation |
| OperationTables.Convert | packages/amr-emulator/src/amr_emulator/openapi3.py:76-106 | the document conversion, refused for anything but Swagger 2.0 |
| OperationTables.LoadSwagger | packages/amr-emulator/src/amr_emulator/spec.py:84-106 | the nested loops fill the table the agreement is about |
| OperationTables.LoadOpenApi | packages/amr-emulator/src/amr_emulator/spec.py:109-153 | likewise for the other loader |
| OperationReading.SwaggerTableIsRead | packages/amr-emulator/src/amr_emulator/spec.py:84-106 | the Swagger table has exactly the operations of the document, each under its method in upper case and its path, read with the parameters the path shares |
| OperationReading.OpenApiTableIsRead | packages/amr-emulator/src/amr_emulator/spec.py:109-153 | so has the OpenAPI table |
| OperationReading.SwaggerOperationIsRead | packages/amr-emulator/src/amr_emulator/spec.py:91-105 | one operation has the parameters in path or query, in order, and the schema and flag of its first body |
| OperationReading.SwaggerResponsesAreRead | packages/amr-emulator/src/amr_emulator/spec.py:93-96 | per numeric status code the schema of the last response under it, and nothing under other keys |
| OperationReading.OpenApiOperationIsRead | packages/amr-emulator/src/amr_emulator/spec.py:116-151 | parameters with the type of their schema or `string`, in order |
| OperationReading.OpenApiBodyIsRead | packages/amr-emulator/src/amr_emulator/spec.py:124-132 | the body is that of the first JSON media type |
| OperationReading.OpenApiResponsesAreRead | packages/amr-emulator/src/amr_emulator/spec.py:133-143 | per numeric status code the schema of the last JSON media type answered with |
| OperationReading.SuccessIsLowest | packages/amr-emulator/src/amr_emulator/spec.py:31-34 | the success status is the lowest of the 2xx range, 200 without one |
| OperationReading.TypesAreRead | packages/amr-emulator/src/amr_emulator/spec.py:40-41 | the type of a path parameter is that of the last one of its name, `string` unless it has one |
| OperationReading.ParameterIsConverted | packages/amr-emulator/src/amr_emulator/openapi3.py:33-37 | what describes the values of a parameter moves into its schema, `string` without any, and everything else stays |
| OperationReading.BodyIsConverted | packages/amr-emulator/src/amr_emulator/openapi3.py:47-55 | a body becomes a JSON request with the same schema, flag and description |
| OperationReading.OperationIsConverted | packages/amr-emulator/src/amr_emulator/openapi3.py:40-73 | an operation keeps every other entry; its responses go by the same codes in the first media type it or the document produces |
| OperationReading.DocumentIsConverted | packages/amr-emulator/src/amr_emulator/openapi3.py:76-106 | the converted document has its version, the original's info, server and warnings, and its definitions under components |
| Fragments.InliningLosesNothing | packages/amr-spec-scraper/src/amr_spec_scraper/pdf_convert.py:294-320 | without a cycle of fragments every schema, written out to any depth of references, says after inlining at least what it said before |
| Fragments.InliningMakesNothingUp | packages/amr-spec-scraper/src/amr_spec_scraper/pdf_convert.py:294-320 | whatever the document, it says nothing it did not say before |
| Fragments.NoneLeftExactlyWithoutCycle | packages/amr-spec-scraper/src/amr_spec_scraper/pdf_convert.py:302-320 | a reference to a dropped definition remains if and only if a cycle of fragments is reached from what is kept |
| Fragments.TargetIsExact | packages/amr-spec-scraper/src/amr_spec_scraper/pdf_convert.py:304-307 | which definition an object refers to |
| Fragments.FragmentNames | packages/amr-spec-scraper/src/amr_spec_scraper/pdf_convert.py:302 | fragments are the definitions whose names start with a letter from a to z |
| Fragments.CyclesOccur | packages/amr-spec-scraper/src/amr_spec_scraper/pdf_convert.py:302-320 | a document the builder can make in which a cycle is reached and a reference remains |
| Fragments.LeftoverExactlyOnCycle | packages/amr-spec-scraper/src/amr_spec_scraper/pdf_convert.py:304-315 | the same for one tree; the recursion ends because the stack only takes fragments not on it |
| ConsistencyWarnings.ConsistencyPass.Walk | packages/amr-spec-scraper/src/amr_spec_scraper/pdf_convert.py:380-392 | takes out every mark of a notation not understood and notes exactly the references of the rest to unknown definitions |
| ConsistencyWarnings.MarksAreFound | packages/amr-spec-scraper/src/amr_spec_scraper/pdf_convert.py:380-391 | the marks noted are what stands at the end of a way down that ends in the key of a notation not understood and passes no other |
| ConsistencyWarnings.StrippedKeepsRest | packages/amr-spec-scraper/src/amr_spec_scraper/pdf_convert.py:380-391 | the document without marks has everything else where it was |
| ConsistencyWarnings.FinishDocument | packages/amr-spec-scraper/src/amr_spec_scraper/pdf_convert.py:364-369 | what is reported is exactly what dangles in the finished document; a fragment dangles only if a cycle is reached, and then, where the marks of notations not understood are leaves, one is reported |
| SessionTable.KeptExactlyWhileRecent | packages/amr-emulator/src/amr_emulator/app.py:202-214 | a session is in the table if and only if at most 256 ids, itself among them, were in use since one of its requests |
| SessionTable.TableIsNewest | packages/amr-emulator/src/amr_emulator/app.py:202-214 | the table lists the 256 most recently used ids in the order of their last use |
| SessionTable.SessionsAreIsolated | packages/amr-emulator/src/amr_emulator/app.py:207-210 | no two sessions ever share a robot |
| SessionTable.RobotIsKept | packages/amr-emulator/src/amr_emulator/app.py:207-214 | the robot handed out is the session's own on the request right after |
| SessionTable.RobotStays | packages/amr-emulator/src/amr_emulator/app.py:207-214 | along any run in which a session stays in the table each of its requests gets the same robot |
| SessionTable.Emulator.StateFor | packages/amr-emulator/src/amr_emulator/app.py:202-214 | the new table and the robot handed out; no id is the default robot and changes nothing |
| OpenApi.WalkRewritten | packages/amr-emulator/src/amr_emulator/spec.py:56-58 | corresponding paths in original and rewritten document lead to corresponding values |

## Left out

- Zones, zone actions, edge requests, teleport, hibernation, maps, loads, charging and fault injection of the virtual robot: separate features, or side doors around the order protocol.
- Robot geometry and kinematics: a traversal sets off and later arrives or is abandoned; whether the first node is in reach is a parameter.
- `retry` of a RETRIABLE action: it replaces the event a runner waits on, so the queue may never move again; `skipRetry` is modelled.
- Handlers of single actions: a handler reports progress and ends in any way the engine allows.
- Actions.StepKeepsDiscipline: does not cover cancelOrder and mode switches, because a run popped and held by the queue runner while they happen is failed and later executed all the same.
- Schema validation, MQTT, asyncio scheduling, timeouts, state and visualization publishing: orders are schema-valid, the network is a set of messages, every interleaving is a run.
- Retries of rejected orders, mission queues per robot and the choice of a robot: attempts follow one another with fresh order and action ids.
- MissionController.DriveAttempt.OnState: does not model cancellation, offline robots and timeouts, which end the attempt from outside.
- AddedActions.HandedOverExactlyUnlessOverlooked: no other stored element carries the added action's id, and until the stitch node is reached nobody cancels, switches the mode or sends a message that replaces that node or names the id; `ServedActions.AddedIsHandedOverExactly` covers those messages.
- DispatchProgress.DoneIsConcluded: that the robot gets to the end, and that its state is seen, is left to what happens outside; the handlers of its actions, too, take as long as they like.
- EndToEnd.CompletedIsDone: the robot is at rest when the attempt starts, state messages arrive in order, nobody cancels or switches the mode during the attempt, and messages of other orders are turned away, as they are while the robot is busy.
- OrderChain.AcceptedIsPrefix: an idle robot may take up a late message of another order, which ends what is said of the attempt.
- SlippedActions.SettledChangesExactly: a single attempt; what an overlooked action does during the attempt that follows is not said.
- Battery model, registers, error reports and the rest of the MiR surface: settled by reading one branch.
- SimClock.SimulatedClock.PutStatus: the clock and fault part only; argument errors and the other fields are not modelled.
- MissionTimeline.MissionQueue.Post: durations are not negative, as the request header requires; the check that the mission exists is not modelled.
- The rounding of distances to two decimals, and ISO dates.
- UTF-8: messages are byte strings, so the 1007 failure does not occur; the opening handshake and HTTP parsing are not modelled.
- OperationTables.LoadersAgree: for documents of the supported subset: at most one body, with a schema, no OpenAPI keys in the Swagger document, parameter names and types that are text. The `produces` of operations and the base path of the document are not compared.
- Fragments.InliningLosesNothing: for documents as the PDF builder makes them, where at most a description stands beside a reference. The original does not resolve what stands beside one.
- A `$ref` that is not text, which makes the PDF converter and the loaders raise; Unicode digits in status codes.
- Parsing of PDF tables, the texts of warnings, and locking of the session table.
- The fleet, MassRobotics and ARCL emulators, the adapter, reports and CLI.
