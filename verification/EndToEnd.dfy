/** Dispatcher and robot together: what COMPLETED means. State messages arrive in the order they
    were published and may be lost or late; order messages may be lost, repeated and overtaken. */
module EndToEnd {
  import opened Vda5050
  import opened Missions
  import opened Actions
  import opened RobotModel
  import opened RobotInvariants
  import opened OrderChain
  import opened OrderActions
  import opened OrderHandover
  import opened OrderRest
  import opened SettledActions
  import opened MissionController

  /** A published state: the robot it was taken from, and what else it reports. */
  datatype Posting = Posting(robot: SoundRobot, others: seq<ActionState>, refused: set<string>)

  function Reported(r: SoundRobot): seq<ActionState> {
    seq(|r.actionStates|, i requires 0 <= i < |r.actionStates| =>
      ActionState(r.engine.table[r.actionStates[i]].action.id, r.engine.table[r.actionStates[i]].status))
  }

  function SnapshotOf(q: Posting): Snapshot {
    Snapshot(q.robot.orderId, q.robot.lastNodeId, q.robot.newBaseRequest, q.robot.nodeStates, q.robot.edgeStates,
             Reported(q.robot) + q.others, q.refused)
  }

  /** The robot has driven the whole route. */
  ghost predicate AtEnd(r: Robot, p: Plan)
    requires p.Valid()
  {
    && r.orderId == p.orderId && r.nodeStates == [] && r.edgeStates == []
    && r.lastSeq == NodeNumber(0, p.Total() - 1)
    && r.lastNodeId == p.mission.waypoints[p.Total() - 1].nodeId
  }

  ghost predicate AllFinished(r: SoundRobot, p: Plan) {
    && ListedIds(r) == Work(p)
    && forall i | 0 <= i < |r.actionStates| :: r.engine.table[r.actionStates[i]].status == Finished
  }

  ghost predicate AllSettled(r: SoundRobot, p: Plan) {
    && ListedIds(r) == Work(p)
    && forall i | 0 <= i < |r.actionStates| :: r.engine.table[r.actionStates[i]].Settled()
  }

  /** At the end of the route with every mission action settled. */
  ghost predicate Closed(r: SoundRobot, p: Plan)
    requires p.Valid()
  {
    AtEnd(r, p) && AllSettled(r, p)
  }

  // ------------------------------------------------------------- the robot

  /** Horizon nodes keep the state lists non-empty until the last update is applied and driven. */
  lemma DrainedIsAtEnd(r: SoundRobot, p: Plan, k: nat)
    requires p.Valid() && Underway(r, p, k) && r.nodeStates == []
    ensures Released(p, k - 1) == p.Total() && AtEnd(r, p)
    ensures NextEdge(r).None? && !Current(r)
  {
    var lo, at, base, n :| Laid(r, lo, at, base, n);
    RouteIsLaid(r, p, Released(p, k - 1), lo, at, base, n);
    assert r.nodes[NodeNumber(0, at)] == NodeAt(p.mission, p.v2, Released(p, k - 1), at);
    NothingAhead(r, p.Total());
  }

  lemma NothingAhead(r: Robot, n: nat)
    requires n >= 1 && DriverOk(r) && r.nodes.Keys == NodeKeys(0, n) && r.edges.Keys == EdgeKeys(0, n - 1)
    requires r.lastSeq == NodeNumber(0, n - 1)
    ensures NextEdge(r).None? && !Current(r)
  {
    assert r.lastSeq + 1 !in EdgeKeys(0, n - 1);
    assert r.lastSeq + 2 !in NodeKeys(0, n);
  }

  lemma LastNodeAgain(r: SoundRobot, o: Order, s: Surroundings)
    requires Decide(r, o, s).Accept? && r.hasOrder && r.orderId == o.orderId && |o.nodes| == 1 && r.nodeStates == []
    ensures OnOrder(r, o, s).nodeStates == []
  {
    UpdateOutcome(r, o, s);
  }

  /** An update accepted at the end of the route sends its last node once more. */
  lemma NothingMoreToDrive(r: SoundRobot, p: Plan, k: nat, o: Order, s: Surroundings)
    requires p.Valid() && Underway(r, p, k) && Released(p, k - 1) == p.Total() && r.nodeStates == []
    requires Decide(r, o, s).Accept? && exists i: nat :: Sendable(p, i) && o == Message(p, i)
    ensures OnOrder(r, o, s).nodeStates == []
  {
    var i := AcceptedIsTakenUp(r, p, k, o, s);
    assert |o.nodes| == 1;
    LastNodeAgain(r, o, s);
  }

  /** A robot at the end of the route stays there until somebody cancels or switches its mode. */
  lemma StaysAtEnd(r: SoundRobot, p: Plan, k: nat, step: Step)
    requires p.Valid() && Underway(r, p, k) && AtEnd(r, p)
    requires OnChannel(r, p, step) && !step.CancelAsked? && !step.ManualAsked?
    ensures AtEnd(Next(r, step), p)
  {
    DrainedIsAtEnd(r, p, k);
    if Accepts(r, step) {
      var k' := StaysOnTrack(r, p, k, step);
      NothingMoreToDrive(r, p, k, step.order, step.around);
      DrainedIsAtEnd(Next(r, step), p, k');
    } else if !step.Delivered? {
      OtherStepsKeepPlace(r, step);
    }
  }

  lemma ListedSettledStay(r: SoundRobot, step: Step)
    requires Disciplined(r.engine) && !step.Delivered?
    requires forall i | 0 <= i < |r.actionStates| :: r.engine.table[r.actionStates[i]].Settled()
    ensures |r.engine.table| <= |Next(r, step).engine.table|
    ensures forall i | 0 <= i < |r.actionStates| ::
              Next(r, step).engine.table[r.actionStates[i]].status == r.engine.table[r.actionStates[i]].status
  {
    StepKeepsActions(r, step);
    forall i | 0 <= i < |r.actionStates|
      ensures Next(r, step).engine.table[r.actionStates[i]].status == r.engine.table[r.actionStates[i]].status
    {
      SettledStays(r, step, r.actionStates[i]);
    }
  }

  /** Settled mission actions stay as they are. */
  lemma StaysSettled(r: SoundRobot, p: Plan, k: nat, step: Step)
    requires p.Valid() && p.Strict() && Job(r, p, k) && Closed(r, p) && DistinctIds(Work(p))
    requires OnChannel(r, p, step) && OwnIds(p, step) && !step.CancelAsked? && !step.ManualAsked?
    ensures RobotOk(Next(r, step)) && AllSettled(Next(r, step), p)
    ensures AllFinished(Next(r, step), p) <==> AllFinished(r, p)
  {
    if step.Delivered? {
      DeliveryAtEnd(r, p, k, step);
    } else {
      StepKeepsRobot(r, step);
      OrderIdMeansUnderway(r, p, k);
      OtherStepsKeepList(r, p, k, step);
      OtherStepsKeepOrder(r, step);
      assert Disciplined(r.engine) by { var at: nat :| at < p.Total() && InHand(r, p, at); }
      ListedSettledStay(r, step);
    }
  }

  /** Once the whole route is released no message of a strict plan fits any more. */
  lemma DeliveryAtEnd(r: SoundRobot, p: Plan, k: nat, step: Step)
    requires p.Valid() && p.Strict() && Job(r, p, k) && AtEnd(r, p) && OnChannel(r, p, step) && step.Delivered?
    ensures Next(r, step) == r
  {
    OrderIdMeansUnderway(r, p, k);
    DrainedIsAtEnd(r, p, k);
    var k' := StepTakesUp(r, p, k, step);
  }

  lemma OrderIdMeansUnderway(r: SoundRobot, p: Plan, k: nat)
    requires p.Valid() && Job(r, p, k) && r.orderId == p.orderId
    ensures k >= 1 && Underway(r, p, k)
  {
  }

  // ---------------------------------------------------------- the snapshots

  ghost predicate PostingOk(q: Posting, p: Plan)
    requires p.Valid()
  {
    && (exists k :: Job(q.robot, p, k))
    && forall i | 0 <= i < |q.others| :: q.others[i].id !in Work(p)
  }

  lemma SettledShowsEnd(a: Attempt, q: Posting)
    requires AttemptOk(a) && PostingOk(q, a.plan) && SettledIn(a, SnapshotOf(q))
    ensures AtEnd(q.robot, a.plan)
  {
    var k :| Job(q.robot, a.plan, k);
    OrderIdMeansUnderway(q.robot, a.plan, k);
    DrainedIsAtEnd(q.robot, a.plan, k);
  }

  /** An order action is reported by the one entry that lists it. */
  lemma ShownIsTrue(r: SoundRobot, q: Posting, p: Plan, i: nat, allowed: set<Status>)
    requires q.robot == r && ListedIds(r) == Work(p) && DistinctIds(Work(p)) && i < |r.actionStates|
    requires forall i | 0 <= i < |q.others| :: q.others[i].id !in Work(p)
    ensures Shows(SnapshotOf(q), Work(p)[i], allowed) <==> r.engine.table[r.actionStates[i]].status in allowed
  {
    var actions := SnapshotOf(q).actions;
    assert actions[i] == Reported(r)[i] && Work(p)[i] == ListedIds(r)[i];
    if Shows(SnapshotOf(q), Work(p)[i], allowed) {
      var e :| 0 <= e < |actions| && actions[e].id == Work(p)[i] && actions[e].status in allowed;
      assert Work(p)[i] in Work(p);
      assert forall x | |r.actionStates| <= x < |actions| :: actions[x] == q.others[x - |r.actionStates|];
      assert actions[e].id == ListedIds(r)[e];
      assert e == i;
    }
  }

  /** A state from which the dispatcher concludes shows what has become of the actions. */
  lemma FinalIsTrue(q: Posting, p: Plan)
    requires p.Valid() && PostingOk(q, p) && DistinctIds(Work(p))
    requires q.robot.orderId == p.orderId && AllShow(SnapshotOf(q), Work(p), FINAL)
    ensures AllSettled(q.robot, p)
    ensures AllFinished(q.robot, p) <==> forall i | 0 <= i < |Work(p)| :: !Shows(SnapshotOf(q), Work(p)[i], {Failed})
  {
    var k :| Job(q.robot, p, k);
    OrderIdMeansUnderway(q.robot, p, k);
    assert |Work(p)| == |q.robot.actionStates|;
    forall i | 0 <= i < |Work(p)|
      ensures q.robot.engine.table[q.robot.actionStates[i]].Settled()
      ensures Shows(SnapshotOf(q), Work(p)[i], {Failed}) <==>
                q.robot.engine.table[q.robot.actionStates[i]].status == Failed
    {
      assert Shows(SnapshotOf(q), Work(p)[i], FINAL);
      ShownIsTrue(q.robot, q, p, i, FINAL);
      ShownIsTrue(q.robot, q, p, i, {Failed});
    }
  }

  // -------------------------------------------------------------- the world

  datatype World = World(robot: SoundRobot, attempt: Attempt, published: seq<Posting>, seen: nat)

  datatype Event =
    | RobotMoves(step: Step)
    | Publishes(others: seq<ActionState>, refused: set<string>)
    | Observes(index: nat)

  /** What is delivered was sent by then or is turned away as another order's, nobody cancels or
      switches the mode, no other action goes by the id of a mission action, and state messages do not
      overtake one another. */
  ghost predicate Possible(w: World, e: Event)
    requires AttemptOk(w.attempt)
  {
    match e
    case RobotMoves(step) =>
      && !step.CancelAsked? && !step.ManualAsked? && OwnIds(w.attempt.plan, step)
      && (Accepts(w.robot, step) ==>
            exists i: nat :: i <= w.attempt.updateId && step.order == Message(w.attempt.plan, i))
    case Publishes(others, _) => forall i | 0 <= i < |others| :: others[i].id !in Work(w.attempt.plan)
    case Observes(k) => w.seen <= k < |w.published|
  }

  ghost function Happens(w: World, e: Event): World
    requires WorldOk(w) && Possible(w, e)
  {
    match e
    case RobotMoves(step) =>
      StepKeepsRobot(w.robot, step);
      w.(robot := Next(w.robot, step))
    case Publishes(others, refused) => w.(published := w.published + [Posting(w.robot, others, refused)])
    case Observes(k) => w.(attempt := Observed(w.attempt, SnapshotOf(w.published[k])), seen := k + 1)
  }

  /** Once a published state was at the end of the route, all later ones and the robot are; once the
      actions had settled, they still are, the same way. */
  ghost predicate EndLasts(w: World)
    requires w.attempt.plan.Valid()
  {
    && (forall i, j | 0 <= i < j < |w.published| ::
          AtEnd(w.published[i].robot, w.attempt.plan) ==> AtEnd(w.published[j].robot, w.attempt.plan))
    && (forall i | 0 <= i < |w.published| ::
          AtEnd(w.published[i].robot, w.attempt.plan) ==> AtEnd(w.robot, w.attempt.plan))
    && (forall i | 0 <= i < |w.published| ::
          Closed(w.published[i].robot, w.attempt.plan) ==> ClosedAs(w.published[i].robot, w.robot, w.attempt.plan))
  }

  ghost predicate ClosedAs(r: SoundRobot, r': SoundRobot, p: Plan)
    requires p.Valid()
  {
    Closed(r', p) && (AllFinished(r', p) <==> AllFinished(r, p))
  }

  /** The state the dispatcher saw when it found everything settled. */
  ghost predicate SawEnd(w: World)
    requires w.attempt.plan.Valid()
  {
    exists i :: 0 <= i < w.seen <= |w.published| && AtEnd(w.published[i].robot, w.attempt.plan)
  }

  /** The state the dispatcher concluded from: at the end, with every mission action settled, all of
      them finished or not. */
  ghost predicate SawOutcome(w: World, finished: bool)
    requires w.attempt.plan.Valid()
  {
    exists i :: 0 <= i < w.seen <= |w.published| && Closed(w.published[i].robot, w.attempt.plan)
                && (AllFinished(w.published[i].robot, w.attempt.plan) <==> finished)
  }

  ghost predicate WorldOk(w: World) {
    && AttemptOk(w.attempt) && DistinctIds(Work(w.attempt.plan))
    && PostingOk(Posting(w.robot, [], {}), w.attempt.plan)
    && (forall i | 0 <= i < |w.published| :: PostingOk(w.published[i], w.attempt.plan))
    && w.seen <= |w.published|
    && EndLasts(w)
    && (w.attempt.phase == AwaitingFinal ==> SawEnd(w))
    && (w.attempt.phase == Over(Completed) ==> SawOutcome(w, true))
    && (w.attempt.phase == Over(Failure) ==> SawOutcome(w, false))
  }

  lemma RobotEvent(w: World, step: Step)
    requires WorldOk(w) && Possible(w, RobotMoves(step))
    ensures RobotOk(Next(w.robot, step)) && PostingOk(Posting(Next(w.robot, step), [], {}), w.attempt.plan)
    ensures AtEnd(w.robot, w.attempt.plan) ==> AtEnd(Next(w.robot, step), w.attempt.plan)
    ensures Closed(w.robot, w.attempt.plan) ==> ClosedAs(w.robot, Next(w.robot, step), w.attempt.plan)
  {
    var p := w.attempt.plan;
    AttemptIsStrict(w.attempt);
    var k :| Job(w.robot, p, k);
    var k' := JobGoesOn(w.robot, p, k, step);
    if AtEnd(w.robot, p) {
      OrderIdMeansUnderway(w.robot, p, k);
      StaysAtEnd(w.robot, p, k, step);
      if AllSettled(w.robot, p) { StaysSettled(w.robot, p, k, step); }
    }
  }

  lemma OutcomeLasts(w: World, w': World, finished: bool)
    requires w.attempt.plan.Valid() && w'.attempt.plan == w.attempt.plan
    requires w.published <= w'.published && w.seen <= w'.seen <= |w'.published|
    ensures SawOutcome(w, finished) ==> SawOutcome(w', finished)
  {
    var p := w.attempt.plan;
    if SawOutcome(w, finished) {
      var i :| 0 <= i < w.seen <= |w.published| && Closed(w.published[i].robot, p)
        && (AllFinished(w.published[i].robot, p) <==> finished);
      assert w'.published[i] == w.published[i];
    }
  }

  /** Evidence stays evidence when more is published and seen. */
  lemma EvidenceLasts(w: World, w': World)
    requires w.attempt.plan.Valid() && w'.attempt.plan == w.attempt.plan
    requires w.published <= w'.published && w.seen <= w'.seen <= |w'.published|
    ensures SawEnd(w) ==> SawEnd(w')
    ensures SawOutcome(w, true) ==> SawOutcome(w', true)
    ensures SawOutcome(w, false) ==> SawOutcome(w', false)
  {
    if SawEnd(w) {
      var i :| 0 <= i < w.seen <= |w.published| && AtEnd(w.published[i].robot, w.attempt.plan);
      assert w'.published[i] == w.published[i];
    }
    OutcomeLasts(w, w', true);
    OutcomeLasts(w, w', false);
  }

  lemma EndStillLasts(w: World, w': World)
    requires w.attempt.plan.Valid() && EndLasts(w) && w' == w.(robot := w'.robot)
    requires AtEnd(w.robot, w.attempt.plan) ==> AtEnd(w'.robot, w.attempt.plan)
    requires Closed(w.robot, w.attempt.plan) ==> ClosedAs(w.robot, w'.robot, w.attempt.plan)
    ensures EndLasts(w')
  {
  }

  lemma RobotMovedKeeps(w: World, r: SoundRobot, w': World)
    requires WorldOk(w) && w' == w.(robot := r) && PostingOk(Posting(r, [], {}), w.attempt.plan)
    requires AtEnd(w.robot, w.attempt.plan) ==> AtEnd(r, w.attempt.plan)
    requires Closed(w.robot, w.attempt.plan) ==> ClosedAs(w.robot, r, w.attempt.plan)
    ensures WorldOk(w')
  {
    EvidenceLasts(w, w');
    EndStillLasts(w, w');
  }

  lemma RobotEventKeeps(w: World, step: Step, w': World)
    requires WorldOk(w) && Possible(w, RobotMoves(step)) && w' == Happens(w, RobotMoves(step))
    ensures WorldOk(w')
  {
    RobotEvent(w, step);
    RobotMovedKeeps(w, Next(w.robot, step), w');
  }

  lemma PublishedOk(w: World, q: Posting)
    requires WorldOk(w) && q.robot == w.robot
    requires forall i | 0 <= i < |q.others| :: q.others[i].id !in Work(w.attempt.plan)
    ensures EndLasts(w.(published := w.published + [q]))
    ensures PostingOk(q, w.attempt.plan)
  {
    assert PostingOk(Posting(w.robot, [], {}), w.attempt.plan);
  }

  lemma PublishKeeps(w: World, q: Posting, w': World)
    requires WorldOk(w) && q.robot == w.robot
    requires forall i | 0 <= i < |q.others| :: q.others[i].id !in Work(w.attempt.plan)
    requires w' == w.(published := w.published + [q])
    ensures WorldOk(w')
  {
    PublishedOk(w, q);
    EvidenceLasts(w, w');
    PublishedAllOk(w.published, q, w.attempt.plan);
  }

  lemma PublishedAllOk(published: seq<Posting>, q: Posting, p: Plan)
    requires p.Valid() && PostingOk(q, p) && forall i | 0 <= i < |published| :: PostingOk(published[i], p)
    ensures forall i | 0 <= i < |published + [q]| :: PostingOk((published + [q])[i], p)
  {
  }

  /** What the dispatcher concludes from state `k` holds of the robot that published it. */
  ghost predicate Evident(w: World, k: nat, phase: Phase)
    requires w.attempt.plan.Valid() && k < |w.published|
  {
    var q, p := w.published[k].robot, w.attempt.plan;
    && (phase == AwaitingFinal ==> AtEnd(q, p))
    && (phase == Over(Completed) ==> Closed(q, p) && AllFinished(q, p))
    && (phase == Over(Failure) ==> Closed(q, p) && !AllFinished(q, p))
  }

  lemma SeenIsAtEnd(w: World, k: nat)
    requires WorldOk(w) && w.seen <= k < |w.published| && SawEnd(w)
    ensures AtEnd(w.published[k].robot, w.attempt.plan)
  {
    var i :| 0 <= i < w.seen <= |w.published| && AtEnd(w.published[i].robot, w.attempt.plan);
  }

  lemma ConclusionIsEvident(w: World, k: nat, a: Attempt, s: Snapshot)
    requires WorldOk(w) && w.seen <= k < |w.published| && !w.attempt.phase.Over?
    requires s == SnapshotOf(w.published[k]) && a == Observed(w.attempt, s)
    requires a.phase == Over(Completed) || a.phase == Over(Failure)
    ensures Evident(w, k, a.phase)
  {
    ConclusionIsShown(w.attempt, s);
    if w.attempt.phase == AwaitingEnd { SettledShowsEnd(w.attempt, w.published[k]); } else { SeenIsAtEnd(w, k); }
    FinalIsTrue(w.published[k], w.attempt.plan);
  }

  lemma ObservedEvidence(w: World, k: nat)
    requires WorldOk(w) && Possible(w, Observes(k)) && !w.attempt.phase.Over?
    ensures Evident(w, k, Observed(w.attempt, SnapshotOf(w.published[k])).phase)
  {
    var s := SnapshotOf(w.published[k]);
    var a := Observed(w.attempt, s);
    if a.phase == Over(Completed) || a.phase == Over(Failure) {
      ConclusionIsEvident(w, k, a, s);
    } else if a.phase == AwaitingFinal {
      if w.attempt.phase == AwaitingFinal { SeenIsAtEnd(w, k); } else { SettledShowsEnd(w.attempt, w.published[k]); }
    }
  }

  lemma SawFrom(w: World, k: nat, a: Attempt)
    requires w.attempt.plan.Valid() && a.plan == w.attempt.plan
    requires k < |w.published| && AtEnd(w.published[k].robot, w.attempt.plan)
    ensures SawEnd(w.(attempt := a, seen := k + 1))
    ensures AllSettled(w.published[k].robot, w.attempt.plan) ==>
              SawOutcome(w.(attempt := a, seen := k + 1), AllFinished(w.published[k].robot, w.attempt.plan))
  {
  }

  lemma SeenKeeps(w: World, w': World)
    requires WorldOk(w) && w' == w.(attempt := w'.attempt, seen := w'.seen) && w'.attempt.plan == w.attempt.plan
    requires AttemptOk(w'.attempt) && w'.seen <= |w.published|
    requires w'.attempt.phase == AwaitingFinal ==> SawEnd(w')
    requires w'.attempt.phase == Over(Completed) ==> SawOutcome(w', true)
    requires w'.attempt.phase == Over(Failure) ==> SawOutcome(w', false)
    ensures WorldOk(w')
  {
  }

  lemma LateStateKeeps(w: World, k: nat, w': World)
    requires WorldOk(w) && w.seen <= k < |w.published| && w.attempt.phase.Over? && w' == w.(seen := k + 1)
    ensures WorldOk(w')
  {
    EvidenceLasts(w, w');
    SeenKeeps(w, w');
  }

  lemma AwaitedStateKeeps(w: World, k: nat, a: Attempt, w': World)
    requires WorldOk(w) && w.seen <= k < |w.published| && !w.attempt.phase.Over?
    requires w' == w.(attempt := a, seen := k + 1) && AttemptOk(a) && a.plan == w.attempt.plan
    requires Evident(w, k, a.phase)
    ensures WorldOk(w')
  {
    if AtEnd(w.published[k].robot, a.plan) { SawFrom(w, k, a); }
    SeenKeeps(w, w');
  }

  lemma ObserveKeeps(w: World, k: nat, w': World)
    requires WorldOk(w) && Possible(w, Observes(k)) && w' == Happens(w, Observes(k))
    ensures WorldOk(w')
  {
    var a := Observed(w.attempt, SnapshotOf(w.published[k]));
    if w.attempt.phase.Over? {
      ObservedKeeps(w.attempt, SnapshotOf(w.published[k]));
      LateStateKeeps(w, k, w');
    } else {
      ObservedIsOk(w.attempt, SnapshotOf(w.published[k]));
      ObservedEvidence(w, k);
      AwaitedStateKeeps(w, k, a, w');
    }
  }

  // -------------------------------------------------------------- every run

  /** The attempt has sent its first message; the robot has never seen it and rests. */
  ghost predicate Initial(w: World) {
    && AttemptOk(w.attempt) && w.attempt.updateId == 0 && w.attempt.phase == AwaitingVerdict
    && DistinctIds(Work(w.attempt.plan))
    && Unadopted(w.robot, w.attempt.plan) && Unclaimed(w.robot, w.attempt.plan) && AtRest(w.robot)
    && w.published == [] && w.seen == 0
  }

  /** The attempt as `_drive` starts it. */
  function FirstAttempt(mission: Mission, v2: bool, orderId: string, step: int): Attempt {
    Attempt(StepwisePlan(mission, v2, orderId, step), step, step, 0, AwaitingVerdict)
  }

  /** Such a start exists for every step in range: a robot just switched on. */
  lemma AttemptsCanStart(mission: Mission, v2: bool, orderId: string, step: int)
    requires 1 <= step <= |mission.waypoints| && orderId != ""
    requires DistinctIds(Work(StepwisePlan(mission, v2, orderId, step)))
    ensures Initial(World(Idle, FirstAttempt(mission, v2, orderId, step), [], 0))
  {
    StepwiseIsStrict(mission, v2, orderId, step);
  }

  ghost predicate ReachedBy(w: World, events: seq<Event>)
    decreases |events|
  {
    if events == [] then Initial(w)
    else exists before ::
      && ReachedBy(before, events[..|events| - 1])
      && WorldOk(before) && Possible(before, events[|events| - 1])
      && w == Happens(before, events[|events| - 1])
  }

  lemma EventKeeps(w: World, e: Event, w': World)
    requires WorldOk(w) && Possible(w, e) && w' == Happens(w, e)
    ensures WorldOk(w')
  {
    match e
    case RobotMoves(step) => RobotEventKeeps(w, step, w');
    case Publishes(others, refused) => PublishKeeps(w, Posting(w.robot, others, refused), w');
    case Observes(k) => ObserveKeeps(w, k, w');
  }

  lemma InitialIsOk(w: World)
    requires Initial(w)
    ensures WorldOk(w)
  {
    assert Job(w.robot, w.attempt.plan, 0);
  }

  lemma {:induction false} RunsAreOk(w: World, events: seq<Event>)
    requires ReachedBy(w, events)
    ensures WorldOk(w)
    decreases |events|
  {
    if events == [] {
      InitialIsOk(w);
    } else {
      var before :| ReachedBy(before, events[..|events| - 1]) && WorldOk(before)
        && Possible(before, events[|events| - 1]) && w == Happens(before, events[|events| - 1]);
      RunsAreOk(before, events[..|events| - 1]);
      EventKeeps(before, events[|events| - 1], w);
    }
  }

  lemma SeenOutcomeLasts(w: World, finished: bool)
    requires WorldOk(w) && SawOutcome(w, finished)
    ensures Closed(w.robot, w.attempt.plan) && (AllFinished(w.robot, w.attempt.plan) <==> finished)
  {
    var i :| 0 <= i < w.seen <= |w.published| && Closed(w.published[i].robot, w.attempt.plan)
      && (AllFinished(w.published[i].robot, w.attempt.plan) <==> finished);
    assert ClosedAs(w.published[i].robot, w.robot, w.attempt.plan);
  }

  /** A run of the system in which the dispatcher reports COMPLETED: the whole route was sent, and the
      robot stands at the mission's last waypoint with every mission action finished, as it did in
      the state the dispatcher concluded from. */
  lemma CompletedIsDone(w: World, events: seq<Event>)
    requires ReachedBy(w, events) && w.attempt.phase == Over(Completed)
    ensures WorldOk(w) && w.attempt.released == w.attempt.plan.Total()
    ensures SawOutcome(w, true)
    ensures AtEnd(w.robot, w.attempt.plan) && AllFinished(w.robot, w.attempt.plan)
  {
    RunsAreOk(w, events);
    SeenOutcomeLasts(w, true);
  }

  /** And one in which it reports FAILED: the same, but that some action failed. */
  lemma FailedIsSettled(w: World, events: seq<Event>)
    requires ReachedBy(w, events) && w.attempt.phase == Over(Failure)
    ensures WorldOk(w) && w.attempt.released == w.attempt.plan.Total()
    ensures SawOutcome(w, false)
    ensures AtEnd(w.robot, w.attempt.plan) && AllSettled(w.robot, w.attempt.plan)
    ensures exists i | 0 <= i < |w.robot.actionStates| :: w.robot.engine.table[w.robot.actionStates[i]].status == Failed
  {
    RunsAreOk(w, events);
    SeenOutcomeLasts(w, false);
  }

  lemma ClosedRests(r: SoundRobot, p: Plan, k: nat)
    requires p.Valid() && Job(r, p, k) && Closed(r, p)
    ensures AtRest(r)
  {
    OrderIdMeansUnderway(r, p, k);
    DrainedIsAtEnd(r, p, k);
    var at: nat :| at < p.Total() && InHand(r, p, at);
    RestsWhenFinished(r);
  }

  lemma ConcludedRests(w: World, events: seq<Event>)
    requires ReachedBy(w, events) && (w.attempt.phase == Over(Completed) || w.attempt.phase == Over(Failure))
    ensures AtRest(w.robot) && w.robot.orderId == w.attempt.plan.orderId
  {
    RunsAreOk(w, events);
    SeenOutcomeLasts(w, w.attempt.phase == Over(Completed));
    var k :| Job(w.robot, w.attempt.plan, k);
    ClosedRests(w.robot, w.attempt.plan, k);
  }

  /** A resting robot is a start for an attempt with an order id and action ids new to it. */
  lemma RestingCanStart(r: SoundRobot, mission: Mission, v2: bool, orderId: string, step: int)
    requires AtRest(r) && 1 <= step <= |mission.waypoints| && orderId != r.orderId
    requires DistinctIds(Work(StepwisePlan(mission, v2, orderId, step)))
    requires forall id | id in Work(StepwisePlan(mission, v2, orderId, step)) :: id !in r.runs
    ensures Initial(World(r, FirstAttempt(mission, v2, orderId, step), [], 0))
  {
    StepwiseIsStrict(mission, v2, orderId, step);
  }

  /** An attempt that completed or failed leaves the robot as the next one needs it, so that attempts
      follow one another. */
  lemma NextAttemptCanStart(w: World, events: seq<Event>, mission: Mission, v2: bool, orderId: string, step: int)
    requires ReachedBy(w, events) && (w.attempt.phase == Over(Completed) || w.attempt.phase == Over(Failure))
    requires 1 <= step <= |mission.waypoints| && orderId != w.attempt.plan.orderId
    requires DistinctIds(Work(StepwisePlan(mission, v2, orderId, step)))
    requires forall id | id in Work(StepwisePlan(mission, v2, orderId, step)) :: id !in w.robot.runs
    ensures Initial(World(w.robot, FirstAttempt(mission, v2, orderId, step), [], 0))
  {
    ConcludedRests(w, events);
    RestingCanStart(w.robot, mission, v2, orderId, step);
  }
}
