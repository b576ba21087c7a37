/** Dispatcher and robot together, the other half: what the robot has done is what the attempt comes
    to. No order is called rejected that nobody refused, a robot that wants more is sent more, and
    when everything is done the attempt is over. */
module DispatchProgress {
  import opened Vda5050
  import opened Missions
  import opened Actions
  import opened RobotModel
  import opened RobotInvariants
  import opened OrderChain
  import opened OrderActions
  import opened OrderHandover
  import opened OrderRest
  import opened MissionController
  import opened EndToEnd

  // ----------------------------------------------------- what a state shows

  lemma EndIsShown(q: Posting, p: Plan)
    requires p.Valid() && PostingOk(q, p)
    ensures AtEnd(q.robot, p) <==>
              q.robot.orderId == p.orderId && q.robot.nodeStates == [] && q.robot.edgeStates == []
  {
    var k :| Job(q.robot, p, k);
    if q.robot.orderId == p.orderId && q.robot.nodeStates == [] {
      OrderIdMeansUnderway(q.robot, p, k);
      DrainedIsAtEnd(q.robot, p, k);
    }
  }

  lemma OwnActionsListed(q: Posting, p: Plan)
    requires p.Valid() && PostingOk(q, p) && q.robot.orderId == p.orderId
    ensures ListedIds(q.robot) == Work(p) && |q.robot.actionStates| == |Work(p)|
  {
    var k :| Job(q.robot, p, k);
    OrderIdMeansUnderway(q.robot, p, k);
  }

  lemma StatusesShown(q: Posting, p: Plan, allowed: set<Status>)
    requires p.Valid() && PostingOk(q, p) && q.robot.orderId == p.orderId && DistinctIds(Work(p))
    ensures |q.robot.actionStates| == |Work(p)|
    ensures forall i | 0 <= i < |Work(p)| ::
              Shows(SnapshotOf(q), Work(p)[i], allowed) <==>
              q.robot.engine.table[q.robot.actionStates[i]].status in allowed
  {
    OwnActionsListed(q, p);
    forall i | 0 <= i < |Work(p)|
      ensures Shows(SnapshotOf(q), Work(p)[i], allowed) <==>
              q.robot.engine.table[q.robot.actionStates[i]].status in allowed
    {
      ShownIsTrue(q.robot, q, p, i, allowed);
    }
  }

  ghost predicate AllIn(r: SoundRobot, allowed: set<Status>) {
    forall i | 0 <= i < |r.actionStates| :: r.engine.table[r.actionStates[i]].status in allowed
  }

  ghost predicate SomeIs(r: SoundRobot, status: Status) {
    exists i :: 0 <= i < |r.actionStates| && r.engine.table[r.actionStates[i]].status == status
  }

  lemma AllShownExactly(q: Posting, p: Plan, allowed: set<Status>)
    requires p.Valid() && PostingOk(q, p) && q.robot.orderId == p.orderId && DistinctIds(Work(p))
    ensures AllShow(SnapshotOf(q), Work(p), allowed) <==> AllIn(q.robot, allowed)
  {
    StatusesShown(q, p, allowed);
  }

  lemma SomeShownExactly(q: Posting, p: Plan, status: Status)
    requires p.Valid() && PostingOk(q, p) && q.robot.orderId == p.orderId && DistinctIds(Work(p))
    ensures Showing(SnapshotOf(q), Work(p), {status}) != [] <==> SomeIs(q.robot, status)
  {
    var r, s := q.robot, SnapshotOf(q);
    assert forall i | 0 <= i < |Work(p)| ::
        Shows(s, Work(p)[i], {status}) <==> r.engine.table[r.actionStates[i]].status == status by {
      StatusesShown(q, p, {status});
    }
    assert |r.actionStates| == |Work(p)| by { OwnActionsListed(q, p); }
    SomeAmong(s, Work(p), r, status);
  }

  lemma SomeAmong(s: Snapshot, ids: seq<string>, r: SoundRobot, status: Status)
    requires |ids| == |r.actionStates|
    requires forall i | 0 <= i < |ids| ::
               Shows(s, ids[i], {status}) <==> r.engine.table[r.actionStates[i]].status == status
    ensures Showing(s, ids, {status}) != [] <==> SomeIs(r, status)
  {
    if i :| 0 <= i < |r.actionStates| && r.engine.table[r.actionStates[i]].status == status {
      assert Shows(s, ids[i], {status});
    }
  }

  // ------------------------------------------------------ the last two waits

  /** What a state means to an attempt that waits for the end: it is over exactly if the robot is at the
      end of the route with every action finished or failed, completed exactly if all are finished;
      and if some wait for a retry, these are asked to be skipped. */
  lemma EndIsExact(a: Attempt, q: Posting)
    requires AttemptOk(a) && DistinctIds(Work(a.plan)) && PostingOk(q, a.plan) && a.phase == AwaitingEnd
    ensures var phase := Observed(a, SnapshotOf(q)).phase;
            && (phase == Over(Completed) <==> AtEnd(q.robot, a.plan) && AllIn(q.robot, {Finished}))
            && (phase == Over(Failure) <==>
                  AtEnd(q.robot, a.plan) && AllIn(q.robot, {Finished, Failed}) && SomeIs(q.robot, Failed))
            && (phase == AwaitingFinal <==>
                  && AtEnd(q.robot, a.plan) && AllIn(q.robot, {Finished, Failed, Retriable})
                  && SomeIs(q.robot, Retriable))
            && (phase == AwaitingEnd || phase == AwaitingFinal || phase == Over(Completed) || phase == Over(Failure))
  {
    EndIsShown(q, a.plan);
    if q.robot.orderId == a.plan.orderId {
      AllShownExactly(q, a.plan, SETTLED);
      SomeShownExactly(q, a.plan, Retriable);
      SomeShownExactly(q, a.plan, Failed);
    }
  }

  /** Those that are asked to be skipped are the ones that wait for a retry. */
  lemma SkipsExactly(a: Attempt, q: Posting, id: string)
    requires AttemptOk(a) && DistinctIds(Work(a.plan)) && PostingOk(q, a.plan) && a.phase == AwaitingEnd
    ensures SkipRetrySent(id) in Sends(a, SnapshotOf(q)) <==>
              && AtEnd(q.robot, a.plan) && AllIn(q.robot, {Finished, Failed, Retriable})
              && exists i :: 0 <= i < |q.robot.actionStates|
                             && q.robot.engine.table[q.robot.actionStates[i]].status == Retriable
                             && q.robot.engine.table[q.robot.actionStates[i]].action.id == id
  {
    EndIsShown(q, a.plan);
    if q.robot.orderId == a.plan.orderId {
      AllShownExactly(q, a.plan, SETTLED);
      WaitingForRetry(q, a.plan, id);
      SkipRetriesHas(Showing(SnapshotOf(q), Work(a.plan), {Retriable}), id);
    }
  }

  lemma WaitingForRetry(q: Posting, p: Plan, id: string)
    requires p.Valid() && PostingOk(q, p) && q.robot.orderId == p.orderId && DistinctIds(Work(p))
    ensures id in Showing(SnapshotOf(q), Work(p), {Retriable}) <==>
              exists i :: 0 <= i < |q.robot.actionStates|
                          && q.robot.engine.table[q.robot.actionStates[i]].status == Retriable
                          && q.robot.engine.table[q.robot.actionStates[i]].action.id == id
  {
    var r, s := q.robot, SnapshotOf(q);
    assert |r.actionStates| == |Work(p)| && forall i | 0 <= i < |Work(p)| ::
        Work(p)[i] == r.engine.table[r.actionStates[i]].action.id by {
      OwnActionsListed(q, p);
      assert forall i | 0 <= i < |r.actionStates| :: ListedIds(r)[i] == r.engine.table[r.actionStates[i]].action.id;
    }
    assert forall i | 0 <= i < |Work(p)| ::
        Shows(s, Work(p)[i], {Retriable}) <==> r.engine.table[r.actionStates[i]].status == Retriable by {
      StatusesShown(q, p, {Retriable});
    }
    RetryAmong(s, Work(p), r, id);
  }

  lemma RetryAmong(s: Snapshot, ids: seq<string>, r: SoundRobot, id: string)
    requires |ids| == |r.actionStates|
    requires forall i | 0 <= i < |ids| :: ids[i] == r.engine.table[r.actionStates[i]].action.id
    requires forall i | 0 <= i < |ids| ::
               Shows(s, ids[i], {Retriable}) <==> r.engine.table[r.actionStates[i]].status == Retriable
    ensures id in Showing(s, ids, {Retriable}) <==>
              exists i :: 0 <= i < |r.actionStates| && r.engine.table[r.actionStates[i]].status == Retriable
                          && r.engine.table[r.actionStates[i]].action.id == id
  {
    ShowingHas(s, ids, {Retriable}, id);
  }

  lemma {:induction false} ShowingHas(s: Snapshot, ids: seq<string>, allowed: set<Status>, id: string)
    ensures id in Showing(s, ids, allowed) <==> exists i :: 0 <= i < |ids| && ids[i] == id && Shows(s, ids[i], allowed)
    decreases |ids|
  {
    if ids != [] {
      var init := ids[..|ids| - 1];
      ShowingHas(s, init, allowed, id);
      if i :| 0 <= i < |ids| && ids[i] == id && Shows(s, ids[i], allowed) {
        assert i < |init| ==> init[i] == ids[i];
      }
      if i :| 0 <= i < |init| && init[i] == id && Shows(s, init[i], allowed) {
        assert ids[i] == init[i];
      }
    }
  }

  lemma SkipRetriesHas(ids: seq<string>, id: string)
    ensures SkipRetrySent(id) in SkipRetries(ids) <==> id in ids
  {
    if id in ids {
      var i :| 0 <= i < |ids| && ids[i] == id;
      assert SkipRetries(ids)[i] == SkipRetrySent(id);
    }
  }

  /** And once they were asked to be skipped the attempt is over exactly if nothing waits any more. */
  lemma FinalIsExact(a: Attempt, q: Posting)
    requires AttemptOk(a) && DistinctIds(Work(a.plan)) && PostingOk(q, a.plan) && a.phase == AwaitingFinal
    ensures var phase := Observed(a, SnapshotOf(q)).phase;
            && (phase == Over(Completed) <==> q.robot.orderId == a.plan.orderId && AllIn(q.robot, {Finished}))
            && (phase == Over(Failure) <==>
                  q.robot.orderId == a.plan.orderId && AllIn(q.robot, {Finished, Failed}) && SomeIs(q.robot, Failed))
            && (phase == AwaitingFinal || phase == Over(Completed) || phase == Over(Failure))
    ensures Sends(a, SnapshotOf(q)) == []
  {
    if q.robot.orderId == a.plan.orderId {
      AllShownExactly(q, a.plan, FINAL);
      SomeShownExactly(q, a.plan, Failed);
    }
  }

  // ------------------------------------------------------------- every run

  /** The robot has taken up nothing that was not sent, and a rejection was in a state that was seen. */
  ghost predicate NotAhead(w: World) {
    && (w.robot.orderId == w.attempt.plan.orderId ==> w.robot.updateId <= w.attempt.updateId)
    && w.seen <= |w.published| && w.attempt.phase != Over(Canceled)
    && (w.attempt.phase == Over(Rejected) ==>
          exists i :: 0 <= i < w.seen && w.attempt.plan.orderId in w.published[i].refused)
  }

  lemma MoveKeepsNotAhead(w: World, step: Step)
    requires WorldOk(w) && NotAhead(w) && EndToEnd.Possible(w, RobotMoves(step))
    ensures NotAhead(Happens(w, RobotMoves(step)))
  {
    var k :| Job(w.robot, w.attempt.plan, k);
    var k' := StepTakesUp(w.robot, w.attempt.plan, k, step);
    if Accepts(w.robot, step) {
      assert step.order.updateId == k' - 1;
    } else if !step.Delivered? {
      OtherStepsKeepOrder(w.robot, step);
    }
  }

  lemma PublishKeepsNotAhead(w: World, q: Posting, w': World)
    requires NotAhead(w) && w' == w.(published := w.published + [q])
    ensures NotAhead(w')
  {
    if w.attempt.phase == Over(Rejected) {
      var i :| 0 <= i < w.seen && w.attempt.plan.orderId in w.published[i].refused;
      assert w'.published[i] == w.published[i];
    }
  }

  lemma ObserveKeepsNotAhead(w: World, k: nat, w': World)
    requires WorldOk(w) && NotAhead(w) && EndToEnd.Possible(w, Observes(k)) && w' == Happens(w, Observes(k))
    ensures NotAhead(w')
  {
    var a, s := w.attempt, SnapshotOf(w.published[k]);
    ObservedIsOk(a, s);
    ObservedSends(a, s);
    RejectionIsSeen(a, s);
    if w'.attempt.phase == Over(Rejected) {
      if a.phase == Over(Rejected) {
        var i :| 0 <= i < w.seen && a.plan.orderId in w.published[i].refused;
        assert i < w'.seen;
      } else {
        assert a.plan.orderId in w'.published[k].refused;
      }
    }
  }

  lemma RejectionIsSeen(a: Attempt, s: Snapshot)
    requires AttemptOk(a) && a.phase != Over(Canceled)
    ensures Observed(a, s).phase != Over(Canceled)
    ensures a.phase != Over(Rejected) && Observed(a, s).phase == Over(Rejected) ==> a.plan.orderId in s.refused
  {
    if a.phase == AwaitingVerdict { VerdictIsExact(a, s); }
  }

  lemma {:induction false} RunsAreNotAhead(w: World, events: seq<EndToEnd.Event>)
    requires EndToEnd.ReachedBy(w, events)
    ensures WorldOk(w) && NotAhead(w)
    decreases |events|
  {
    RunsAreOk(w, events);
    if events != [] {
      var before :| EndToEnd.ReachedBy(before, events[..|events| - 1]) && WorldOk(before)
        && EndToEnd.Possible(before, events[|events| - 1]) && w == Happens(before, events[|events| - 1]);
      RunsAreNotAhead(before, events[..|events| - 1]);
      match events[|events| - 1]
      case RobotMoves(step) => MoveKeepsNotAhead(before, step);
      case Publishes(others, refused) => PublishKeepsNotAhead(before, Posting(before.robot, others, refused), w);
      case Observes(k) => ObserveKeepsNotAhead(before, k, w);
    }
  }

  // ------------------------------------------------------- one state is shown

  /** The robot publishes its state, and the dispatcher sees it. */
  function ShownBy(events: seq<EndToEnd.Event>, w: World): seq<EndToEnd.Event> {
    events + [Publishes([], {})] + [Observes(|w.published|)]
  }

  ghost predicate SeesNow(w: World, w': World)
    requires AttemptOk(w.attempt)
  {
    && w'.robot == w.robot && w'.attempt == Observed(w.attempt, SnapshotOf(Posting(w.robot, [], {})))
    && w'.published == w.published + [Posting(w.robot, [], {})]
  }

  lemma OneMore(before: World, events: seq<EndToEnd.Event>, e: EndToEnd.Event, w: World)
    requires EndToEnd.ReachedBy(before, events) && WorldOk(before) && EndToEnd.Possible(before, e)
    requires w == Happens(before, e)
    ensures EndToEnd.ReachedBy(w, events + [e])
  {
    var more := events + [e];
    assert more[..|more| - 1] == events && more[|more| - 1] == e;
  }

  lemma StateIsShown(w: World, events: seq<EndToEnd.Event>) returns (w': World)
    requires EndToEnd.ReachedBy(w, events)
    ensures WorldOk(w) && WorldOk(w') && EndToEnd.ReachedBy(w', ShownBy(events, w)) && SeesNow(w, w')
  {
    RunsAreOk(w, events);
    var between := Happens(w, Publishes([], {}));
    OneMore(w, events, Publishes([], {}), between);
    EventKeeps(w, Publishes([], {}), between);
    w' := Happens(between, Observes(|w.published|));
    OneMore(between, events + [Publishes([], {})], Observes(|w.published|), w');
    EventKeeps(between, Observes(|w.published|), w');
  }

  lemma ShownIsOk(w: World)
    requires WorldOk(w)
    ensures PostingOk(Posting(w.robot, [], {}), w.attempt.plan)
  {
  }

  lemma ShownTwice(w: World, events: seq<EndToEnd.Event>) returns (w1: World, w2: World)
    requires EndToEnd.ReachedBy(w, events)
    ensures EndToEnd.ReachedBy(w1, ShownBy(events, w)) && EndToEnd.ReachedBy(w2, ShownBy(ShownBy(events, w), w1))
    ensures var s := SnapshotOf(Posting(w.robot, [], {}));
            && AttemptOk(w.attempt) && AttemptOk(Observed(w.attempt, s))
            && w2.attempt == Observed(Observed(w.attempt, s), s) && w2.robot == w.robot
  {
    w1 := StateIsShown(w, events);
    w2 := StateIsShown(w1, ShownBy(events, w));
  }

  // ---------------------------------------------------------- the releases

  /** A robot that has taken up the order has the attempt go on. */
  lemma TakenUpIsApproved(w: World, events: seq<EndToEnd.Event>) returns (w': World)
    requires EndToEnd.ReachedBy(w, events) && w.robot.orderId == w.attempt.plan.orderId
    requires w.attempt.phase == AwaitingVerdict
    ensures EndToEnd.ReachedBy(w', ShownBy(events, w)) && w'.robot == w.robot
    ensures w'.attempt == w.attempt.(phase := if w.attempt.released < |w.attempt.plan.mission.waypoints|
                                              then AwaitingDecisionPoint else AwaitingEnd)
  {
    w' := StateIsShown(w, events);
    VerdictIsExact(w.attempt, SnapshotOf(Posting(w.robot, [], {})));
  }

  /** The robot stands where its released route ends. */
  ghost predicate AtBaseEnd(r: SoundRobot) {
    DecisionPoint(r.nodes).Some? && r.lastSeq == DecisionPoint(r.nodes).value.1
  }

  lemma BaseEndIsWaypoint(r: SoundRobot, p: Plan, j: nat)
    requires p.Valid() && Carries(r, p, j) && AtBaseEnd(r)
    ensures r.lastNodeId == p.mission.waypoints[Released(p, j) - 1].nodeId
  {
    assert !Cleared(r) by { if Cleared(r) { NoDecisionPoint(); } }
    RouteDecisionPoint(r.nodes, p, Released(p, j));
    var lo, at, base, n :| Laid(r, lo, at, base, n);
    assert r.nodes[r.lastSeq].id == r.lastNodeId;
  }

  lemma ShownAtBaseEnd(r: SoundRobot, a: Attempt, k: nat)
    requires AttemptOk(a) && UnderRelease(a) && Job(r, a.plan, k)
    requires r.orderId == a.plan.orderId && r.updateId == a.updateId && AtBaseEnd(r)
    ensures var s := SnapshotOf(Posting(r, [], {}));
            && Releases(a, Observed(a, s)) && Sends(a, s) == [OrderSent(Message(a.plan, a.updateId + 1))]
            && Sendable(a.plan, a.updateId + 1)
  {
    assert Carries(r, a.plan, a.updateId) by { OrderIdMeansUnderway(r, a.plan, k); }
    CarriesToBaseEnd(r, a);
    StepwiseNext(a.plan, a.step, a.updateId);
  }

  lemma CarriesToBaseEnd(r: SoundRobot, a: Attempt)
    requires AttemptOk(a) && UnderRelease(a) && Carries(r, a.plan, a.updateId) && AtBaseEnd(r)
    ensures var s := SnapshotOf(Posting(r, [], {}));
            Releases(a, Observed(a, s)) && Sends(a, s) == [OrderSent(Message(a.plan, a.updateId + 1))]
  {
    BaseEndIsWaypoint(r, a.plan, a.updateId);
    ReleaseIsExact(a, SnapshotOf(Posting(r, [], {})));
  }

  lemma NextIsTakenUp(r: SoundRobot, p: Plan, u: nat, k: nat, step: Step)
    requires p.Valid() && Job(r, p, k) && r.orderId == p.orderId && r.updateId == u && Sendable(p, u + 1)
    requires step.Delivered? && step.order == Message(p, u + 1) && Welcome(p, step.order, step.around)
    ensures RobotOk(Next(r, step)) && Next(r, step).orderId == p.orderId && Next(r, step).updateId == u + 1
  {
    assert OnTrack(r, p, u + 1) by { OrderIdMeansUnderway(r, p, k); }
    TakenUpNext(r, p, u, step);
  }

  lemma TakenUpNext(r: SoundRobot, p: Plan, u: nat, step: Step)
    requires p.Valid() && OnTrack(r, p, u + 1) && Sendable(p, u + 1)
    requires step.Delivered? && step.order == Message(p, u + 1) && Welcome(p, step.order, step.around)
    ensures RobotOk(Next(r, step)) && Next(r, step).orderId == p.orderId && Next(r, step).updateId == u + 1
  {
    CalmStep(r, p, u + 1, step, u + 2);
  }

  lemma DeliveryIsPossible(w: World, step: Step)
    requires AttemptOk(w.attempt) && step.Delivered? && step.order == Message(w.attempt.plan, w.attempt.updateId)
    ensures EndToEnd.Possible(w, RobotMoves(step))
  {
  }

  /** The release handshake: the robot has taken up what was sent last and driven it out, its state is
      seen, and the next message is delivered where nothing stands in its way. Then it has been sent,
      with `step` more waypoints, and the robot has taken it up. */
  lemma ReleaseGoesOn(r: SoundRobot, a: Attempt, step: Step)
    requires AttemptOk(a) && UnderRelease(a) && PostingOk(Posting(r, [], {}), a.plan)
    requires r.orderId == a.plan.orderId && r.updateId == a.updateId && AtBaseEnd(r)
    requires step.Delivered? && step.order == Message(a.plan, a.updateId + 1)
    requires Welcome(a.plan, step.order, step.around)
    ensures var s := SnapshotOf(Posting(r, [], {}));
            Sends(a, s) == [OrderSent(step.order)] && Releases(a, Observed(a, s))
    ensures RobotOk(Next(r, step))
    ensures Next(r, step).orderId == a.plan.orderId && Next(r, step).updateId == a.updateId + 1
  {
    var k :| Job(r, a.plan, k);
    ShownAtBaseEnd(r, a, k);
    NextIsTakenUp(r, a.plan, a.updateId, k, step);
  }

  lemma Seen(w: World, events: seq<EndToEnd.Event>) returns (w': World)
    requires EndToEnd.ReachedBy(w, events)
    ensures AttemptOk(w.attempt) && AttemptOk(w'.attempt)
    ensures EndToEnd.ReachedBy(w', ShownBy(events, w)) && w'.robot == w.robot
    ensures w'.attempt == Observed(w.attempt, SnapshotOf(Posting(w.robot, [], {})))
  {
    w' := StateIsShown(w, events);
  }

  lemma MessageArrives(w: World, events: seq<EndToEnd.Event>, step: Step) returns (w': World)
    requires EndToEnd.ReachedBy(w, events) && AttemptOk(w.attempt)
    requires step.Delivered? && step.order == Message(w.attempt.plan, w.attempt.updateId)
    ensures EndToEnd.ReachedBy(w', events + [RobotMoves(step)])
    ensures w'.attempt == w.attempt && RobotOk(Next(w.robot, step)) && w'.robot == Next(w.robot, step)
  {
    RunsAreOk(w, events);
    DeliveryIsPossible(w, step);
    StepKeepsRobot(w.robot, step);
    w' := Happens(w, RobotMoves(step));
    OneMore(w, events, RobotMoves(step), w');
  }

  /** And such a delivery is part of a run. */
  lemma HandshakeIsRun(w: World, events: seq<EndToEnd.Event>, step: Step) returns (w1: World, w2: World)
    requires EndToEnd.ReachedBy(w, events) && AttemptOk(w.attempt) && step.Delivered?
    requires var a := Observed(w.attempt, SnapshotOf(Posting(w.robot, [], {})));
             AttemptOk(a) && step.order == Message(a.plan, a.updateId)
    ensures EndToEnd.ReachedBy(w1, ShownBy(events, w))
    ensures EndToEnd.ReachedBy(w2, ShownBy(events, w) + [RobotMoves(step)])
    ensures w2.attempt == Observed(w.attempt, SnapshotOf(Posting(w.robot, [], {})))
    ensures RobotOk(Next(w.robot, step)) && w2.robot == Next(w.robot, step)
  {
    w1 := Seen(w, events);
    w2 := MessageArrives(w1, ShownBy(events, w), step);
  }

  // ---------------------------------------------------------------- the end

  /** No state so far reported an error about the order. */
  ghost predicate NeverRefused(w: World) {
    forall i | 0 <= i < |w.published| :: w.attempt.plan.orderId !in w.published[i].refused
  }

  lemma DrivenOutIsReleased(r: SoundRobot, a: Attempt, k: nat)
    requires AttemptOk(a) && Job(r, a.plan, k) && AtEnd(r, a.plan) && r.updateId <= a.updateId
    ensures a.released == |a.plan.mission.waypoints| && a.phase != AwaitingDecisionPoint
  {
    OrderIdMeansUnderway(r, a.plan, k);
    DrainedIsAtEnd(r, a.plan, k);
    assert Sendable(a.plan, a.updateId) && Released(a.plan, k - 1) <= Released(a.plan, a.updateId);
  }

  /** The verdict on a robot at the end of the route with nothing left to do. */
  function Verdict(r: SoundRobot): Outcome {
    if forall i | 0 <= i < |r.actionStates| :: r.engine.table[r.actionStates[i]].status == Finished
    then Completed else Failure
  }

  lemma EndIsConcluded(a: Attempt, r: SoundRobot)
    requires AttemptOk(a) && DistinctIds(Work(a.plan)) && PostingOk(Posting(r, [], {}), a.plan)
    requires a.phase == AwaitingEnd || a.phase == AwaitingFinal
    requires AtEnd(r, a.plan) && AllIn(r, {Finished, Failed})
    ensures Observed(a, SnapshotOf(Posting(r, [], {}))).phase == Over(Verdict(r))
  {
    var q := Posting(r, [], {});
    if a.phase == AwaitingEnd { EndIsExact(a, q); } else { FinalIsExact(a, q); }
  }

  lemma CompletedIsVerdict(w: World, events: seq<EndToEnd.Event>)
    requires EndToEnd.ReachedBy(w, events) && w.attempt.phase == Over(Completed)
    ensures Verdict(w.robot) == Completed
  {
    CompletedIsDone(w, events);
  }

  lemma FailedIsVerdict(w: World, events: seq<EndToEnd.Event>)
    requires EndToEnd.ReachedBy(w, events) && w.attempt.phase == Over(Failure)
    ensures Verdict(w.robot) == Failure
  {
    FailedIsSettled(w, events);
  }

  lemma OutcomeIsVerdict(w: World, events: seq<EndToEnd.Event>)
    requires EndToEnd.ReachedBy(w, events)
    requires w.attempt.phase == Over(Completed) || w.attempt.phase == Over(Failure)
    ensures w.attempt.phase == Over(Verdict(w.robot))
  {
    if w.attempt.phase == Over(Completed) { CompletedIsVerdict(w, events); } else { FailedIsVerdict(w, events); }
  }

  lemma UndecidedOrSettled(w: World)
    requires NotAhead(w) && NeverRefused(w)
    ensures w.attempt.phase.Over? ==> w.attempt.phase == Over(Completed) || w.attempt.phase == Over(Failure)
  {
    if w.attempt.phase.Over? {
      match w.attempt.phase.outcome
      case Completed =>
      case Failure =>
      case Rejected =>
      case Canceled =>
    }
  }

  lemma TwoStatesDecide(a: Attempt, r: SoundRobot)
    requires AttemptOk(a) && DistinctIds(Work(a.plan)) && PostingOk(Posting(r, [], {}), a.plan)
    requires a.phase.Over? ==> a.phase == Over(Verdict(r))
    requires a.released == |a.plan.mission.waypoints| && a.phase != AwaitingDecisionPoint
    requires AtEnd(r, a.plan) && AllIn(r, {Finished, Failed})
    ensures var s := SnapshotOf(Posting(r, [], {}));
            AttemptOk(Observed(a, s)) && Observed(Observed(a, s), s).phase == Over(Verdict(r))
  {
    var s := SnapshotOf(Posting(r, [], {}));
    var a' := Observed(a, s);
    ObservedIsOk(a, s);
    if a.phase == AwaitingVerdict {
      VerdictIsExact(a, s);
      EndIsConcluded(a', r);
    } else {
      if !a.phase.Over? { EndIsConcluded(a, r); }
      ObservedKeeps(a', s);
    }
  }

  lemma ReadyToConclude(w: World, events: seq<EndToEnd.Event>)
    requires EndToEnd.ReachedBy(w, events) && NeverRefused(w) && w.attempt.plan.Valid()
    requires AtEnd(w.robot, w.attempt.plan)
    ensures AttemptOk(w.attempt) && DistinctIds(Work(w.attempt.plan))
    ensures PostingOk(Posting(w.robot, [], {}), w.attempt.plan)
    ensures w.attempt.phase.Over? ==> w.attempt.phase == Over(Verdict(w.robot))
    ensures w.attempt.released == |w.attempt.plan.mission.waypoints| && w.attempt.phase != AwaitingDecisionPoint
  {
    RunsAreNotAhead(w, events);
    UndecidedOrSettled(w);
    if w.attempt.phase.Over? { OutcomeIsVerdict(w, events); }
    var k :| Job(w.robot, w.attempt.plan, k);
    DrivenOutIsReleased(w.robot, w.attempt, k);
  }

  /** Along every run, however messages were lost and overtaken, as long as no state reported an error
      about the order: once the robot is at the end of the route with every action finished or failed,
      the attempt is over as soon as two states have been seen, and it is COMPLETED exactly if all
      actions are finished. */
  lemma DoneIsConcluded(w: World, events: seq<EndToEnd.Event>) returns (w1: World, w2: World)
    requires EndToEnd.ReachedBy(w, events) && NeverRefused(w) && w.attempt.plan.Valid()
    requires AtEnd(w.robot, w.attempt.plan) && AllIn(w.robot, {Finished, Failed})
    ensures EndToEnd.ReachedBy(w1, ShownBy(events, w)) && EndToEnd.ReachedBy(w2, ShownBy(ShownBy(events, w), w1))
    ensures w2.robot == w.robot && w2.attempt.phase == Over(Verdict(w.robot))
  {
    ReadyToConclude(w, events);
    w1, w2 := ShownTwice(w, events);
    TwoStatesDecide(w.attempt, w.robot);
  }
}
