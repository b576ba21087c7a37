/** One dispatch attempt seen from the robot: whatever the network does to the messages of a
    compiled mission, the robot takes up a prefix of them, and what it stores is what a single
    order with the same base would have given it. */
module OrderChain {
  import opened Vda5050
  import opened OrderAcceptance
  import opened Missions
  import opened RobotModel
  import opened RobotInvariants

  /** What is dispatched under one order id: the base grows, message by message, from the first
      of `releases` to the last. */
  datatype Plan = Plan(mission: Mission, v2: bool, orderId: string, releases: seq<int>) {
    function Total(): nat { |mission.waypoints| }

    /** What the mission compiler asks of its caller. */
    predicate Valid() {
      && releases != [] && 1 <= releases[0]
      && (forall i, j | 0 <= i <= j < |releases| :: releases[i] <= releases[j])
      && releases[|releases| - 1] <= Total()
    }

    /** Every message adds to the base. */
    predicate Strict() { forall i, j | 0 <= i < j < |releases| :: releases[i] < releases[j] }
  }

  predicate Sendable(p: Plan, i: nat) { i < |p.releases| }

  /** The base, counted along the whole route, after the `i`-th message. */
  function Released(p: Plan, i: nat): (r: int)
    requires p.Valid()
    ensures 1 <= r <= p.Total()
  {
    if Sendable(p, i) then p.releases[i] else p.releases[|p.releases| - 1]
  }

  /** The waypoint the `i`-th message starts from. */
  function Start(p: Plan, i: nat): nat
    requires p.Valid()
  {
    if i == 0 then 0 else Released(p, i - 1) - 1
  }

  function Message(p: Plan, i: nat): Order
    requires p.Valid()
  {
    OrderFrom(p.mission, p.v2, p.orderId, i, Released(p, i), Start(p, i))
  }

  /** These are the messages the mission compiler hands out. */
  lemma MessagesAreCompiled(p: Plan, i: nat)
    requires p.Valid() && Sendable(p, i)
    ensures i == 0 ==> InitialOrder(p.mission, p.v2, p.orderId, Some(Released(p, 0))) == Ok(Message(p, 0))
    ensures i > 0 ==>
              Update(p.mission, p.v2, p.orderId, i, Released(p, i - 1), Some(Released(p, i))) == Ok(Message(p, i))
    ensures i > 0 ==> Released(p, i - 1) <= Released(p, i) && (p.Strict() ==> Released(p, i - 1) < Released(p, i))
  {
  }

  lemma SentIsChain(p: Plan, i: nat)
    requires p.Valid() && Sendable(p, i)
    ensures Chain(Message(p, i), p.v2, Released(p, i) - Start(p, i))
  {
    CompiledIsChain(p.mission, p.v2, p.orderId, i, Released(p, i), Start(p, i));
  }

  /** Message `i` starts at the decision point message `j` left; only messages that released
      nothing lie between them. */
  predicate Follows(p: Plan, j: nat, i: nat)
    requires p.Valid()
  {
    j < i && Sendable(p, i) && Released(p, i - 1) == Released(p, j)
  }

  /** The messages that fit once the messages before `k` were sent. */
  predicate CanFollow(p: Plan, k: nat, i: nat)
    requires p.Valid()
  {
    if k == 0 then i == 0 else Follows(p, k - 1, i)
  }

  /** Where releases grow strictly, the stitch point of a message names its predecessor. */
  lemma StitchNamesPredecessor(p: Plan, k: nat, i: nat)
    requires p.Valid() && p.Strict() && CanFollow(p, k, i)
    ensures i == k
  {
  }

  // ---------------------------------------------------------------- graph

  /** A stored graph is the whole route with `release` waypoints of base. */
  ghost predicate Route(nodes: map<int, Node>, edges: map<int, RxEdge>, p: Plan, release: int) {
    RouteNodes(nodes, p, release) && RouteEdges(edges, p, release)
  }

  ghost predicate RouteNodes(nodes: map<int, Node>, p: Plan, release: int) {
    && nodes.Keys == NodeKeys(0, p.Total())
    && forall i | 0 <= i < p.Total() ::
         NodeNumber(0, i) in nodes && nodes[NodeNumber(0, i)] == NodeAt(p.mission, p.v2, release, i)
  }

  ghost predicate RouteEdges(edges: map<int, RxEdge>, p: Plan, release: int) {
    && edges.Keys == EdgeKeys(0, p.Total() - 1)
    && forall i | 0 <= i < p.Total() - 1 ::
         EdgeNumber(0, i) in edges && edges[EdgeNumber(0, i)].edge == EdgeAt(p.mission, p.v2, release, i)
  }

  /** The robot has not adopted this attempt's order. */
  predicate Unadopted(r: Robot, p: Plan) { r.orderId != p.orderId }

  /** Message `j` is the last the robot has taken up. */
  ghost predicate Carries(r: Robot, p: Plan, j: nat)
    requires p.Valid()
  {
    && r.hasOrder && r.orderId == p.orderId && r.updateId == j && Sendable(p, j)
    && (Cleared(r) || Route(r.nodes, r.edges, p, Released(p, j)))
  }

  /** The last message the robot has taken up is the one before `k`, if any. */
  ghost predicate TookUp(r: Robot, p: Plan, k: nat)
    requires p.Valid()
  {
    if k == 0 then Unadopted(r, p) else Carries(r, p, k - 1)
  }

  lemma RouteIsLaid(r: Robot, p: Plan, release: int, lo: int, at: int, base: int, n: int)
    requires RouteNodes(r.nodes, p, release) && Laid(r, lo, at, base, n) && 1 <= release <= p.Total()
    ensures lo == 0 && n == p.Total() && base == release
  {
    assert NodeNumber(lo, 0) in NodeKeys(0, p.Total());
    assert NodeNumber(0, 0) in NodeKeys(lo, n);
    assert NodeNumber(lo, n - 1) in NodeKeys(0, p.Total());
    assert NodeNumber(0, p.Total() - 1) in NodeKeys(lo, n);
    assert NodeStored(r.nodes[NodeNumber(lo, release - 1)], lo, base, release - 1);
    assert NodeStored(r.nodes[NodeNumber(lo, base - 1)], lo, base, base - 1);
  }

  lemma RouteDecisionPoint(nodes: map<int, Node>, p: Plan, release: int)
    requires RouteNodes(nodes, p, release) && 1 <= release <= p.Total()
    ensures DecisionPoint(nodes) == Some((p.mission.waypoints[release - 1].nodeId, NodeNumber(0, release - 1)))
  {
    var d := NodeNumber(0, release - 1);
    assert nodes[d] == NodeAt(p.mission, p.v2, release, release - 1);
    forall k | k in nodes && nodes[k].released ensures k <= d {
      assert k in NodeKeys(0, p.Total());
    }
    assert IsDecisionPoint(nodes, d);
    forall k | IsDecisionPoint(nodes, k) ensures k == d {}
  }

  lemma FreshRoute(p: Plan, tag: nat)
    requires p.Valid()
    ensures Route(IndexNodes(Message(p, 0).nodes), IndexEdges(Message(p, 0).edges, tag), p, Released(p, 0))
  {
    var o := Message(p, 0);
    assert RouteNodes(IndexNodes(o.nodes), p, Released(p, 0)) by { IndexedNodes(o.nodes, 0); }
    IndexedEdges(o.edges, 0, tag);
  }

  lemma BaseNode(p: Plan, base: int, release: int, i: nat)
    requires i < base <= release && i < p.Total()
    ensures NodeAt(p.mission, p.v2, base, i) == NodeAt(p.mission, p.v2, release, i)
  {
  }

  lemma SentNodeNumbers(p: Plan, release: int, from: nat)
    requires from < p.Total()
    ensures var sent := NodesFrom(p.mission, p.v2, release, from);
            forall i | 0 <= i < |sent| :: sent[i].seqId == NodeNumber(NodeNumber(0, from), i)
  {
    var sent := NodesFrom(p.mission, p.v2, release, from);
    forall i | 0 <= i < |sent| ensures sent[i].seqId == NodeNumber(NodeNumber(0, from), i) {
      SentNode(p.mission, p.v2, release, from, from + i);
    }
  }

  lemma RestitchedNode(nodes: map<int, Node>, nodes': map<int, Node>, sent: seq<Node>, p: Plan, base: int, release: int,
                       i: nat)
    requires 1 <= base <= release <= p.Total() && i < p.Total()
    requires sent == NodesFrom(p.mission, p.v2, release, base - 1)
    requires NodeNumber(0, i) in nodes && nodes[NodeNumber(0, i)] == NodeAt(p.mission, p.v2, base, i)
    requires NodeNumber(0, i) in nodes'
    requires nodes'[NodeNumber(0, i)] == if i < base - 1 then nodes[NodeNumber(0, i)] else sent[i - (base - 1)]
    ensures nodes'[NodeNumber(0, i)] == NodeAt(p.mission, p.v2, release, i)
  {
    if i < base - 1 { BaseNode(p, base, release, i); } else { SentNode(p.mission, p.v2, release, base - 1, i); }
  }

  /** Sending the route on from the last base node turns base `base` into base `release`. */
  lemma StitchedRouteNodes(nodes: map<int, Node>, sent: seq<Node>, p: Plan, base: int, release: int)
    requires 1 <= base <= release <= p.Total() && RouteNodes(nodes, p, base)
    requires sent == NodesFrom(p.mission, p.v2, release, base - 1)
    ensures RouteNodes(StitchNodes(nodes, sent), p, release)
  {
    var nodes' := StitchNodes(nodes, sent);
    SentNodeNumbers(p, release, base - 1);
    StitchedNodes(nodes, sent, 0, base, p.Total());
    forall i | 0 <= i < p.Total()
      ensures NodeNumber(0, i) in nodes' && nodes'[NodeNumber(0, i)] == NodeAt(p.mission, p.v2, release, i)
    {
      RestitchedNode(nodes, nodes', sent, p, base, release, i);
    }
  }

  lemma BaseEdge(p: Plan, base: int, release: int, i: nat)
    requires i < base - 1 && base <= release && i < p.Total() - 1
    ensures EdgeAt(p.mission, p.v2, base, i) == EdgeAt(p.mission, p.v2, release, i)
  {
  }

  lemma SentEdgeNumbers(p: Plan, release: int, from: nat)
    requires from < p.Total()
    ensures var sent := EdgesFrom(p.mission, p.v2, release, from);
            forall i | 0 <= i < |sent| :: sent[i].seqId == EdgeNumber(NodeNumber(0, from), i)
  {
    var sent := EdgesFrom(p.mission, p.v2, release, from);
    forall i | 0 <= i < |sent| ensures sent[i].seqId == EdgeNumber(NodeNumber(0, from), i) {
      SentEdge(p.mission, p.v2, release, from, from + i);
    }
  }

  lemma RestitchedEdge(edges: map<int, RxEdge>, edges': map<int, RxEdge>, sent: seq<Edge>, tag: nat,
                       p: Plan, base: int, release: int, i: nat)
    requires 1 <= base <= release <= p.Total() && i < p.Total() - 1
    requires sent == EdgesFrom(p.mission, p.v2, release, base - 1)
    requires EdgeNumber(0, i) in edges && edges[EdgeNumber(0, i)].edge == EdgeAt(p.mission, p.v2, base, i)
    requires EdgeNumber(0, i) in edges'
    requires edges'[EdgeNumber(0, i)]
          == if i < base - 1 then edges[EdgeNumber(0, i)] else RxEdge(tag, sent[i - (base - 1)])
    ensures edges'[EdgeNumber(0, i)].edge == EdgeAt(p.mission, p.v2, release, i)
  {
    if i < base - 1 { BaseEdge(p, base, release, i); } else { SentEdge(p.mission, p.v2, release, base - 1, i); }
  }

  lemma StitchedRouteEdges(edges: map<int, RxEdge>, sent: seq<Edge>, p: Plan, base: int, release: int, tag: nat)
    requires 1 <= base <= release <= p.Total() && RouteEdges(edges, p, base)
    requires sent == EdgesFrom(p.mission, p.v2, release, base - 1)
    ensures RouteEdges(StitchEdges(edges, sent, NodeNumber(0, base - 1), tag), p, release)
  {
    SentEdgeNumbers(p, release, base - 1);
    StitchedEdges(edges, sent, tag, 0, base, p.Total());
    var edges' := StitchEdges(edges, sent, NodeNumber(0, base - 1), tag);
    forall i | 0 <= i < p.Total() - 1
      ensures EdgeNumber(0, i) in edges' && edges'[EdgeNumber(0, i)].edge == EdgeAt(p.mission, p.v2, release, i)
    {
      RestitchedEdge(edges, edges', sent, tag, p, base, release, i);
    }
  }

  /** What a message sends on is the route from its start. */
  lemma NextMessage(p: Plan, j: nat, i: nat)
    requires p.Valid() && Follows(p, j, i)
    ensures Released(p, j) <= Released(p, i)
    ensures Message(p, i).nodes == NodesFrom(p.mission, p.v2, Released(p, i), Released(p, j) - 1)
    ensures Message(p, i).edges == EdgesFrom(p.mission, p.v2, Released(p, i), Released(p, j) - 1)
    ensures Message(p, i).nodes[0].seqId == NodeNumber(0, Released(p, j) - 1)
  {
    SentNode(p.mission, p.v2, Released(p, i), Released(p, j) - 1, Released(p, j) - 1);
  }

  lemma StitchedMessage(nodes: map<int, Node>, edges: map<int, RxEdge>, p: Plan, j: nat, i: nat, o: Order, tag: nat)
    requires p.Valid() && Follows(p, j, i) && Route(nodes, edges, p, Released(p, j)) && o == Message(p, i)
    ensures RouteNodes(StitchNodes(nodes, o.nodes), p, Released(p, i))
    ensures RouteEdges(StitchEdges(edges, o.edges, o.nodes[0].seqId, tag), p, Released(p, i))
  {
    NextMessage(p, j, i);
    StitchedRouteNodes(nodes, o.nodes, p, Released(p, j), Released(p, i));
    StitchedRouteEdges(edges, o.edges, p, Released(p, j), Released(p, i), tag);
  }

  // ---------------------------------------------------------- single steps

  lemma FreshOutcome(r: Robot, o: Order, s: Surroundings)
    requires RefsOk(r) && Decide(r, o, s).Accept? && (!r.hasOrder || r.orderId != o.orderId)
    ensures o.updateId == 0 && |o.nodes| >= 1
    ensures var r' := OnOrder(r, o, s);
            && r'.nodes == IndexNodes(o.nodes) && r'.edges == IndexEdges(o.edges, r.accepted)
            && r'.hasOrder && r'.orderId == o.orderId && r'.updateId == 0
  {
    AcceptanceIsExact(o, SituationOf(r, s));
  }

  lemma UpdateOutcome(r: Robot, o: Order, s: Surroundings)
    requires RefsOk(r) && Decide(r, o, s).Accept? && r.hasOrder && r.orderId == o.orderId
    ensures |o.nodes| >= 1 && o.updateId > r.updateId
    ensures DecisionPoint(r.nodes) == Some((o.nodes[0].id, o.nodes[0].seqId))
    ensures var r' := OnOrder(r, o, s);
            && r'.nodes == StitchNodes(r.nodes, o.nodes)
            && r'.edges == StitchEdges(r.edges, o.edges, o.nodes[0].seqId, r.accepted)
            && r'.hasOrder && r'.orderId == o.orderId && r'.updateId == o.updateId
  {
    AcceptanceIsExact(o, SituationOf(r, s));
  }

  lemma FirstSent(p: Plan, i: nat)
    requires p.Valid()
    ensures Message(p, i).nodes[0] == NodeAt(p.mission, p.v2, Released(p, i), Start(p, i))
  {
    SentNode(p.mission, p.v2, Released(p, i), Start(p, i), Start(p, i));
  }

  lemma StitchIsNext(nodes: map<int, Node>, p: Plan, j: nat, i: nat, stitch: Node)
    requires p.Valid() && Sendable(p, i) && i > j && RouteNodes(nodes, p, Released(p, j))
    requires stitch.seqId == NodeNumber(0, Start(p, i)) && DecisionPoint(nodes) == Some((stitch.id, stitch.seqId))
    ensures Follows(p, j, i)
  {
    RouteDecisionPoint(nodes, p, Released(p, j));
  }

  lemma NoDecisionPoint()
    ensures DecisionPoint(map[]).None?
  {
  }

  /** Only a message that starts at the decision point can be accepted. */
  lemma AcceptedIsNext(r: Robot, p: Plan, j: nat, i: nat, s: Surroundings)
    requires p.Valid() && RefsOk(r) && Carries(r, p, j) && Sendable(p, i)
    requires Decide(r, Message(p, i), s).Accept?
    ensures Follows(p, j, i) && !Cleared(r)
  {
    UpdateOutcome(r, Message(p, i), s);
    NoDecisionPoint();
    FirstSent(p, i);
    StitchIsNext(r.nodes, p, j, i, Message(p, i).nodes[0]);
  }

  lemma AcceptedIsFirst(r: Robot, p: Plan, i: nat, s: Surroundings)
    requires p.Valid() && RefsOk(r) && Unadopted(r, p) && Decide(r, Message(p, i), s).Accept?
    ensures i == 0
  {
    FreshOutcome(r, Message(p, i), s);
  }

  lemma TakesUpFirst(r: Robot, p: Plan, o: Order, s: Surroundings)
    requires p.Valid() && RefsOk(r) && Unadopted(r, p) && o == Message(p, 0) && Decide(r, o, s).Accept?
    ensures Carries(OnOrder(r, o, s), p, 0)
  {
    FreshOutcome(r, o, s);
    FreshRoute(p, r.accepted);
  }

  lemma TakesUpNext(r: Robot, p: Plan, j: nat, i: nat, o: Order, s: Surroundings)
    requires p.Valid() && RefsOk(r) && Carries(r, p, j) && !Cleared(r) && Follows(p, j, i)
    requires o == Message(p, i) && Decide(r, o, s).Accept?
    ensures Carries(OnOrder(r, o, s), p, i)
  {
    UpdateOutcome(r, o, s);
    StitchedMessage(r.nodes, r.edges, p, j, i, o, r.accepted);
  }

  /** The robot holds the same order with the same actions; its graph is untouched, or gone. */
  ghost predicate SameOrder(r: Robot, r': Robot) {
    && r'.orderId == r.orderId && r'.updateId == r.updateId && r'.hasOrder == r.hasOrder
    && r'.actionStates == r.actionStates
    && (SameGraphAs(r, r') || Cleared(r'))
  }

  ghost predicate SameGraphAs(r: Robot, r': Robot) {
    r'.nodes == r.nodes && r'.edges == r.edges && r'.cancelled == r.cancelled
    && (Cleared(r) ==> Cleared(r'))
  }

  lemma ArriveKeepsOrder(r: Robot)
    requires RefsOk(r)
    ensures SameOrder(r, Arrive(r)) && SameGraphAs(r, Arrive(r))
  {
    if Current(r) { assert !Cleared(r); }
  }

  lemma ClearingKeepsOrder(r: Robot, step: Step)
    requires RefsOk(r) && (step.CancelAsked? || step.ManualAsked?)
    ensures SameOrder(r, Next(r, step))
  {
    if step.CancelAsked? {
      assert SameOrder(r, Cancel(r, step.requested));
    } else {
      assert SameOrder(r, SwitchToManual(r));
    }
  }

  lemma SetOffKeepsOrder(r: Robot, mayDrive: bool)
    requires RefsOk(r)
    ensures var r' := SetOff(r, mayDrive); r' == r.(engine := r'.engine, driver := r'.driver)
  {
  }

  lemma PauseKeepsOrder(r: Robot)
    ensures Rest(r) == r.(newBaseRequest := Rest(r).newBaseRequest) && Abandon(r) == r.(driver := Abandon(r).driver)
  {
  }

  lemma InstantKeepsOrder(r: Robot, a: Action, supported: bool)
    requires RefsOk(r)
    ensures SameOrder(r, StartInstant(r, a, supported)) && SameGraphAs(r, StartInstant(r, a, supported))
  {
  }

  lemma EngineKeepsOrder(r: Robot, step: Step)
    requires RefsOk(r)
    requires step.RunnerMoves? || step.HandlerReports? || step.HandlerEnds? || step.RetrySkips?
    ensures Next(r, step) == r.(engine := Next(r, step).engine)
  {
    if !step.RunnerMoves? && step.run < |r.engine.table| { HandledOnly(r, step, step.run); }
  }

  /** Nothing but an order message changes which order the robot holds, and nothing else but a
      cancel or a mode switch touches the graph. */
  lemma OtherStepsKeepOrder(r: Robot, step: Step)
    requires RefsOk(r) && !step.Delivered?
    ensures SameOrder(r, Next(r, step))
    ensures !step.CancelAsked? && !step.ManualAsked? ==> SameGraphAs(r, Next(r, step))
  {
    if step.CancelAsked? || step.ManualAsked? {
      ClearingKeepsOrder(r, step);
    } else if step.Arrived? {
      ArriveKeepsOrder(r);
    } else if step.SettingOff? {
      SetOffKeepsOrder(r, step.mayDrive);
    } else if step.Rested? || step.Abandoned? {
      PauseKeepsOrder(r);
    } else if step.InstantAsked? {
      InstantKeepsOrder(r, step.action, step.supported);
    } else {
      EngineKeepsOrder(r, step);
    }
  }

  // ------------------------------------------------------------- every run

  ghost function After(r: SoundRobot, steps: seq<Step>): SoundRobot {
    if steps == [] then r
    else
      var before := After(r, steps[..|steps| - 1]);
      StepKeepsRobot(before, steps[|steps| - 1]);
      Next(before, steps[|steps| - 1])
  }

  ghost predicate Accepts(r: SoundRobot, step: Step) {
    step.Delivered? && Decide(r, step.order, step.around).Accept?
  }

  /** The messages of the attempt come in any order and number. Others may come too, as those of an
      earlier attempt, but the robot turns them away. */
  ghost predicate OnChannel(r: SoundRobot, p: Plan, step: Step)
    requires p.Valid()
  {
    Accepts(r, step) ==> exists i: nat :: Sendable(p, i) && step.order == Message(p, i)
  }

  ghost predicate OnAttempt(r: SoundRobot, p: Plan, steps: seq<Step>)
    requires p.Valid()
  {
    if steps == [] then true
    else
      var init, last := steps[..|steps| - 1], steps[|steps| - 1];
      OnAttempt(r, p, init) && OnChannel(After(r, init), p, last)
  }

  lemma BusyTurnsAway(r: SoundRobot, o: Order, s: Surroundings)
    requires o.orderId != r.orderId && !IsIdle(r)
    ensures !Decide(r, o, s).Accept?
  {
    AcceptanceIsExact(o, SituationOf(r, s));
  }

  /** While the attempt keeps the robot busy, a message of another order cannot disturb it. */
  lemma BusyTurnsOthersAway(r: SoundRobot, p: Plan, k: nat, step: Step)
    requires p.Valid() && TookUp(r, p, k) && k > 0
    requires step.Delivered? && step.order.orderId != p.orderId && !IsIdle(r)
    ensures OnChannel(r, p, step) && Next(r, step) == r
  {
    BusyTurnsAway(r, step.order, step.around);
  }

  /** The order messages the robot accepts along a run. */
  ghost function Accepted(r: SoundRobot, steps: seq<Step>): seq<Order> {
    if steps == [] then []
    else
      var before, last := steps[..|steps| - 1], steps[|steps| - 1];
      if Accepts(After(r, before), last) then Accepted(r, before) + [last.order] else Accepted(r, before)
  }

  function FirstMessages(p: Plan, k: nat): seq<Order>
    requires p.Valid()
  {
    seq(k, i requires 0 <= i => Message(p, i))
  }

  lemma FirstMessagesGrow(p: Plan, k: nat)
    requires p.Valid()
    ensures FirstMessages(p, k + 1) == FirstMessages(p, k) + [Message(p, k)]
  {
  }

  lemma AcceptedIsDue(r: SoundRobot, p: Plan, k: nat, i: nat, s: Surroundings)
    requires p.Valid() && TookUp(r, p, k) && Sendable(p, i) && Decide(r, Message(p, i), s).Accept?
    ensures CanFollow(p, k, i)
  {
    if k == 0 { AcceptedIsFirst(r, p, i, s); } else { AcceptedIsNext(r, p, k - 1, i, s); }
  }

  lemma DueIsTakenUp(r: SoundRobot, p: Plan, k: nat, i: nat, o: Order, s: Surroundings)
    requires p.Valid() && TookUp(r, p, k) && CanFollow(p, k, i) && Sendable(p, i)
    requires o == Message(p, i) && Decide(r, o, s).Accept?
    ensures TookUp(OnOrder(r, o, s), p, i + 1)
  {
    if k == 0 {
      TakesUpFirst(r, p, o, s);
    } else {
      AcceptedIsNext(r, p, k - 1, i, s);
      TakesUpNext(r, p, k - 1, i, o, s);
    }
  }

  /** `k'` is what `step` makes of `k`: past the message accepted, or the same. */
  ghost predicate Takes(r: SoundRobot, p: Plan, k: nat, step: Step, k': nat)
    requires p.Valid()
  {
    if Accepts(r, step) then
      k' > 0 && CanFollow(p, k, k' - 1) && Sendable(p, k' - 1) && step.order == Message(p, k' - 1)
    else k' == k
  }

  lemma AcceptedIsTakenUp(r: SoundRobot, p: Plan, k: nat, o: Order, s: Surroundings) returns (i: nat)
    requires p.Valid() && TookUp(r, p, k) && Decide(r, o, s).Accept?
    requires exists i: nat :: Sendable(p, i) && o == Message(p, i)
    ensures CanFollow(p, k, i) && Sendable(p, i) && o == Message(p, i) && TookUp(OnOrder(r, o, s), p, i + 1)
  {
    i :| Sendable(p, i) && o == Message(p, i);
    AcceptedIsDue(r, p, k, i, s);
    DueIsTakenUp(r, p, k, i, o, s);
  }

  /** A delivery is a message that fits, taken up, or changes nothing. */
  lemma StepTakesUp(r: SoundRobot, p: Plan, k: nat, step: Step) returns (k': nat)
    requires p.Valid() && TookUp(r, p, k) && OnChannel(r, p, step)
    ensures Takes(r, p, k, step, k') && TookUp(Next(r, step), p, k')
    ensures step.Delivered? && !Accepts(r, step) ==> Next(r, step) == r
  {
    k' := k;
    if Accepts(r, step) {
      var i := AcceptedIsTakenUp(r, p, k, step.order, step.around);
      k' := i + 1;
    } else if !step.Delivered? {
      OtherStepsKeepOrder(r, step);
    }
  }

  // What was accepted, as message numbers.

  function Messages(p: Plan, taken: seq<nat>): seq<Order>
    requires p.Valid()
  {
    seq(|taken|, x requires 0 <= x < |taken| => Message(p, taken[x]))
  }

  /** One past the last of them. */
  function Past(taken: seq<nat>): nat { if taken == [] then 0 else taken[|taken| - 1] + 1 }

  /** Each starts at the decision point the one before it left. */
  predicate Chained(p: Plan, taken: seq<nat>)
    requires p.Valid()
  {
    if taken == [] then true
    else
      var init, last := taken[..|taken| - 1], taken[|taken| - 1];
      Chained(p, init) && CanFollow(p, Past(init), last) && Sendable(p, last)
  }

  /** The robot has accepted exactly the messages `taken` and took them up. */
  ghost predicate AcceptedExactly(r: SoundRobot, p: Plan, steps: seq<Step>, taken: seq<nat>)
    requires p.Valid()
  {
    Accepted(r, steps) == Messages(p, taken) && Chained(p, taken) && TookUp(After(r, steps), p, Past(taken))
  }

  lemma TakenAfter(p: Plan, taken: seq<nat>, k': nat) returns (taken': seq<nat>)
    requires p.Valid() && Chained(p, taken) && k' > 0 && CanFollow(p, Past(taken), k' - 1) && Sendable(p, k' - 1)
    ensures Chained(p, taken') && Past(taken') == k' && Messages(p, taken') == Messages(p, taken) + [Message(p, k' - 1)]
  {
    taken' := taken + [k' - 1];
    assert taken'[..|taken|] == taken;
  }

  lemma AcceptedExtends(r: SoundRobot, p: Plan, steps: seq<Step>, taken: seq<nat>) returns (taken': seq<nat>)
    requires p.Valid() && steps != [] && AcceptedExactly(r, p, steps[..|steps| - 1], taken)
    requires OnChannel(After(r, steps[..|steps| - 1]), p, steps[|steps| - 1])
    ensures AcceptedExactly(r, p, steps, taken')
    ensures Takes(After(r, steps[..|steps| - 1]), p, Past(taken), steps[|steps| - 1], Past(taken'))
  {
    var before, last := After(r, steps[..|steps| - 1]), steps[|steps| - 1];
    var k' := StepTakesUp(before, p, Past(taken), last);
    taken' := taken;
    if Accepts(before, last) { taken' := TakenAfter(p, taken, k'); }
  }

  /** Over a network that drops, duplicates, delays and reorders, with driving, cancels, mode
      switches and engine steps in between, the robot accepts messages each of which starts at the
      decision point the one before it left, and nothing else. */
  lemma {:induction false} AcceptedIsChained(r: SoundRobot, p: Plan, steps: seq<Step>) returns (taken: seq<nat>)
    requires p.Valid() && Unadopted(r, p) && OnAttempt(r, p, steps)
    ensures AcceptedExactly(r, p, steps, taken)
    decreases |steps|
  {
    if steps == [] {
      taken := [];
    } else {
      taken := AcceptedIsChained(r, p, steps[..|steps| - 1]);
      taken := AcceptedExtends(r, p, steps, taken);
    }
  }

  lemma {:induction false} StrictIsPrefix(p: Plan, taken: seq<nat>)
    requires p.Valid() && p.Strict() && Chained(p, taken)
    ensures Messages(p, taken) == FirstMessages(p, |taken|) && Past(taken) == |taken|
    decreases |taken|
  {
    if taken != [] {
      var init, last := taken[..|taken| - 1], taken[|taken| - 1];
      StrictIsPrefix(p, init);
      StitchNamesPredecessor(p, |init|, last);
      FirstMessagesGrow(p, |init|);
      assert Messages(p, taken) == Messages(p, init) + [Message(p, last)];
    }
  }

  /** Where every message adds to the base, those are the messages 0, 1, ..., k - 1 in this order. */
  lemma AcceptedIsPrefix(r: SoundRobot, p: Plan, steps: seq<Step>) returns (k: nat)
    requires p.Valid() && p.Strict() && Unadopted(r, p) && OnAttempt(r, p, steps)
    ensures Accepted(r, steps) == FirstMessages(p, k) && TookUp(After(r, steps), p, k)
  {
    var taken := AcceptedIsChained(r, p, steps);
    StrictIsPrefix(p, taken);
    k := |taken|;
  }

  // ------------------------------------------------------ lossless delivery

  lemma FirstIsAccepted(r: SoundRobot, p: Plan, o: Order, s: Surroundings)
    requires p.Valid() && Unadopted(r, p) && o == Message(p, 0) && s.carryIds == p.v2
    ensures Decide(r, o, s).Accept? <==>
              && |o.nodes| <= MAX_ORDER_NODES && Admissible(o, SituationOf(r, s))
              && IsIdle(r) && AtStart(o, SituationOf(r, s))
  {
    SentIsChain(p, 0);
    AcceptanceIsExact(o, SituationOf(r, s));
  }

  lemma NextStartsAtDecisionPoint(r: SoundRobot, p: Plan, j: nat, i: nat)
    requires p.Valid() && Carries(r, p, j) && Follows(p, j, i) && |Message(p, i).nodes| >= 1
    ensures var n := Message(p, i).nodes[0];
            DecisionPoint(r.nodes) == Some((n.id, n.seqId)) <==> !Cleared(r)
  {
    FirstSent(p, i);
    if Cleared(r) { NoDecisionPoint(); } else { RouteDecisionPoint(r.nodes, p, Released(p, j)); }
  }

  lemma NextIsAccepted(r: SoundRobot, p: Plan, j: nat, i: nat, o: Order, s: Surroundings)
    requires p.Valid() && Carries(r, p, j) && Follows(p, j, i) && o == Message(p, i) && s.carryIds == p.v2
    ensures Decide(r, o, s).Accept? <==>
              && |o.nodes| <= MAX_ORDER_NODES && Admissible(o, SituationOf(r, s))
              && !r.cancelled && !Cleared(r)
  {
    SentIsChain(p, i);
    FirstSent(p, i);
    NextStartsAtDecisionPoint(r, p, j, i);
    AcceptanceIsExact(o, SituationOf(r, s));
  }

  /** Exactly when a message that fits gets accepted. */
  lemma DueMessageIsAccepted(r: SoundRobot, p: Plan, k: nat, i: nat, o: Order, s: Surroundings)
    requires p.Valid() && TookUp(r, p, k) && CanFollow(p, k, i) && o == Message(p, i) && s.carryIds == p.v2
    ensures Decide(r, o, s).Accept? <==>
              && |o.nodes| <= MAX_ORDER_NODES && Admissible(o, SituationOf(r, s))
              && (if k == 0 then IsIdle(r) && AtStart(o, SituationOf(r, s)) else !r.cancelled && !Cleared(r))
  {
    if k == 0 { FirstIsAccepted(r, p, o, s); } else { NextIsAccepted(r, p, k - 1, i, o, s); }
  }

  /** The surroundings let `o` through; nothing here depends on the order state. */
  ghost predicate Welcome(p: Plan, o: Order, s: Surroundings) {
    s.carryIds == p.v2 && |o.nodes| <= MAX_ORDER_NODES && Admissible(o, SituationOf(Idle, s))
  }

  /** No cancel and no mode switch; deliveries are welcome. */
  ghost predicate Calm(p: Plan, step: Step) {
    !step.CancelAsked? && !step.ManualAsked? && (step.Delivered? ==> Welcome(p, step.order, step.around))
  }

  function Deliveries(steps: seq<Step>): seq<Order> {
    if steps == [] then []
    else
      var before, last := Deliveries(steps[..|steps| - 1]), steps[|steps| - 1];
      if last.Delivered? then before + [last.order] else before
  }

  /** The run delivers the first `k` messages one after the other: nothing is lost, repeated or
      overtaken. */
  ghost predicate InOrder(p: Plan, steps: seq<Step>, k: nat)
    requires p.Valid()
  {
    if steps == [] then k == 0
    else if steps[|steps| - 1].Delivered? then
      k > 0 && InOrder(p, steps[..|steps| - 1], k - 1) && Due(p, k - 1, steps[|steps| - 1])
    else InOrder(p, steps[..|steps| - 1], k)
  }

  ghost predicate Due(p: Plan, k: nat, step: Step)
    requires p.Valid()
  {
    step.Delivered? && Sendable(p, k) && step.order == Message(p, k)
  }

  /** The robot can take up a fresh order. */
  ghost predicate Ready(r: SoundRobot, o: Order, s: Surroundings) {
    IsIdle(r) && |o.nodes| >= 1 && AtStart(o, SituationOf(r, s))
  }

  /** Where the run delivers the first message, the robot is ready for it. */
  ghost predicate FoundReady(r: SoundRobot, p: Plan, steps: seq<Step>)
    requires p.Valid()
  {
    if steps == [] then true
    else
      var init, last := steps[..|steps| - 1], steps[|steps| - 1];
      FoundReady(r, p, init) && (Due(p, 0, last) ==> Ready(After(r, init), last.order, last.around))
  }

  /** The last message taken up is the one before `k`; the robot still has a graph to stitch onto. */
  ghost predicate Underway(r: SoundRobot, p: Plan, k: nat)
    requires p.Valid()
  {
    k >= 1 && Carries(r, p, k - 1) && !Cleared(r) && !r.cancelled
  }

  /** The robot waits for the first message or has taken up those before `k`. */
  ghost predicate OnTrack(r: SoundRobot, p: Plan, k: nat)
    requires p.Valid()
  {
    if k == 0 then Unadopted(r, p) else Underway(r, p, k)
  }

  lemma NotCleared(r: SoundRobot, o: Order, s: Surroundings)
    requires Decide(r, o, s).Accept?
    ensures !Cleared(OnOrder(r, o, s)) && !OnOrder(r, o, s).cancelled
  {
    if r.hasOrder && r.orderId == o.orderId { UpdateOutcome(r, o, s); } else { FreshOutcome(r, o, s); }
    assert |o.nodes| >= 1 && o.nodes[|o.nodes| - 1].seqId in IndexNodes(o.nodes);
  }

  /** Short of a cancel and a mode switch the robot stays on track. */
  lemma StaysOnTrack(r: SoundRobot, p: Plan, k: nat, step: Step) returns (k': nat)
    requires p.Valid() && OnTrack(r, p, k) && OnChannel(r, p, step) && !step.CancelAsked? && !step.ManualAsked?
    ensures RobotOk(Next(r, step)) && Takes(r, p, k, step, k') && OnTrack(Next(r, step), p, k')
  {
    StepKeepsRobot(r, step);
    k' := StepTakesUp(r, p, k, step);
    if Accepts(r, step) {
      NotCleared(r, step.order, step.around);
    } else if !step.Delivered? {
      OtherStepsKeepOrder(r, step);
    }
  }

  lemma CalmIsAccepted(r: SoundRobot, p: Plan, k: nat, o: Order, s: Surroundings)
    requires p.Valid() && OnTrack(r, p, k) && Sendable(p, k) && o == Message(p, k) && Welcome(p, o, s)
    requires k == 0 ==> Ready(r, o, s)
    ensures Decide(r, o, s).Accept?
  {
    DueMessageIsAccepted(r, p, k, k, o, s);
  }

  /** A calm step takes up the message that is due. */
  lemma CalmStep(r: SoundRobot, p: Plan, k: nat, step: Step, k': nat)
    requires p.Valid() && OnTrack(r, p, k) && Calm(p, step) && k' == (if step.Delivered? then k + 1 else k)
    requires step.Delivered? ==> Due(p, k, step) && (k == 0 ==> Ready(r, step.order, step.around))
    ensures RobotOk(Next(r, step)) && OnTrack(Next(r, step), p, k')
    ensures Accepts(r, step) <==> step.Delivered?
  {
    assert Accepts(r, step) <==> step.Delivered? by {
      if step.Delivered? { CalmIsAccepted(r, p, k, step.order, step.around); }
    }
    var next := StaysOnTrack(r, p, k, step);
  }

  /** Everything delivered was accepted: the first `k` messages. */
  ghost predicate AllTakenUp(r: SoundRobot, p: Plan, steps: seq<Step>, k: nat)
    requires p.Valid()
  {
    Accepted(r, steps) == Deliveries(steps) == FirstMessages(p, k) && OnTrack(After(r, steps), p, k)
  }

  lemma FifoExtends(r: SoundRobot, p: Plan, steps: seq<Step>, k: nat, k': nat)
    requires p.Valid() && steps != [] && AllTakenUp(r, p, steps[..|steps| - 1], k) && Calm(p, steps[|steps| - 1])
    requires var before, last := After(r, steps[..|steps| - 1]), steps[|steps| - 1];
             last.Delivered? ==> Due(p, k, last) && (k == 0 ==> Ready(before, last.order, last.around))
    requires k' == if steps[|steps| - 1].Delivered? then k + 1 else k
    ensures AllTakenUp(r, p, steps, k')
  {
    FirstMessagesGrow(p, k);
    CalmStep(After(r, steps[..|steps| - 1]), p, k, steps[|steps| - 1], k');
  }

  /** Delivered in order and without loss, every message is accepted, from the first one on, also
      where some release nothing. */
  lemma {:induction false} LosslessFifo(r: SoundRobot, p: Plan, steps: seq<Step>, k: nat)
    requires p.Valid() && Unadopted(r, p) && InOrder(p, steps, k) && FoundReady(r, p, steps)
    requires forall i | 0 <= i < |steps| :: Calm(p, steps[i])
    ensures AllTakenUp(r, p, steps, k)
    decreases |steps|
  {
    if steps != [] {
      var init, last := steps[..|steps| - 1], steps[|steps| - 1];
      var before := if last.Delivered? then k - 1 else k;
      LosslessFifo(r, p, init, before);
      FifoExtends(r, p, steps, before, k);
    }
  }

  // ------------------------------------------------ incremental and one-shot

  function Untagged(edges: map<int, RxEdge>): map<int, Edge> {
    map k | k in edges :: edges[k].edge
  }

  /** Two robots that store the whole route with the same base store the same graph. */
  lemma SameRouteSameGraph(r: Robot, q: Robot, p: Plan, p': Plan, release: int)
    requires Route(r.nodes, r.edges, p, release) && Route(q.nodes, q.edges, p', release)
    requires p'.mission == p.mission && p'.v2 == p.v2
    ensures q.nodes == r.nodes && Untagged(q.edges) == Untagged(r.edges)
  {
    forall k | k in r.nodes ensures q.nodes[k] == r.nodes[k] {
      assert k in NodeKeys(0, p.Total());
    }
    forall k | k in r.edges ensures q.edges[k].edge == r.edges[k].edge {
      assert k in EdgeKeys(0, p.Total() - 1);
    }
  }

  /** The whole route in one order with the given base. */
  function Single(p: Plan, orderId: string, release: int): Plan { Plan(p.mission, p.v2, orderId, [release]) }

  /** `once` is that order, and `q` takes it up. */
  ghost predicate OneShot(q: SoundRobot, p: Plan, orderId: string, release: int, once: Step)
    requires 1 <= release <= p.Total()
  {
    && Unadopted(q, Single(p, orderId, release)) && Accepts(q, once)
    && once.order == Message(Single(p, orderId, release), 0)
  }

  lemma OneShotRoute(q: SoundRobot, p: Plan, orderId: string, release: int, once: Step)
    requires 1 <= release <= p.Total() && OneShot(q, p, orderId, release, once)
    ensures Route(Next(q, once).nodes, Next(q, once).edges, Single(p, orderId, release), release)
  {
    FreshOutcome(q, once.order, once.around);
    FreshRoute(Single(p, orderId, release), q.accepted);
  }

  /** The same nodes and, but for the objects' identities, the same edges. */
  ghost predicate SameGraphStored(r: Robot, q: Robot) {
    q.nodes == r.nodes && Untagged(q.edges) == Untagged(r.edges)
  }

  /** The robot stores what one single order with the base of its last message would leave. */
  ghost predicate AsOneShot(r: SoundRobot, p: Plan, k: nat, q: SoundRobot, orderId: string, once: Step)
    requires p.Valid()
  {
    k >= 1 && !Cleared(r) && OneShot(q, p, orderId, Released(p, k - 1), once) ==> SameGraphStored(r, Next(q, once))
  }

  lemma StoresAsOneShot(r: SoundRobot, p: Plan, k: nat, q: SoundRobot, orderId: string, once: Step)
    requires p.Valid() && TookUp(r, p, k)
    ensures AsOneShot(r, p, k, q, orderId, once)
  {
    if k >= 1 && !Cleared(r) && OneShot(q, p, orderId, Released(p, k - 1), once) {
      OneShotRoute(q, p, orderId, Released(p, k - 1), once);
      SameRouteSameGraph(r, Next(q, once), p, Single(p, orderId, Released(p, k - 1)), Released(p, k - 1));
    }
  }

  /** Whatever the releases, and however the messages arrive: a robot stores the graph it would
      store after one single order with the base of the last message it took up. */
  lemma IncrementalEqualsOneShot(r: SoundRobot, p: Plan, steps: seq<Step>, q: SoundRobot, orderId: string, once: Step)
    returns (taken: seq<nat>)
    requires p.Valid() && Unadopted(r, p) && OnAttempt(r, p, steps)
    ensures AcceptedExactly(r, p, steps, taken)
    ensures AsOneShot(After(r, steps), p, Past(taken), q, orderId, once)
  {
    taken := AcceptedIsChained(r, p, steps);
    StoresAsOneShot(After(r, steps), p, Past(taken), q, orderId, once);
  }

  /** Delivered in order, the first `k` messages leave the graph of one order with their last base. */
  lemma InOrderEqualsOneShot(r: SoundRobot, p: Plan, steps: seq<Step>, k: nat, q: SoundRobot, orderId: string,
                             once: Step)
    requires p.Valid() && Unadopted(r, p) && InOrder(p, steps, k) && FoundReady(r, p, steps) && k >= 1
    requires forall i | 0 <= i < |steps| :: Calm(p, steps[i])
    requires OneShot(q, p, orderId, Released(p, k - 1), once)
    ensures Accepted(r, steps) == FirstMessages(p, k) && SameGraphStored(After(r, steps), Next(q, once))
  {
    LosslessFifo(r, p, steps, k);
    StoresAsOneShot(After(r, steps), p, k, q, orderId, once);
  }
}
