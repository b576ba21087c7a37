/** A run from power-on in which an action added to the node ahead is stranded. */
module StrandingRun {
  import opened Vda5050
  import opened OrderAcceptance
  import opened Actions
  import opened RobotModel
  import opened RobotInvariants
  import opened RobotTheorems
  import opened OrderChain
  import opened OrderActions
  import opened OrderHandover
  import opened AddedActions

  const BEEP := Action("a1", "beep", NonBlocking)

  function Here(): Node { Node("n0", 2, true, None, []) }

  function There(actions: seq<Action>): Node { Node("n1", 4, true, None, actions) }

  function Way(): Edge { Edge("e0", 3, true, None, None, []) }

  function Around(): Surroundings { Surroundings(false, false, {}, {"beep"}, {}, true, false) }

  /** Two released nodes. */
  function First(): Order { Order("o", 0, [Here(), There([])], [Way()]) }

  /** An update that gives the second one an action. */
  function Second(): Order { Order("o", 1, [There([BEEP])], []) }

  // ------------------------------------------------------- the first order

  lemma {:induction false} NoNodeItems(nodes: seq<Node>)
    requires forall i | 0 <= i < |nodes| :: nodes[i].actions == []
    ensures NodeItems(nodes) == []
  {
    if nodes != [] { NoNodeItems(nodes[..|nodes| - 1]); }
  }

  /** A robot that never had an order, nor any action. */
  ghost predicate Blank(r: Robot) {
    && RobotOk(r) && !r.hasOrder && r.nodeStates == [] && r.edgeStates == [] && r.lastNodeId == "" && r.accepted == 0
    && r.runs == map[] && r.actionStates == [] && r.engine == EngineState([], [], [], []) && r.driver == Stopped
  }

  lemma PlainLedger(r: Robot, o: Order)
    requires Blank(r)
    requires forall i | 0 <= i < |o.nodes| :: o.nodes[i].actions == []
    requires forall i | 0 <= i < |o.edges| :: o.edges[i].actions == []
    ensures FreshLedger(r, o) == Ledger([], map[], []) && ResetForOrder(r.engine, r.runs.Values) == r.engine
  {
    NoNodeItems(o.nodes);
    NoEdgeItems(o.edges);
    assert NodeItems(o.nodes) + EdgeItems(o.edges) == [];
    assert InstantRuns(r) == map[];
  }

  /** A first order without actions leaves the engine as it was. */
  lemma PlainOrder(r: Robot, o: Order, s: Surroundings)
    requires Blank(r) && Decide(r, o, s).Accept?
    requires forall i | 0 <= i < |o.nodes| :: o.nodes[i].actions == []
    requires forall i | 0 <= i < |o.edges| :: o.edges[i].actions == []
    ensures |o.nodes| >= 1
    ensures var r' := OnOrder(r, o, s);
            && r'.runs == map[] && r'.actionStates == [] && r'.engine == EngineState([], [], [], [])
            && r'.driver == Stopped && r'.lastSeq == o.nodes[0].seqId
            && r'.nodes == IndexNodes(o.nodes) && r'.edges == IndexEdges(o.edges, 0)
            && r'.hasOrder && r'.orderId == o.orderId && r'.updateId == 0 && !r'.cancelled
  {
    PlainLedger(r, o);
    FreshOutcome(r, o, s);
    EngineOfFresh(r, o, s);
    LedgerOfFresh(r, o, s);
  }

  lemma BlankAccepts(r: Robot, o: Order, s: Surroundings, base: int)
    requires Blank(r) && Chain(o, s.carryIds, base) && o.updateId == 0 && |o.nodes| <= MAX_ORDER_NODES
    requires Admissible(o, SituationOf(r, s)) && o.nodes[0].position.None?
    ensures Decide(r, o, s).Accept?
  {
    AcceptanceIsExact(o, SituationOf(r, s));
  }

  lemma TwoNodes(a: Node, b: Node)
    requires a.seqId == 2 && b.seqId == 4
    ensures IndexNodes([a, b]) == map[2 := a, 4 := b]
  {
    assert [a, b][..1] == [a] && [a][..0] == [];
    assert IndexNodes([a]) == map[2 := a];
  }

  lemma OneEdge(e: Edge, tag: nat)
    requires e.seqId == 3
    ensures IndexEdges([e], tag) == map[3 := RxEdge(tag, e)]
  {
    assert [e][..0] == [];
  }

  /** Standing on the first node of the accepted order, which has no actions. */
  ghost predicate Standing(r: Robot, here: Node, there: Node, way: Edge) {
    && r.hasOrder && !r.cancelled && r.orderId == "o" && r.updateId == 0 && r.lastSeq == 2
    && r.nodes == map[2 := here, 4 := there] && r.edges == map[3 := RxEdge(0, way)]
    && r.runs == map[] && r.actionStates == [] && r.engine == EngineState([], [], [], [])
  }

  lemma TakenUp(r: SoundRobot, o: Order, s: Surroundings, here: Node, there: Node, way: Edge, base: int)
    returns (r': SoundRobot)
    requires Blank(r) && o == Order("o", 0, [here, there], [way]) && Chain(o, s.carryIds, base)
    requires here.actions == there.actions == [] && way.actions == []
    requires here.position.None? && here.seqId == 2 && there.seqId == 4 && way.seqId == 3
    requires Admissible(o, SituationOf(r, s))
    ensures r' == OnOrder(r, o, s) && Standing(r', here, there, way) && r'.driver == Stopped
  {
    BlankAccepts(r, o, s, base);
    OrderKeeps(r, o, s);
    PlainOrder(r, o, s);
    TwoNodes(here, there);
    OneEdge(way, 0);
    r' := OnOrder(r, o, s);
  }

  lemma PlainIsAdmissible(o: Order, s: Situation)
    requires forall i | 0 <= i < |o.nodes| :: o.nodes[i].actions == [] && o.nodes[i].position.None?
    requires forall i | 0 <= i < |o.edges| :: o.edges[i].actions == []
    requires s.acceptsOrders
    ensures Admissible(o, s)
  {
  }

  lemma ChainFrom(o: Order, carryIds: bool, base: int, start: int)
    requires |o.nodes| == |o.edges| + 1 && !carryIds && 1 <= base <= |o.nodes| && start % 2 == 0
    requires o.nodes[0].seqId == start
    requires forall i | 0 <= i < |o.nodes| ::
               o.nodes[i].seqId == NodeNumber(start, i) && (o.nodes[i].released <==> i < base)
    requires forall i | 0 <= i < |o.edges| ::
               o.edges[i].seqId == EdgeNumber(start, i) && (o.edges[i].released <==> i < base - 1)
    ensures Chain(o, carryIds, base)
  {
  }

  lemma PlainIsChain(o: Order, carryIds: bool, here: Node, there: Node, way: Edge) returns (base: int)
    requires o.nodes == [here, there] && o.edges == [way] && !carryIds
    requires here.seqId == 2 && there.seqId == 4 && way.seqId == 3 && here.released && there.released && way.released
    ensures Chain(o, carryIds, base)
  {
    base := 2;
    ChainFrom(o, carryIds, base, here.seqId);
  }

  lemma PlainTakenUp(r: SoundRobot, o: Order, s: Surroundings, here: Node, there: Node, way: Edge)
    returns (r': SoundRobot)
    requires Blank(r) && o == Order("o", 0, [here, there], [way]) && s.acceptsOrders && !s.carryIds
    requires here.actions == there.actions == [] && way.actions == [] && here.position == there.position == None
    requires here.seqId == 2 && there.seqId == 4 && way.seqId == 3 && here.released && there.released && way.released
    ensures r' == OnOrder(r, o, s) && Standing(r', here, there, way) && r'.driver == Stopped
  {
    var base := PlainIsChain(o, s.carryIds, here, there, way);
    PlainIsAdmissible(o, SituationOf(r, s));
    r' := TakenUp(r, o, s, here, there, way, base);
  }

  lemma FirstTakenUp(r: SoundRobot, step: Step) returns (r': SoundRobot)
    requires Blank(r) && step == Delivered(First(), Around())
    ensures r' == Next(r, step) && Standing(r', Here(), There([]), Way()) && r'.driver == Stopped
  {
    r' := PlainTakenUp(r, step.order, step.around, Here(), There([]), Way());
  }

  lemma UnderWay(r: SoundRobot, here: Node, there: Node, way: Edge) returns (r': SoundRobot)
    requires Standing(r, here, there, way) && r.driver.Stopped? && way.released && way.seqId == 3 && way.actions == []
    ensures r' == Next(r, SettingOff(true)) && Standing(r', here, there, way)
    ensures r'.driver == Driving(RxEdge(0, way), there)
  {
    SetOffKeeps(r, true);
    r' := SetOff(r, true);
  }

  // ------------------------------------------------------------- the update

  lemma SecondIsAccepted(r: SoundRobot, here: Node, there: Node, way: Edge, o: Order, s: Surroundings)
    requires Standing(r, here, there, way) && there.seqId == 4 && there.released
    requires Chain(o, s.carryIds, 1) && |o.nodes| == 1 && o.orderId == "o" && o.updateId == 1
    requires o.nodes[0].id == there.id && o.nodes[0].seqId == 4 && Admissible(o, SituationOf(Idle, s))
    ensures Decide(r, o, s).Accept? && Decide(r, o, s).isUpdate
  {
    assert IsDecisionPoint(r.nodes, 4);
    forall k | IsDecisionPoint(r.nodes, k) ensures k == 4 { assert 4 in r.nodes; }
    assert DecisionPoint(r.nodes) == Some((there.id, 4));
    AcceptanceIsExact(o, SituationOf(r, s));
  }

  lemma UnknownOne(a: Action, known: set<string>)
    requires a.id !in known
    ensures Unknown([a], known) == [a]
  {
    assert [a][..0] == [];
  }

  /** The one action of the update is new on its node. */
  lemma ActionIsNew(r: SoundRobot, here: Node, there: Node, way: Edge, o: Order, a: Action)
    requires Standing(r, here, there, way) && there.actions == []
    requires |o.nodes| == 1 && o.nodes[0].seqId == 4 && o.nodes[0].actions == [a]
    ensures StitchActions(r, o) == [a]
  {
    UnknownOne(a, set b | b in there.actions :: b.id);
  }

  lemma NewIsAdded(r: SoundRobot, o: Order, a: Action)
    requires r.runs == map[] && r.engine.table == [] && |o.nodes| >= 1 && o.nodes[0].seqId == 4
    requires StitchActions(r, o) == [a]
    ensures Added(r, o, 0)
  {
    OneIsRegistered(PrunedLedger(r, 4), a);
  }

  lemma OneIsRegistered(l: Ledger, a: Action)
    requires a.id !in l.runs
    ensures |RegisterAll(l, Items([a], OnNode, 4)).table| == |l.table| + 1
  {
    var items := Items([a], OnNode, 4);
    assert items == [Item(a, OnNode, 4)] && items[..0] == [];
    assert RegisterAll(l, items) == Register(l, Item(a, OnNode, 4));
  }

  lemma ActionIsAdded(r: SoundRobot, o: Order, a: Action)
    requires |o.nodes| == 1 && o.nodes[0].actions == [a] && Added(r, o, 0)
    ensures AddedId(r, o, 0) == a.id
  {
    AddedIsNamed(r, o, 0);
  }

  lemma OneNodeReplaced(nodes: map<int, Node>, sent: seq<Node>, here: Node)
    requires |sent| == 1 && sent[0].seqId == 4 && forall k | k in nodes && k != 4 :: nodes[k] == here
    ensures forall k | k in StitchNodes(nodes, sent) && k != 4 :: StitchNodes(nodes, sent)[k] == here
  {
    assert sent[..0] == [];
    assert IndexNodes(sent).Keys == {4};
  }

  lemma NoEdgeReplaced(edges: map<int, RxEdge>, sent: seq<Edge>, way: Edge, tag: nat)
    requires sent == [] && forall k | k in edges :: edges[k].edge == way
    ensures forall k | k in StitchEdges(edges, sent, 4, tag) :: StitchEdges(edges, sent, 4, tag)[k].edge == way
  {
    assert IndexEdges(sent, tag) == map[];
  }

  lemma NobodyElseNames(r: Robot, r': Robot, here: Node, way: Edge, o: Order, id: string)
    requires |o.nodes| == 1 && o.edges == [] && o.nodes[0].seqId == 4 && here.actions == [] && way.actions == []
    requires forall k | k in r.nodes && k != 4 :: r.nodes[k] == here
    requires forall k | k in r.edges :: r.edges[k].edge == way
    requires r'.nodes == StitchNodes(r.nodes, o.nodes) && r'.edges == StitchEdges(r.edges, o.edges, 4, r.accepted)
    ensures NamedOnlyAt(r', id, 4)
  {
    OneNodeReplaced(r.nodes, o.nodes, here);
    NoEdgeReplaced(r.edges, o.edges, way, r.accepted);
  }

  lemma ActionIsNamedOnce(r: SoundRobot, here: Node, there: Node, way: Edge, o: Order, s: Surroundings, id: string)
    requires Standing(r, here, there, way) && here.actions == [] && way.actions == []
    requires |o.nodes| == 1 && o.edges == [] && o.nodes[0].seqId == 4
    requires Decide(r, o, s).Accept? && Decide(r, o, s).isUpdate
    ensures NamedOnlyAt(OnOrder(r, o, s), id, 4)
  {
    UpdateGraph(r, o, s);
    NobodyElseNames(r, OnOrder(r, o, s), here, way, o, id);
  }

  lemma AfterTwo(r: SoundRobot, a: Step, b: Step, r': SoundRobot, r'': SoundRobot)
    requires r' == Next(r, a) && r'' == Next(r', b)
    ensures After(r, [a, b]) == r''
  {
    assert [a, b][..1] == [a] && [a][..0] == [];
    assert After(r, [a]) == r';
  }

  // --------------------------------------------------------------- the run

  /** What the run has come to when the update arrives. */
  ghost predicate Overtaken(r: SoundRobot, o: Order, s: Surroundings, k: nat) {
    && Current(r) && Captured(r) && |o.nodes| >= 1 && r.driver.target.seqId == o.nodes[0].seqId
    && Decide(r, o, s).Accept? && Decide(r, o, s).isUpdate && Added(r, o, k)
    && NamedOnlyAt(OnOrder(r, o, s), AddedId(r, o, k), o.nodes[0].seqId)
  }

  lemma OnItsWay(r: SoundRobot, here: Node, there: Node, way: Edge)
    requires Standing(r, here, there, way) && r.driver == Driving(RxEdge(0, way), there)
    requires way.seqId == 3 && there.seqId == 4
    ensures Current(r) && Captured(r)
  {
  }

  lemma SecondAdds(r: SoundRobot, here: Node, there: Node, way: Edge, o: Order, s: Surroundings, a: Action)
    requires Standing(r, here, there, way) && here.actions == there.actions == [] && way.actions == []
    requires |o.nodes| == 1 && o.edges == [] && o.nodes[0].seqId == 4 && o.nodes[0].actions == [a]
    requires Decide(r, o, s).Accept? && Decide(r, o, s).isUpdate
    ensures Added(r, o, 0) && AddedId(r, o, 0) == a.id && NamedOnlyAt(OnOrder(r, o, s), a.id, 4)
  {
    ActionIsNew(r, here, there, way, o, a);
    NewIsAdded(r, o, a);
    ActionIsAdded(r, o, a);
    ActionIsNamedOnce(r, here, there, way, o, s, a.id);
  }

  lemma SecondOvertakes(r: SoundRobot, o: Order, s: Surroundings)
    requires Standing(r, Here(), There([]), Way()) && r.driver == Driving(RxEdge(0, Way()), There([]))
    requires o == Second() && s == Around()
    ensures Overtaken(r, o, s, 0)
  {
    OnItsWay(r, Here(), There([]), Way());
    ChainFrom(o, s.carryIds, 1, 4);
    SecondIsAccepted(r, Here(), There([]), Way(), o, s);
    SecondAdds(r, Here(), There([]), Way(), o, s, BEEP);
  }

  /** Such a robot strands the action, whatever follows short of a cancel, a mode switch or a newer
      message that names it. */
  lemma OvertakenStrands(r: SoundRobot, o: Order, s: Surroundings, k: nat, steps: seq<Step>)
    requires Overtaken(r, o, s, k) && forall i | 0 <= i < |steps| :: Silent(steps[i], AddedId(r, o, k), o)
    ensures RobotOk(OnOrder(r, o, s))
    ensures var there := After(OnOrder(r, o, s), steps);
            k < |there.engine.table| && !HandedOver(there.engine, k) && !IsIdle(there)
  {
    CapturedOverlooks(r, o, k);
    OverlookedStaysStranded(r, o, s, k, steps);
  }

  /** From power-on: the robot takes up an order, sets off, and is sent an update of the node ahead. */
  lemma OvertakenRun(steps: seq<Step>)
    requires steps == [Delivered(First(), Around()), SettingOff(true)]
    ensures Overtaken(After(Idle, steps), Second(), Around(), 0)
  {
    var standing := FirstTakenUp(Idle, steps[0]);
    var driving := UnderWay(standing, Here(), There([]), Way());
    SecondOvertakes(driving, Second(), Around());
    AfterTwo(Idle, steps[0], steps[1], standing, driving);
    assert steps == [steps[0], steps[1]];
  }
}
