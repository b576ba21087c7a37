/** A run from power-on on which the robot sets off beside a HARD action at work: two elements of an
    order name the action, an update takes back the second one, and with it the robot forgets the
    action it is executing; the next order then finds it idle. */
module BesideRun {
  import opened Vda5050
  import opened OrderAcceptance
  import opened Actions
  import opened RobotModel
  import opened RobotInvariants
  import opened OrderChain
  import opened OrderActions
  import opened OrderHandover
  import opened SettingOff
  import opened StepEffects
  import StrandingRun

  const LIFT := Action("x", "lift", Hard)

  /** Two nodes and the edge between them, the second one and the edge released or not. */
  function Pair(orderId: string, here: seq<Action>, there: seq<Action>, released: bool): Order {
    Order(orderId, 0, [Node("n0", 2, true, None, here), Node("n1", 4, released, None, there)],
          [Edge("e0", 3, released, None, None, [])])
  }

  function Around(): Surroundings { Surroundings(false, false, {}, {"lift"}, {}, true, false) }

  /** The same action on the first node and on one beyond the base. */
  function First(): Order { Pair("o", [LIFT], [LIFT], false) }

  /** The route now ends on the first node. */
  function Second(): Order { Order("o", 1, [Node("n0", 2, true, None, [LIFT])], []) }

  /** Another order, from there to the next node. */
  function Third(): Order { Pair("p", [], [], true) }

  // --------------------------------------------------------------- messages

  lemma PlainlyAdmitted(o: Order, s: Surroundings, base: int)
    requires Chain(o, s.carryIds, base) && s.acceptsOrders
    requires forall i, k | 0 <= i < |o.nodes| && 0 <= k < |o.nodes[i].actions| ::
               o.nodes[i].actions[k].kind in s.nodeActions
    requires forall i | 0 <= i < |o.edges| :: o.edges[i].actions == []
    requires forall i | 0 <= i < |o.nodes| :: o.nodes[i].position == None
    ensures Admits(s, o)
  {
  }

  lemma PairIsChain(o: Order, a: Node, b: Node, e: Edge) returns (base: int)
    requires o.nodes == [a, b] && o.edges == [e] && a.seqId == 2 && b.seqId == 4 && e.seqId == 3
    requires a.released && b.released == e.released
    ensures Chain(o, false, base)
  {
    if b.released {
      base := 2;
      StrandingRun.ChainFrom(o, false, 2, 2);
    } else {
      base := 1;
      StrandingRun.ChainFrom(o, false, 1, 2);
    }
  }

  lemma PairAdmitted(o: Order, s: Surroundings, a: Node, b: Node, e: Edge)
    requires o.nodes == [a, b] && o.edges == [e] && a.seqId == 2 && b.seqId == 4 && e.seqId == 3
    requires a.released && b.released == e.released && a.position == b.position == None && s == Around()
    requires (a.actions == [] || a.actions == [LIFT]) && (b.actions == [] || b.actions == [LIFT]) && e.actions == []
    ensures Fits(o) && Admits(s, o)
  {
    var base := PairIsChain(o, a, b, e);
    forall i, k | 0 <= i < |o.nodes| && 0 <= k < |o.nodes[i].actions|
      ensures o.nodes[i].actions[k].kind in s.nodeActions
    {
      assert o.nodes[i] == a || o.nodes[i] == b;
    }
    PlainlyAdmitted(o, s, base);
  }

  lemma SecondAdmitted(o: Order, s: Surroundings)
    requires |o.nodes| == 1 && o.edges == [] && o.nodes[0].seqId == 2 && o.nodes[0].released && s == Around()
    requires o.nodes[0].actions == [LIFT] && o.nodes[0].position == None
    ensures Fits(o) && Admits(s, o)
  {
    StrandingRun.ChainFrom(o, false, 1, 2);
    PlainlyAdmitted(o, s, 1);
  }

  lemma IndexedPair(a: Node, b: Node, e: Edge, tag: nat)
    requires a.seqId == 2 && b.seqId == 4 && e.seqId == 3
    ensures IndexNodes([a, b]) == map[2 := a, 4 := b] && IndexEdges([e], tag) == map[3 := RxEdge(tag, e)]
  {
    assert [a, b][..1] == [a] && [a][..0] == [] && [e][..0] == [];
    assert IndexNodes([a]) == map[2 := a];
  }

  // -------------------------------------------------------- the first message

  function Lift(status: Status, task: Task): Run { Run(LIFT, OnNode, 2, status, task, false) }

  /** The robot holds the first order, its action registered and the engine as given. */
  ghost predicate Holds(r: Robot, e: EngineState) {
    && r.hasOrder && r.orderId == "o" && r.updateId == 0 && !r.cancelled && r.driver.Stopped?
    && r.lastNodeId == "n0" && r.lastSeq == 2
    && r.nodes == map[2 := First().nodes[0], 4 := First().nodes[1]] && r.edges == map[3 := RxEdge(0, First().edges[0])]
    && r.runs == map["x" := 0] && r.actionStates == [0] && r.engine == e
  }

  lemma TwoItems(a: Node, b: Node, e: Edge)
    requires a.actions == b.actions == [LIFT] && a.seqId == 2 && b.seqId == 4 && e.actions == []
    ensures NodeItems([a, b]) + EdgeItems([e]) == [Item(LIFT, OnNode, 2), Item(LIFT, OnNode, 4)]
  {
    assert [a, b][..1] == [a] && [a][..0] == [] && [e][..0] == [];
    assert Items([LIFT], OnNode, 2) == [Item(LIFT, OnNode, 2)] && Items([LIFT], OnNode, 4) == [Item(LIFT, OnNode, 4)];
    assert NodeItems([a]) == [Item(LIFT, OnNode, 2)];
  }

  lemma ListedOnce(a: Item, b: Item)
    requires a == Item(LIFT, OnNode, 2) && b == Item(LIFT, OnNode, 4)
    ensures RegisterAll(Ledger([], map[], []), [a, b]) == Ledger([Lift(Waiting, NoTask)], map["x" := 0], [0])
  {
    assert [a, b][..1] == [a] && [a][..0] == [];
    assert RegisterAll(Ledger([], map[], []), [a]) == Ledger([Lift(Waiting, NoTask)], map["x" := 0], [0]);
  }

  lemma PendingOnce(run: Run)
    requires run == Lift(Waiting, NoTask)
    ensures PendingRuns([run], map["x" := 0], [LIFT]) == [0]
  {
    assert [LIFT][..0] == [];
  }

  lemma FirstAccepted(o: Order, s: Surroundings)
    requires |o.nodes| >= 1 && Fits(o) && Admits(s, o) && o.updateId == 0 && o.nodes[0].position == None
    ensures Accepts(Idle, Delivered(o, s))
  {
    assert !HasWork(Idle) && StartsHere(Idle, s, o);
    DecisionIsExact(Idle, o, s);
  }

  /** A robot that never had an order, nor any action. */
  ghost predicate Untouched(r: SoundRobot) {
    !r.hasOrder && r.runs == map[] && r.engine == EngineState([], [], [], [])
  }

  lemma FirstEngine(r: SoundRobot, o: Order, s: Surroundings, r': SoundRobot)
    requires o == First() && Untouched(r) && Decide(r, o, s).Accept? && r' == OnOrder(r, o, s)
    ensures r'.runs == map["x" := 0] && r'.actionStates == [0]
    ensures r'.engine == EngineState([Lift(Waiting, NoTask)], [0], [], [AtTop])
  {
    FirstLedger(r, o);
    PendingOnce(Lift(Waiting, NoTask));
    LedgerOfFresh(r, o, s);
    EngineOfFresh(r, o, s);
  }

  lemma FirstLedger(r: SoundRobot, o: Order)
    requires o == First() && Untouched(r)
    ensures ResetForOrder(r.engine, r.runs.Values) == EngineState([], [], [], [])
    ensures FreshLedger(r, o) == Ledger([Lift(Waiting, NoTask)], map["x" := 0], [0])
  {
    TwoItems(o.nodes[0], o.nodes[1], o.edges[0]);
    ListedOnce(Item(LIFT, OnNode, 2), Item(LIFT, OnNode, 4));
    assert o.nodes == [o.nodes[0], o.nodes[1]] && o.edges == [o.edges[0]];
    assert InstantRuns(r) == map[] && ResetForOrder(r.engine, r.runs.Values) == EngineState([], [], [], []);
  }

  lemma FirstGraph(r: SoundRobot, o: Order, s: Surroundings, r': SoundRobot)
    requires o == First() && !r.hasOrder && Decide(r, o, s).Accept? && r' == OnOrder(r, o, s)
    ensures r'.nodes == map[2 := o.nodes[0], 4 := o.nodes[1]] && r'.edges == map[3 := RxEdge(r.accepted, o.edges[0])]
  {
    FreshOutcome(r, o, s);
    IndexedPair(o.nodes[0], o.nodes[1], o.edges[0], r.accepted);
  }

  lemma FirstFields(r: SoundRobot, step: Step, r': SoundRobot)
    requires Accepts(r, step) && !r.hasOrder && r' == Next(r, step)
    ensures AsAccepted(r, step.order, true, r')
  {
    DeliveredFields(r, step, r');
  }

  lemma FirstTakenUp(r: SoundRobot, o: Order, s: Surroundings, r': SoundRobot)
    requires o == First() && Untouched(r) && r.driver.Stopped? && r.accepted == 0
    requires Accepts(r, Delivered(o, s)) && r' == Next(r, Delivered(o, s))
    ensures Holds(r', EngineState([Lift(Waiting, NoTask)], [0], [], [AtTop]))
  {
    FirstEngine(r, o, s, r');
    FirstGraph(r, o, s, r');
    FirstFields(r, Delivered(o, s), r');
  }

  lemma FirstIsAccepted(o: Order, s: Surroundings)
    requires o == First() && s == Around()
    ensures Accepts(Idle, Delivered(o, s))
  {
    PairAdmitted(o, s, o.nodes[0], o.nodes[1], o.edges[0]);
    FirstAccepted(o, s);
  }

  // -------------------------------------------------------------- the action

  lemma EngineMoves(r: SoundRobot, step: Step, e: EngineState, r': SoundRobot)
    requires Holds(r, e) && InEngine(step) && r' == Next(r, step)
    ensures Holds(r', r'.engine)
  {
    EngineKeepsOrder(r, step);
    if !step.RunnerMoves? && |e.table| > 0 { HandledOnly(r, step, 0); }
  }

  lemma Popped(r: SoundRobot, r': SoundRobot)
    requires Holds(r, EngineState([Lift(Waiting, NoTask)], [0], [], [AtTop])) && r' == Next(r, RunnerMoves(0))
    ensures Holds(r', EngineState([Lift(Waiting, NoTask)], [], [], [Checking(0, [])]))
  {
    EngineMoves(r, RunnerMoves(0), r.engine, r');
  }

  lemma Started(r: SoundRobot, r': SoundRobot)
    requires Holds(r, EngineState([Lift(Waiting, NoTask)], [], [], [Checking(0, [])])) && r' == Next(r, RunnerMoves(0))
    ensures Holds(r', EngineState([Lift(Waiting, Created)], [], [0], [Awaiting(0)]))
  {
    EngineMoves(r, RunnerMoves(0), r.engine, r');
  }

  lemma AtWork(r: SoundRobot, r': SoundRobot)
    requires Holds(r, EngineState([Lift(Waiting, Created)], [], [0], [Awaiting(0)]))
    requires r' == Next(r, HandlerReports(0, Running))
    ensures Holds(r', EngineState([Lift(Running, Live)], [], [0], [Awaiting(0)]))
  {
    EngineMoves(r, HandlerReports(0, Running), r.engine, r');
    HandledOnly(r, HandlerReports(0, Running), 0);
    assert r'.engine.table == [Lift(Running, Live)];
  }

  // ---------------------------------------------------------------- forgotten

  /** Nothing is registered or listed, nothing lies ahead, and the action is at work. */
  ghost predicate Unaware(r: Robot, active: seq<nat>) {
    && r.runs == map[] && r.actionStates == [] && r.nodeStates == [] && r.edgeStates == []
    && r.hasOrder && r.orderId == "o" && r.driver.Stopped? && r.lastNodeId == "n0"
    && r.engine == EngineState([Lift(Running, Live)], [], active, [Awaiting(0)])
  }

  lemma EndsAtFirst(r: Robot, o: Order, e: EngineState)
    requires Holds(r, e) && |o.nodes| >= 1 && o.nodes[0].seqId == 2 && o.nodes[0].id == "n0"
    ensures StartsAtBaseEnd(r, o)
  {
    assert r.nodes[2].released && !r.nodes[4].released;
  }

  lemma SecondAccepted(r: SoundRobot, o: Order, s: Surroundings)
    requires |o.nodes| >= 1 && Fits(o) && Admits(s, o) && StartsAtBaseEnd(r, o)
    requires r.hasOrder && r.orderId == o.orderId && r.updateId < o.updateId && !r.cancelled
    ensures Accepts(r, Delivered(o, s)) && !Replaces(r, Delivered(o, s))
  {
    DecisionIsExact(r, o, s);
  }

  lemma ActionOnHorizon(r: Robot, e: EngineState)
    requires Holds(r, e)
    ensures HorizonIds(r, 2) == {"x"}
  {
    assert r.nodes[4].actions == [LIFT] && LIFT in r.nodes[4].actions;
    forall id | id in HorizonIds(r, 2) ensures id == "x" {}
  }

  lemma KnownThere(r: Robot, o: Order, e: EngineState)
    requires Holds(r, e) && o == Second()
    ensures StitchActions(r, o) == []
  {
    var known := set a | a in r.nodes[2].actions :: a.id;
    assert LIFT in r.nodes[2].actions && LIFT.id in known;
    assert o.nodes[0].actions == [LIFT] && [LIFT][..0] == [];
    assert Unknown([LIFT], known) == [];
  }

  lemma NothingPruned(r: SoundRobot, e: EngineState)
    requires Holds(r, e) && |e.table| == 1 && e.table[0].action == LIFT
    ensures PrunedLedger(r, 2) == Ledger(e.table, map[], [])
  {
    ActionOnHorizon(r, e);
    assert [0][..0] == [];
    assert KeepListed(e.table, [0], {"x"}) == [];
    assert r.runs - {"x"} == map[];
  }

  lemma LedgerForgets(r: SoundRobot, o: Order, e: EngineState)
    requires Holds(r, e) && o == Second() && |e.table| == 1 && e.table[0].action == LIFT && e.queue == []
    ensures UpdateLedger(r, o) == Ledger(e.table, map[], []) && UpdateEngine(r, o) == e
  {
    NothingPruned(r, e);
    KnownThere(r, o, e);
    assert Items([], OnNode, 2) == [] && o.nodes[1..] == [];
    assert StitchLedger(r, o) == Ledger(e.table, map[], []);
    assert NodeItems([]) + EdgeItems([]) == [];
    assert Range(1, 1) == [] && [] + [] == e.queue;
  }

  lemma OnlyFirstLeft(r: SoundRobot, o: Order, s: Surroundings, r': SoundRobot, e: EngineState)
    requires Holds(r, e) && o == Second() && Decide(r, o, s).Accept? && r' == OnOrder(r, o, s)
    ensures r'.nodeStates == [] && r'.edgeStates == []
  {
    UpdateOutcome(r, o, s);
    OneStitched(r.nodes, o.nodes[0]);
    assert o.nodes == [o.nodes[0]];
    OneNodeLaid(r');
  }

  lemma OneStitched(nodes: map<int, Node>, n: Node)
    requires nodes.Keys == {2, 4} && n.seqId == 2
    ensures StitchNodes(nodes, [n]).Keys == {2}
  {
    assert [n][..0] == [];
    assert IndexNodes([n]) == map[2 := n];
  }

  lemma OneNodeLaid(r: SoundRobot)
    requires r.nodes.Keys == {2}
    ensures r.nodeStates == [] && r.edgeStates == []
  {
    var lo, at, base, n :| Laid(r, lo, at, base, n);
    assert NodeNumber(lo, 0) in NodeKeys(lo, n) && NodeNumber(lo, n - 1) in NodeKeys(lo, n);
  }

  /** The update takes back the element beyond, and the action with it. */
  lemma Forgotten(r: SoundRobot, step: Step, r': SoundRobot)
    requires Holds(r, EngineState([Lift(Running, Live)], [], [0], [Awaiting(0)]))
    requires step == Delivered(Second(), Around()) && r' == Next(r, step)
    ensures Unaware(r', [0])
  {
    SecondAdmitted(step.order, step.around);
    EndsAtFirst(r, step.order, r.engine);
    SecondAccepted(r, step.order, step.around);
    DeliveredFields(r, step, r');
    LedgerForgets(r, step.order, r.engine);
    LedgerOfUpdate(r, step.order, step.around);
    FieldsOfUpdate(r, step.order, step.around);
    OnlyFirstLeft(r, step.order, step.around, r', r.engine);
  }

  // ----------------------------------------------------------- the next order

  lemma ThirdAccepted(r: SoundRobot, o: Order, s: Surroundings)
    requires o == Third() && s == Around() && Unaware(r, [0])
    ensures Accepts(r, Delivered(o, s)) && Replaces(r, Delivered(o, s))
  {
    PairAdmitted(o, s, o.nodes[0], o.nodes[1], o.edges[0]);
    assert !HasWork(r) && StartsHere(r, s, o);
    DecisionIsExact(r, o, s);
  }

  lemma NoItems(a: Node, b: Node, e: Edge)
    requires a.actions == b.actions == [] && e.actions == []
    ensures NodeItems([a, b]) + EdgeItems([e]) == []
  {
    assert [a, b][..1] == [a] && [a][..0] == [] && [e][..0] == [];
    assert Items([], OnNode, a.seqId) == [] && Items([], OnNode, b.seqId) == [] && Items([], OnEdge, e.seqId) == [];
    assert NodeItems([a]) == [];
  }

  lemma NothingListed(r: SoundRobot, o: Order)
    requires o == Third() && r.runs == map[]
    ensures FreshLedger(r, o) == Ledger(r.engine.table, map[], [])
  {
    NoItems(o.nodes[0], o.nodes[1], o.edges[0]);
    assert InstantRuns(r) == map[] && ResetForOrder(r.engine, r.runs.Values).table == r.engine.table;
  }

  lemma ThirdEngine(r: SoundRobot, o: Order, s: Surroundings, r': SoundRobot)
    requires o == Third() && Unaware(r, [0]) && Accepts(r, Delivered(o, s)) && r' == OnOrder(r, o, s)
    ensures r'.engine == EngineState([Lift(Running, Live)], [], [], [Awaiting(0)])
  {
    NothingListed(r, o);
    EngineOfFresh(r, o, s);
    assert Instants(r.engine.table, [0]) == [] by { assert [0][1..] == []; }
    assert PendingRuns(r.engine.table, map[], []) == [];
  }

  lemma ThirdGraph(r: SoundRobot, o: Order, s: Surroundings, r': SoundRobot)
    requires o == Third() && r.orderId != o.orderId && Decide(r, o, s).Accept? && r' == OnOrder(r, o, s)
    ensures 3 in r'.edges && r'.edges[3].edge.released
  {
    FreshOutcome(r, o, s);
    IndexedPair(o.nodes[0], o.nodes[1], o.edges[0], r.accepted);
  }

  lemma ThirdFields(r: SoundRobot, step: Step, r': SoundRobot)
    requires Accepts(r, step) && Replaces(r, step) && r' == Next(r, step)
    ensures AsAccepted(r, step.order, true, r')
  {
    DeliveredFields(r, step, r');
  }

  /** The next order drops the action from the active list, and leaves its task alone. */
  lemma Replaced(r: SoundRobot, step: Step, r': SoundRobot)
    requires Unaware(r, [0]) && step == Delivered(Third(), Around()) && r' == Next(r, step)
    ensures r'.engine == EngineState([Lift(Running, Live)], [], [], [Awaiting(0)]) && r'.driver.Stopped?
    ensures r'.lastSeq == 2 && 3 in r'.edges && r'.edges[3].edge.released
  {
    ThirdAccepted(r, step.order, step.around);
    ThirdEngine(r, step.order, step.around, r');
    ThirdGraph(r, step.order, step.around, r');
    ThirdFields(r, step, r');
  }

  // ----------------------------------------------------------------- the run

  /** `steps` leads from power-on to `there`. */
  ghost predicate Leads(steps: seq<Step>, there: SoundRobot) { After(Idle, steps) == there }

  lemma OneMore(steps: seq<Step>, before: SoundRobot, last: Step) returns (after: SoundRobot)
    requires Leads(steps, before)
    ensures Leads(steps + [last], after) && after == Next(before, last)
  {
    var more := steps + [last];
    assert more[..|more| - 1] == steps && more[|more| - 1] == last;
    after := After(Idle, more);
  }

  lemma PoppedRun() returns (steps: seq<Step>, r: SoundRobot)
    ensures steps == [] + [Delivered(First(), Around())] + [RunnerMoves(0)]
    ensures Leads(steps, r) && Holds(r, EngineState([Lift(Waiting, NoTask)], [], [], [Checking(0, [])]))
  {
    steps := [] + [Delivered(First(), Around())];
    var first := OneMore([], Idle, Delivered(First(), Around()));
    FirstIsAccepted(First(), Around());
    FirstTakenUp(Idle, First(), Around(), first);
    r := OneMore(steps, first, RunnerMoves(0));
    Popped(first, r);
    steps := steps + [RunnerMoves(0)];
  }

  lemma WorkingRun() returns (steps: seq<Step>, r: SoundRobot)
    ensures steps == [] + [Delivered(First(), Around())] + [RunnerMoves(0)] + [RunnerMoves(0)]
                     + [HandlerReports(0, Running)]
    ensures Leads(steps, r) && Holds(r, EngineState([Lift(Running, Live)], [], [0], [Awaiting(0)]))
  {
    var popped: SoundRobot;
    steps, popped := PoppedRun();
    var started := OneMore(steps, popped, RunnerMoves(0));
    Started(popped, started);
    steps := steps + [RunnerMoves(0)];
    r := OneMore(steps, started, HandlerReports(0, Running));
    AtWork(started, r);
    steps := steps + [HandlerReports(0, Running)];
  }

  /** Order, pop, start, report, update, next order: the action is at work, HARD, neither finished nor
      failed, and the robot sets off. */
  lemma SetsOffBesideHard() returns (steps: seq<Step>, r: SoundRobot)
    ensures steps == [] + [Delivered(First(), Around())] + [RunnerMoves(0)] + [RunnerMoves(0)]
                     + [HandlerReports(0, Running)] + [Delivered(Second(), Around())] + [Delivered(Third(), Around())]
    ensures After(Idle, steps) == r && |r.engine.table| == 1 && r.engine.table[0].action.blocking == Hard
    ensures r.engine.table[0].task == Live && r.engine.table[0].status == Running
    ensures r.driver.Stopped? && Next(r, SettingOff(true)).driver.Driving?
  {
    var working: SoundRobot;
    steps, working := WorkingRun();
    var unaware := OneMore(steps, working, Delivered(Second(), Around()));
    Forgotten(working, Delivered(Second(), Around()), unaware);
    steps := steps + [Delivered(Second(), Around())];
    r := OneMore(steps, unaware, Delivered(Third(), Around()));
    Replaced(unaware, Delivered(Third(), Around()), r);
    steps := steps + [Delivered(Third(), Around())];
    NothingInTheWay(r);
  }

  lemma NothingInTheWay(r: SoundRobot)
    requires r.engine.queue == [] && r.engine.active == [] && r.driver.Stopped?
    requires r.lastSeq == 2 && 3 in r.edges && r.edges[3].edge.released
    ensures Next(r, SettingOff(true)).driver.Driving?
  {
    SetsOffExactly(r, SettingOff(true));
  }
}
