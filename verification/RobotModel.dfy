/** robot.py: the order state of the virtual robot and what each atomic step does to it. */
module RobotModel {
  import opened Vda5050
  import opened OrderAcceptance
  import opened Actions

  const MAX_ORDER_NODES := 1000
  const MAX_ORDER_EDGES := 999

  /** An edge object as received: `tag` names the accepted message it came with, so that two
      edges are the same object exactly when number and tag agree. */
  datatype RxEdge = RxEdge(tag: nat, edge: Edge)

  datatype ElementState = ElementState(id: string, seqId: int, released: bool)

  /** The driver coroutine: at its loop head, or inside `_traverse` with the edge and the target
      node it captured when it set off. */
  datatype Driver = Stopped | Driving(edge: RxEdge, target: Node)

  datatype Robot = Robot(
    orderId: string, updateId: int, hasOrder: bool, cancelled: bool,
    lastNodeId: string, lastSeq: int,
    nodes: map<int, Node>, edges: map<int, RxEdge>,
    nodeStates: seq<ElementState>, edgeStates: seq<ElementState>,
    runs: map<string, nat>, actionStates: seq<nat>,
    lastOrder: Option<Order>, newBaseRequest: bool, accepted: nat, driver: Driver,
    engine: EngineState)

  /** What the decision depends on besides the order state. */
  datatype Surroundings = Surroundings(
    localized: bool, startInRange: bool, knownMaps: set<string>,
    nodeActions: set<string>, edgeActions: set<string>, acceptsOrders: bool, carryIds: bool)

  // ------------------------------------------------------------- lists

  function NodeState(n: Node): ElementState { ElementState(n.id, n.seqId, n.released) }

  function EdgeState(e: Edge): ElementState { ElementState(e.id, e.seqId, e.released) }

  function NodeStates(nodes: seq<Node>): seq<ElementState> {
    seq(|nodes|, i requires 0 <= i < |nodes| => NodeState(nodes[i]))
  }

  function EdgeStates(edges: seq<Edge>): seq<ElementState> {
    seq(|edges|, i requires 0 <= i < |edges| => EdgeState(edges[i]))
  }

  function UpTo(states: seq<ElementState>, last: int): seq<ElementState> {
    if states == [] then []
    else UpTo(states[..|states| - 1], last)
         + (if states[|states| - 1].seqId <= last then [states[|states| - 1]] else [])
  }

  function Without(states: seq<ElementState>, number: int): seq<ElementState> {
    if states == [] then []
    else Without(states[..|states| - 1], number)
         + (if states[|states| - 1].seqId != number then [states[|states| - 1]] else [])
  }

  /** A dictionary by sequenceId; of two equal keys the later element wins. */
  function IndexNodes(nodes: seq<Node>): map<int, Node> {
    if nodes == [] then map[]
    else IndexNodes(nodes[..|nodes| - 1])[nodes[|nodes| - 1].seqId := nodes[|nodes| - 1]]
  }

  function IndexEdges(edges: seq<Edge>, tag: nat): map<int, RxEdge> {
    if edges == [] then map[]
    else IndexEdges(edges[..|edges| - 1], tag)[edges[|edges| - 1].seqId := RxEdge(tag, edges[|edges| - 1])]
  }

  // ------------------------------------------------------- action states

  datatype Item = Item(action: Action, origin: Origin, element: int)

  function Items(actions: seq<Action>, origin: Origin, element: int): seq<Item> {
    seq(|actions|, i requires 0 <= i < |actions| => Item(actions[i], origin, element))
  }

  function NodeItems(nodes: seq<Node>): seq<Item> {
    if nodes == [] then []
    else NodeItems(nodes[..|nodes| - 1]) + Items(nodes[|nodes| - 1].actions, OnNode, nodes[|nodes| - 1].seqId)
  }

  function EdgeItems(edges: seq<Edge>): seq<Item> {
    if edges == [] then []
    else EdgeItems(edges[..|edges| - 1]) + Items(edges[|edges| - 1].actions, OnEdge, edges[|edges| - 1].seqId)
  }

  /** Runs, the registry by actionId, and the runs listed in the state message. */
  datatype Ledger = Ledger(table: seq<Run>, runs: map<string, nat>, listed: seq<nat>)

  /** An id that is registered already is not registered again. */
  function Register(l: Ledger, item: Item): Ledger {
    if item.action.id in l.runs then l
    else Ledger(l.table + [FreshRun(item.action, item.origin, item.element)],
                l.runs[item.action.id := |l.table|],
                l.listed + [|l.table|])
  }

  function RegisterAll(l: Ledger, items: seq<Item>): Ledger {
    if items == [] then l else Register(RegisterAll(l, items[..|items| - 1]), items[|items| - 1])
  }

  ghost predicate RefsOk(r: Robot) {
    && Valid(r.engine)
    && (forall id | id in r.runs :: r.runs[id] < |r.engine.table|)
    && (forall i | 0 <= i < |r.actionStates| :: r.actionStates[i] < |r.engine.table|)
  }

  /** The registered runs of an element that still wait. */
  function PendingRuns(table: seq<Run>, runs: map<string, nat>, actions: seq<Action>): (p: seq<nat>)
    requires forall id | id in runs :: runs[id] < |table|
    ensures forall i | 0 <= i < |p| :: p[i] < |table| && table[p[i]].status == Waiting && p[i] in runs.Values
  {
    if actions == [] then []
    else
      var a := actions[|actions| - 1];
      PendingRuns(table, runs, actions[..|actions| - 1])
      + (if a.id in runs && table[runs[a.id]].status == Waiting then [runs[a.id]] else [])
  }

  function EnqueueElement(r: Robot, actions: seq<Action>): Robot
    requires RefsOk(r)
  {
    r.(engine := Enqueue(r.engine, PendingRuns(r.engine.table, r.runs, actions)))
  }

  function KeepListed(table: seq<Run>, listed: seq<nat>, removed: set<string>): (k: seq<nat>)
    requires forall i | 0 <= i < |listed| :: listed[i] < |table|
    ensures forall i | 0 <= i < |k| :: k[i] in listed && table[k[i]].action.id !in removed
  {
    if listed == [] then []
    else KeepListed(table, listed[..|listed| - 1], removed)
         + (if table[listed[|listed| - 1]].action.id !in removed then [listed[|listed| - 1]] else [])
  }

  // ----------------------------------------------------------- situation

  predicate IsIdle(r: Robot)
    requires RefsOk(r)
  {
    && r.nodeStates == [] && r.edgeStates == []
    && forall i | 0 <= i < |r.actionStates| :: r.engine.table[r.actionStates[i]].Settled()
  }

  ghost predicate IsDecisionPoint(nodes: map<int, Node>, s: int) {
    && s in nodes && nodes[s].released
    && forall k | k in nodes && nodes[k].released :: k <= s
  }

  /** The last released node. */
  ghost function DecisionPoint(nodes: map<int, Node>): Option<(string, int)> {
    if s :| IsDecisionPoint(nodes, s) then Some((nodes[s].id, s)) else None
  }

  ghost function SituationOf(r: Robot, s: Surroundings): Situation
    requires RefsOk(r)
  {
    Situation(r.orderId, r.updateId, r.hasOrder, IsIdle(r), r.cancelled, DecisionPoint(r.nodes),
              r.lastNodeId, s.localized, s.startInRange, s.knownMaps, s.nodeActions, s.edgeActions,
              s.acceptsOrders, s.carryIds)
  }

  // -------------------------------------------------------------- orders

  ghost predicate Numbered(o: Order) {
    && |o.nodes| >= 1
    && |o.edges| == |o.nodes| - 1
    && (forall i | 0 <= i < |o.nodes| :: o.nodes[i].seqId == NodeNumber(o.nodes[0].seqId, i))
    && (forall i | 0 <= i < |o.edges| :: o.edges[i].seqId == EdgeNumber(o.nodes[0].seqId, i))
  }

  function InstantRuns(r: Robot): map<string, nat>
    requires RefsOk(r)
  {
    map id | id in r.runs && r.engine.table[r.runs[id]].origin == Instant :: r.runs[id]
  }

  function FreshLedger(r: Robot, o: Order): Ledger
    requires RefsOk(r)
  {
    RegisterAll(Ledger(ResetForOrder(r.engine, r.runs.Values).table, InstantRuns(r), []),
                NodeItems(o.nodes) + EdgeItems(o.edges))
  }

  /** The state after a fresh order is laid out, before its first actions are enqueued. */
  function LaidOut(r: Robot, o: Order): Robot
    requires RefsOk(r) && |o.nodes| >= 1
  {
    var l := FreshLedger(r, o);
    r.(nodes := IndexNodes(o.nodes), edges := IndexEdges(o.edges, r.accepted),
       nodeStates := NodeStates(o.nodes[1..]), edgeStates := EdgeStates(o.edges),
       runs := l.runs, actionStates := l.listed,
       lastNodeId := o.nodes[0].id, lastSeq := o.nodes[0].seqId,
       engine := ResetForOrder(r.engine, r.runs.Values).(table := l.table))
  }

  /** Action ids of the elements beyond the stitch node, which an update replaces. */
  function HorizonIds(r: Robot, stitch: int): set<string> {
    (set k, a | k in r.nodes && k > stitch && a in r.nodes[k].actions :: a.id)
    + (set k, a | k in r.edges && k > stitch && a in r.edges[k].edge.actions :: a.id)
  }

  function Unknown(actions: seq<Action>, known: set<string>): seq<Action> {
    if actions == [] then []
    else Unknown(actions[..|actions| - 1], known)
         + (if actions[|actions| - 1].id !in known then [actions[|actions| - 1]] else [])
  }

  /** Actions the update adds to the stitch node. */
  function StitchActions(r: Robot, o: Order): seq<Action>
    requires |o.nodes| >= 1
  {
    var stitch := o.nodes[0].seqId;
    Unknown(o.nodes[0].actions, if stitch in r.nodes then set a | a in r.nodes[stitch].actions :: a.id else {})
  }

  /** The ledger once the replaced horizon is forgotten. */
  function PrunedLedger(r: Robot, stitch: int): Ledger
    requires RefsOk(r)
  {
    var removed := HorizonIds(r, stitch);
    Ledger(r.engine.table, r.runs - removed, KeepListed(r.engine.table, r.actionStates, removed))
  }

  function StitchLedger(r: Robot, o: Order): Ledger
    requires RefsOk(r) && |o.nodes| >= 1
  {
    RegisterAll(PrunedLedger(r, o.nodes[0].seqId), Items(StitchActions(r, o), OnNode, o.nodes[0].seqId))
  }

  function UpdateLedger(r: Robot, o: Order): Ledger
    requires RefsOk(r) && |o.nodes| >= 1
  {
    RegisterAll(StitchLedger(r, o), NodeItems(o.nodes[1..]) + EdgeItems(o.edges))
  }

  function Range(from: nat, to: nat): (s: seq<nat>)
  {
    if from >= to then [] else seq(to - from, i requires 0 <= i => from + i)
  }

  /** The engine during an update: horizon runs leave the queue, and the runs new on the stitch
      node are enqueued at once if the robot stands on it or has passed it. */
  function UpdateEngine(r: Robot, o: Order): EngineState
    requires RefsOk(r) && |o.nodes| >= 1
  {
    var stitch := o.nodes[0].seqId;
    var pruned := DropHorizon(r.engine, PrunedLedger(r, stitch).runs.Keys);
    var added := Range(|r.engine.table|, |StitchLedger(r, o).table|);
    Enqueue(pruned, if r.lastSeq >= stitch then added else []).(table := UpdateLedger(r, o).table)
  }

  /** Everything beyond the stitch is replaced by what the message brings. */
  function StitchNodes(nodes: map<int, Node>, sent: seq<Node>): map<int, Node>
    requires |sent| >= 1
  {
    (map k | k in nodes && k <= sent[0].seqId :: nodes[k]) + IndexNodes(sent)
  }

  function StitchEdges(edges: map<int, RxEdge>, sent: seq<Edge>, stitch: int, tag: nat): map<int, RxEdge> {
    (map k | k in edges && k <= stitch :: edges[k]) + IndexEdges(sent, tag)
  }

  function Updated(r: Robot, o: Order): Robot
    requires RefsOk(r) && |o.nodes| >= 1
  {
    var stitch := o.nodes[0].seqId;
    var l := UpdateLedger(r, o);
    r.(nodes := StitchNodes(r.nodes, o.nodes), edges := StitchEdges(r.edges, o.edges, stitch, r.accepted),
       nodeStates := UpTo(r.nodeStates, stitch) + NodeStates(o.nodes[1..]),
       edgeStates := UpTo(r.edgeStates, stitch) + EdgeStates(o.edges),
       runs := l.runs, actionStates := l.listed, engine := UpdateEngine(r, o))
  }

  function Adopted(r: Robot, o: Order): Robot {
    r.(orderId := o.orderId, updateId := o.updateId, hasOrder := true, cancelled := false,
       lastOrder := Some(o), newBaseRequest := false, accepted := r.accepted + 1)
  }

  ghost function Decide(r: Robot, o: Order, s: Surroundings): Decision
    requires RefsOk(r)
  {
    if |o.nodes| > MAX_ORDER_NODES || |o.edges| > MAX_ORDER_EDGES then Reject(InsufficientMemory)
    else
      match Evaluate(o, SituationOf(r, s))
      case Ignore => if r.lastOrder == Some(o) then Ignore else Reject(SameOrderUpdate)
      case d => d
  }

  lemma RegisterAllValid(l: Ledger, items: seq<Item>)
    requires forall id | id in l.runs :: l.runs[id] < |l.table|
    requires forall i | 0 <= i < |l.listed| :: l.listed[i] < |l.table|
    ensures var l' := RegisterAll(l, items);
            && l.table <= l'.table
            && (forall id | id in l'.runs :: l'.runs[id] < |l'.table|)
            && (forall i | 0 <= i < |l'.listed| :: l'.listed[i] < |l'.table|)
            && (forall id | id in l.runs :: id in l'.runs && l'.runs[id] == l.runs[id])
            && l.listed <= l'.listed
  {
    if items != [] { RegisterAllValid(l, items[..|items| - 1]); }
  }

  lemma LaidOutRefs(r: Robot, o: Order)
    requires RefsOk(r) && |o.nodes| >= 1
    ensures RefsOk(LaidOut(r, o))
  {
    RegisterAllValid(Ledger(ResetForOrder(r.engine, r.runs.Values).table, InstantRuns(r), []),
                     NodeItems(o.nodes) + EdgeItems(o.edges));
  }

  lemma ExtendedIsValid(e: EngineState, added: seq<nat>, table: seq<Run>)
    requires Valid(e) && |e.table| <= |table| && forall i | 0 <= i < |added| :: added[i] < |table|
    ensures Valid(Enqueue(e, added).(table := table))
  {
  }

  lemma UpdatedRefs(r: Robot, o: Order)
    requires RefsOk(r) && |o.nodes| >= 1
    ensures RefsOk(Updated(r, o))
    ensures r.engine.table <= Updated(r, o).engine.table
  {
    var p, l, stitch := PrunedLedger(r, o.nodes[0].seqId), StitchLedger(r, o), o.nodes[0].seqId;
    RegisterAllValid(p, Items(StitchActions(r, o), OnNode, stitch));
    RegisterAllValid(l, NodeItems(o.nodes[1..]) + EdgeItems(o.edges));
    ExtendedIsValid(DropHorizon(r.engine, p.runs.Keys),
                    if r.lastSeq >= stitch then Range(|r.engine.table|, |l.table|) else [], UpdateLedger(r, o).table);
  }

  ghost function OnOrder(r: Robot, o: Order, s: Surroundings): Robot
    requires RefsOk(r)
  {
    match Decide(r, o, s)
    case Accept(_, isUpdate) =>
      LaidOutRefs(r, o);
      Adopted(if isUpdate then Updated(r, o) else EnqueueElement(LaidOut(r, o), o.nodes[0].actions), o)
    case _ => r
  }

  // -------------------------------------------------------------- driver

  function NextEdge(r: Robot): Option<RxEdge> {
    if r.lastSeq + 1 in r.edges && r.edges[r.lastSeq + 1].edge.released
    then Some(r.edges[r.lastSeq + 1]) else None
  }

  function RequestBase(r: Robot): Robot {
    r.(newBaseRequest := (exists k | k in r.nodes :: !r.nodes[k].released) && NextEdge(r).None?)
  }

  predicate BlocksDriving(e: EngineState)
    requires Valid(e)
  {
    || (exists i | 0 <= i < |e.queue| :: e.table[e.queue[i]].StopsDriving())
    || (exists i | 0 <= i < |e.active| :: e.table[e.active[i]].StopsDriving() && !e.table[e.active[i]].Settled())
  }

  /** The driver loop finds no released edge ahead. */
  function Rest(r: Robot): Robot {
    if r.driver.Stopped? && NextEdge(r).None? then RequestBase(r) else r
  }

  /** The driver sets off; `mayDrive` is the part of `_may_drive` outside the order state. */
  function SetOff(r: Robot, mayDrive: bool): Robot
    requires RefsOk(r)
  {
    if r.driver.Stopped? && NextEdge(r).Some? && mayDrive && !BlocksDriving(r.engine)
       && NextEdge(r).value.edge.seqId + 1 in r.nodes
    then
      var edge := NextEdge(r).value;
      EnqueueElement(r, edge.edge.actions).(driver := Driving(edge, r.nodes[edge.edge.seqId + 1]))
    else r
  }

  /** The edge being driven is still the object stored under its number. */
  predicate Current(r: Robot) {
    && r.driver.Driving?
    && r.driver.edge.edge.seqId in r.edges
    && r.edges[r.driver.edge.edge.seqId].tag == r.driver.edge.tag
  }

  function Arrive(r: Robot): Robot
    requires RefsOk(r)
  {
    if !Current(r) then r
    else
      var edge, node := r.driver.edge.edge, r.driver.target;
      var there := r.(lastNodeId := node.id, lastSeq := node.seqId,
                      nodeStates := Without(r.nodeStates, node.seqId),
                      edgeStates := Without(r.edgeStates, edge.seqId),
                      engine := FinishEdgeActions(r.engine, edge.seqId),
                      driver := Stopped);
      RequestBase(EnqueueElement(there, node.actions))
  }

  function Abandon(r: Robot): Robot {
    if r.driver.Driving? && !Current(r) then r.(driver := Stopped) else r
  }

  // ------------------------------------------------------------ clearing

  function FailIfWaiting(run: Run): Run {
    if run.origin != Instant && run.status == Waiting then run.(status := Failed, finished := true) else run
  }

  function FailWaitingRuns(table: seq<Run>, registered: set<nat>): seq<Run> {
    seq(|table|, k requires 0 <= k < |table| => if k in registered then FailIfWaiting(table[k]) else table[k])
  }

  function ClearExecution(r: Robot): Robot {
    r.(engine := r.engine.(table := FailWaitingRuns(r.engine.table, r.runs.Values)),
       nodeStates := [], edgeStates := [], nodes := map[], edges := map[], newBaseRequest := false)
  }

  predicate CancelMatches(r: Robot, requested: Option<string>)
    requires RefsOk(r)
  {
    !IsIdle(r) && !r.cancelled && (requested.None? || requested.value == r.orderId)
  }

  /** cancelOrder up to its first wait. */
  function Cancel(r: Robot, requested: Option<string>): Robot
    requires RefsOk(r)
  {
    if !CancelMatches(r, requested) then r
    else ClearExecution(r.(cancelled := true, engine := CancelOrderActions(r.engine)))
  }

  /** The runs cancelOrder then waits for. */
  function AwaitedByCancel(r: Robot, requested: Option<string>): seq<nat>
    requires RefsOk(r)
  {
    if !CancelMatches(r, requested) then []
    else OutstandingAmong(CancelOrderActions(r.engine).table, r.engine.active)
  }

  function StopRun(run: Run): Run {
    if run.origin == Instant || run.Settled() then run
    else if run.task == Created || run.task == Live || run.task == Cancelling then CancelTask(run)
    else run.(status := Failed, finished := true)
  }

  function StopRuns(table: seq<Run>, registered: set<nat>): seq<Run> {
    seq(|table|, k requires 0 <= k < |table| => if k in registered then StopRun(table[k]) else table[k])
  }

  /** MANUAL, SERVICE, TEACH_IN and STARTUP clear the current order. */
  function SwitchToManual(r: Robot): Robot
    requires RefsOk(r)
  {
    var stopped := r.engine.(table := StopRuns(r.engine.table, r.runs.Values));
    ClearExecution(r.(engine := CancelOrderActions(stopped))).(lastNodeId := "")
  }

  /** An instant action arrives; a known id is a redelivery and does nothing. */
  function StartInstant(r: Robot, a: Action, supported: bool): Robot
    requires RefsOk(r)
  {
    if a.id in r.runs then r
    else
      var registered := r.(runs := r.runs[a.id := |r.engine.table|],
                           engine := NewRun(r.engine, FreshRun(a, Instant, -1)));
      if supported then registered.(engine := StartTask(registered.engine, |r.engine.table|))
      else registered.(engine := NewRun(r.engine, FreshRun(a, Instant, -1).(status := Failed)))
  }

  // ---------------------------------------------------------------- steps

  datatype Step =
    | Delivered(order: Order, around: Surroundings)
    | Rested
    | SettingOff(mayDrive: bool)
    | Arrived
    | Abandoned
    | CancelAsked(requested: Option<string>)
    | ManualAsked
    | InstantAsked(action: Action, supported: bool)
    | RunnerMoves(runner: nat)
    | HandlerReports(run: nat, status: Status)
    | HandlerEnds(run: nat, outcome: Status)
    | RetrySkips(run: nat)

  /** What a handler's report or end, or a skipped retry, makes of the run. */
  function Handled(run: Run, step: Step): Run
    requires step.HandlerReports? || step.HandlerEnds? || step.RetrySkips?
  {
    match step
    case HandlerReports(_, status) => Progress(run, status)
    case HandlerEnds(_, outcome) => End(run, outcome)
    case RetrySkips(_) => SkipRetry(run)
  }

  ghost function Next(r: Robot, step: Step): Robot
    requires RefsOk(r)
  {
    match step
    case Delivered(o, s) => OnOrder(r, o, s)
    case Rested => Rest(r)
    case SettingOff(mayDrive) => SetOff(r, mayDrive)
    case Arrived => Arrive(r)
    case Abandoned => Abandon(r)
    case CancelAsked(requested) => Cancel(r, requested)
    case ManualAsked => SwitchToManual(r)
    case InstantAsked(a, supported) => StartInstant(r, a, supported)
    case RunnerMoves(i) => if i < |r.engine.runners| then r.(engine := RunnerStep(r.engine, i)) else r
    case _ =>
      if step.run < |r.engine.table| then r.(engine := OnRun(r.engine, step.run, run => Handled(run, step))) else r
  }

  /** A handler touches the run it is about and nothing else. */
  lemma HandledOnly(r: Robot, step: Step, k: nat)
    requires RefsOk(r) && k < |r.engine.table| && (step.HandlerReports? || step.HandlerEnds? || step.RetrySkips?)
    ensures Next(r, step) == r.(engine := r.engine.(table := Next(r, step).engine.table))
    ensures |Next(r, step).engine.table| == |r.engine.table|
    ensures Next(r, step).engine.table[k]
         == if step.run == k then Handled(r.engine.table[k], step) else r.engine.table[k]
  {
    var e := r.engine;
    if step.run < |e.table| {
      assert OnRun(e, step.run, run => Handled(run, step)).table
          == e.table[step.run := Handled(e.table[step.run], step)];
    }
  }

  /** The robot before its first order. */
  const Idle := Robot("", 0, false, false, "", 0, map[], map[], [], [], map[], [], None, false, 0, Stopped,
                      EngineState([], [], [], []))
}
