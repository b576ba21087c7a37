/** robot.py: the robot object, method by method, against the state functions of RobotModel. */
module VirtualAgvObject {
  import opened Vda5050
  import opened OrderAcceptance
  import opened Actions
  import opened RobotModel
  import opened ActionEngineObject

  class VirtualAgv {
    var orderId: string
    var updateId: int
    var hasOrder: bool
    var cancelled: bool
    var lastNodeId: string
    var lastSeq: int
    var nodes: map<int, Node>
    var edges: map<int, RxEdge>
    var nodeStates: seq<ElementState>
    var edgeStates: seq<ElementState>
    var runs: map<string, nat>
    var actionStates: seq<nat>
    var lastOrder: Option<Order>
    var newBaseRequest: bool
    var accepted: nat
    var driver: Driver
    const engine: ActionEngine

    ghost function State(): Robot
      reads this, engine
    {
      Robot(orderId, updateId, hasOrder, cancelled, lastNodeId, lastSeq, nodes, edges, nodeStates, edgeStates,
            runs, actionStates, lastOrder, newBaseRequest, accepted, driver, engine.State())
    }

    ghost function Book(): Ledger
      reads this`runs, this`actionStates, engine`table
    {
      Ledger(engine.table, runs, actionStates)
    }

    /** Every registered and every listed run has an entry in the engine's table. */
    ghost predicate BookOk()
      reads this`runs, this`actionStates, engine`table
    {
      && (forall id | id in runs :: runs[id] < |engine.table|)
      && (forall i | 0 <= i < |actionStates| :: actionStates[i] < |engine.table|)
    }

    constructor ()
      ensures State() == Idle && fresh(engine)
    {
      engine := new ActionEngine();
      orderId, updateId, hasOrder, cancelled := "", 0, false, false;
      lastNodeId, lastSeq := "", 0;
      nodes, edges, nodeStates, edgeStates := map[], map[], [], [];
      runs, actionStates, lastOrder := map[], [], None;
      newBaseRequest, accepted, driver := false, 0, Stopped;
    }

    // ------------------------------------------------------------ orders

    /** The last released node, found by going through the stored nodes. */
    method FindDecisionPoint() returns (point: Option<(string, int)>)
      ensures point == DecisionPoint(nodes)
    {
      var todo := set k | k in nodes;
      point := None;
      while todo != {}
        invariant forall k | k in todo :: k in nodes
        invariant point.None? ==> forall k | k in nodes && k !in todo :: !nodes[k].released
        invariant point.Some? ==>
                    && point.value.1 in nodes && nodes[point.value.1].released
                    && point.value.0 == nodes[point.value.1].id
                    && forall k | k in nodes && k !in todo && nodes[k].released :: k <= point.value.1
        decreases todo
      {
        assert (forall x :: x !in todo) ==> todo == {};
        var k :| k in todo;
        todo := todo - {k};
        if nodes[k].released && (point.None? || k > point.value.1) { point := Some((nodes[k].id, k)); }
      }
      if point.Some? { assert IsDecisionPoint(nodes, point.value.1); }
    }

    method Situation(s: Surroundings) returns (now: Situation)
      requires RefsOk(State())
      ensures now == SituationOf(State(), s)
    {
      var point := FindDecisionPoint();
      var idle := nodeStates == [] && edgeStates == []
                  && forall i | 0 <= i < |actionStates| :: engine.table[actionStates[i]].Settled();
      now := OrderAcceptance.Situation(orderId, updateId, hasOrder, idle, cancelled, point, lastNodeId,
                                       s.localized, s.startInRange, s.knownMaps, s.nodeActions, s.edgeActions,
                                       s.acceptsOrders, s.carryIds);
    }

    method OnOrder(doc: Order, s: Surroundings) returns (rejected: Option<ErrorKey>)
      requires RefsOk(State())
      modifies this, engine
      ensures State() == RobotModel.OnOrder(old(State()), doc, s)
      ensures rejected == match Decide(old(State()), doc, s) case Reject(key) => Some(key) case _ => None
    {
      if |doc.nodes| > MAX_ORDER_NODES || |doc.edges| > MAX_ORDER_EDGES {
        return Some(InsufficientMemory);
      }
      var now := Situation(s);
      match Evaluate(doc, now) {
        case Ignore =>
          rejected := if lastOrder == Some(doc) then None else Some(SameOrderUpdate);
        case Reject(key) =>
          rejected := Some(key);
        case Accept(_, isUpdate) =>
          AcceptedIsNumbered(State(), doc, s);
          LaidOutRefs(State(), doc);
          if isUpdate { AcceptUpdate(doc); } else { AcceptFresh(doc); }
          rejected := None;
      }
    }

    /** `_accept_order` for an update. */
    method AcceptUpdate(doc: Order)
      requires RefsOk(State()) && Numbered(doc)
      modifies this, engine
      ensures State() == Adopted(Updated(old(State()), doc), doc)
    {
      ghost var start := State();
      ApplyOrderUpdate(doc);
      UpdatedIs(start, doc, State());
      Adopt(doc);
    }

    /** `_accept_order` for a fresh order. */
    method AcceptFresh(doc: Order)
      requires RefsOk(State()) && Numbered(doc) && RefsOk(LaidOut(State(), doc))
      modifies this, engine
      ensures State() == Adopted(EnqueueElement(LaidOut(old(State()), doc), doc.nodes[0].actions), doc)
    {
      ghost var start := State();
      StartFreshOrder(doc);
      LaidOutIs(start, doc, State());
      Adopt(doc);
    }

    method Adopt(doc: Order)
      modifies this`orderId, this`updateId, this`hasOrder, this`cancelled,
               this`lastOrder, this`newBaseRequest, this`accepted
      ensures State() == Adopted(old(State()), doc)
    {
      ghost var start := State();
      SetOrder(doc);
      AdoptedIs(start, doc, State());
    }

    method SetOrder(doc: Order)
      modifies this`orderId, this`updateId, this`hasOrder, this`cancelled,
               this`lastOrder, this`newBaseRequest, this`accepted
      ensures orderId == doc.orderId && updateId == doc.updateId && hasOrder && !cancelled
      ensures lastOrder == Some(doc) && !newBaseRequest && accepted == old(accepted) + 1
    {
      orderId, updateId, hasOrder, cancelled := doc.orderId, doc.updateId, true, false;
      lastOrder, newBaseRequest, accepted := Some(doc), false, accepted + 1;
    }

    method RegisterOrderAction(action: Action, origin: Origin, element: int) returns (run: Option<nat>)
      requires BookOk()
      modifies this`runs, this`actionStates, engine`table
      ensures Book() == Register(old(Book()), Item(action, origin, element))
      ensures run == if action.id in old(runs) then None else Some(|old(engine.table)|)
    {
      if action.id in runs { return None; }
      run := Some(|engine.table|);
      actionStates := actionStates + [|engine.table|];
      runs := runs[action.id := |engine.table|];
      engine.table := engine.table + [FreshRun(action, origin, element)];
    }

    method RegisterElement(actions: seq<Action>, origin: Origin, element: int)
      requires BookOk()
      modifies this`runs, this`actionStates, engine`table
      ensures Book() == RegisterAll(old(Book()), Items(actions, origin, element))
      ensures BookOk()
    {
      ghost var start := Book();
      for i := 0 to |actions|
        invariant Book() == RegisterAll(start, Items(actions, origin, element)[..i])
        invariant engine.State() == old(engine.State()).(table := engine.table)
        invariant BookOk()
      {
        RegisterAllValid(start, Items(actions, origin, element)[..i]);
        var _ := RegisterOrderAction(actions[i], origin, element);
        assert Items(actions, origin, element)[..i + 1][..i] == Items(actions, origin, element)[..i];
        RegisterAllValid(start, Items(actions, origin, element)[..i + 1]);
      }
      assert Items(actions, origin, element)[..|actions|] == Items(actions, origin, element);
    }

    method EnqueueElementActions(actions: seq<Action>)
      requires BookOk()
      modifies engine`queue, engine`runners
      ensures engine.State() == Enqueue(old(engine.State()), PendingRuns(engine.table, runs, actions))
    {
      var pending := [];
      for i := 0 to |actions|
        invariant pending == PendingRuns(engine.table, runs, actions[..i])
      {
        assert actions[..i + 1][..i] == actions[..i];
        var id := actions[i].id;
        if id in runs && engine.table[runs[id]].status == Waiting { pending := pending + [runs[id]]; }
      }
      assert actions[..|actions|] == actions;
      if pending != [] { engine.Enqueue(pending); }
    }

    /** Cancels the task of every registered run. */
    method CancelRegisteredTasks()
      requires BookOk()
      modifies engine`table
      ensures |engine.table| == |old(engine.table)|
      ensures forall k | 0 <= k < |engine.table| ::
                engine.table[k] == if k in runs.Values then CancelTask(old(engine.table)[k]) else old(engine.table)[k]
    {
      var todo := runs.Values;
      ghost var start := engine.table;
      while todo != {}
        invariant todo <= runs.Values && |engine.table| == |start|
        invariant forall k | 0 <= k < |start| ::
                    engine.table[k] == if k in runs.Values && k !in todo then CancelTask(start[k]) else start[k]
        decreases todo
      {
        var k :| k in todo;
        todo := todo - {k};
        engine.table := engine.table[k := CancelTask(engine.table[k])];
      }
    }

    /** Stops everything the previous order left behind. */
    method ResetExecution()
      requires RefsOk(State())
      modifies this`runs, this`actionStates, engine`table, engine`queue, engine`active
      ensures engine.table == ResetForOrder(old(engine.State()), old(runs).Values).table
      ensures engine.queue == [] && engine.active == Instants(old(engine.table), old(engine.active))
      ensures runs == InstantRuns(old(State())) && actionStates == [] && BookOk()
    {
      ghost var start := State();
      CancelRegisteredTasks();
      ResetTableIs(start, engine.table);
      SameInstants(start.engine.table, engine.table, start.engine.active);
      engine.active := Instants(engine.table, engine.active);
      engine.queue := [];
      runs := map id | id in runs && engine.table[runs[id]].origin == Instant :: runs[id];
      actionStates := [];
    }

    method StartFreshOrder(doc: Order)
      requires RefsOk(State()) && Numbered(doc)
      modifies this`nodes, this`edges, this`nodeStates, this`edgeStates, this`runs, this`actionStates,
               this`lastNodeId, this`lastSeq, engine`table, engine`queue, engine`active, engine`runners
      ensures nodes == IndexNodes(doc.nodes) && edges == IndexEdges(doc.edges, accepted)
      ensures nodeStates == NodeStates(doc.nodes[1..]) && edgeStates == EdgeStates(doc.edges)
      ensures Book() == FreshLedger(old(State()), doc) && BookOk()
      ensures lastNodeId == doc.nodes[0].id && lastSeq == doc.nodes[0].seqId
      ensures engine.active == Instants(old(engine.table), old(engine.active))
      ensures engine.State() == Enqueue(engine.State().(queue := [], runners := old(engine.runners)),
                                        PendingRuns(engine.table, runs, doc.nodes[0].actions))
    {
      ResetExecution();
      LayOut(doc);
      EnqueueElementActions(doc.nodes[0].actions);
    }

    method LayOut(doc: Order)
      requires BookOk() && |doc.nodes| >= 1
      modifies this`nodes, this`edges, this`nodeStates, this`edgeStates, this`runs, this`actionStates,
               this`lastNodeId, this`lastSeq, engine`table
      ensures nodes == IndexNodes(doc.nodes) && edges == IndexEdges(doc.edges, accepted)
      ensures nodeStates == NodeStates(doc.nodes[1..]) && edgeStates == EdgeStates(doc.edges)
      ensures Book() == RegisterAll(old(Book()), NodeItems(doc.nodes) + EdgeItems(doc.edges)) && BookOk()
      ensures lastNodeId == doc.nodes[0].id && lastSeq == doc.nodes[0].seqId
    {
      nodes, edges, nodeStates, edgeStates := map[], map[], [], [];
      Append(doc, doc.nodes);
      NothingBefore(IndexNodes(doc.nodes));
      NothingBefore(IndexEdges(doc.edges, accepted));
      lastNodeId, lastSeq := doc.nodes[0].id, doc.nodes[0].seqId;
    }

    /** Appends received elements, their states and their actions. */
    method Append(doc: Order, sent: seq<Node>)
      requires BookOk() && |doc.nodes| >= 1
      modifies this`nodes, this`edges, this`nodeStates, this`edgeStates, this`runs, this`actionStates, engine`table
      ensures nodes == old(nodes) + IndexNodes(sent)
      ensures edges == old(edges) + IndexEdges(doc.edges, accepted)
      ensures nodeStates == old(nodeStates) + NodeStates(doc.nodes[1..])
      ensures edgeStates == old(edgeStates) + EdgeStates(doc.edges)
      ensures Book() == RegisterAll(old(Book()), NodeItems(sent) + EdgeItems(doc.edges)) && BookOk()
    {
      ghost var book := Book();
      AppendStates(doc.nodes[1..], doc.edges);
      StoreNodes(sent);
      StoreEdges(doc.edges);
      RegisterInParts(book, NodeItems(sent), EdgeItems(doc.edges));
    }

    /** Stores one received node and registers its actions. */
    method StoreNode(node: Node)
      requires BookOk()
      modifies this`nodes, this`runs, this`actionStates, engine`table
      ensures nodes == old(nodes)[node.seqId := node]
      ensures Book() == RegisterAll(old(Book()), Items(node.actions, OnNode, node.seqId)) && BookOk()
    {
      nodes := nodes[node.seqId := node];
      RegisterElement(node.actions, OnNode, node.seqId);
    }

    /** Stores one received edge and registers its actions. */
    method StoreEdge(edge: Edge)
      requires BookOk()
      modifies this`edges, this`runs, this`actionStates, engine`table
      ensures edges == old(edges)[edge.seqId := RxEdge(accepted, edge)]
      ensures Book() == RegisterAll(old(Book()), Items(edge.actions, OnEdge, edge.seqId)) && BookOk()
    {
      edges := edges[edge.seqId := RxEdge(accepted, edge)];
      RegisterElement(edge.actions, OnEdge, edge.seqId);
    }

    /** Stores received nodes and registers their actions. */
    method StoreNodes(sent: seq<Node>)
      requires BookOk()
      modifies this`nodes, this`runs, this`actionStates, engine`table
      ensures nodes == old(nodes) + IndexNodes(sent)
      ensures Book() == RegisterAll(old(Book()), NodeItems(sent)) && BookOk()
    {
      ghost var book := Book();
      for i := 0 to |sent|
        invariant nodes == old(nodes) + IndexNodes(sent[..i])
        invariant Book() == RegisterAll(book, NodeItems(sent[..i])) && BookOk()
      {
        StoreNode(sent[i]);
        NextNodeStored(book, old(nodes), sent, i);
      }
      assert sent[..|sent|] == sent;
    }

    /** Stores received edges and registers their actions. */
    method StoreEdges(sent: seq<Edge>)
      requires BookOk()
      modifies this`edges, this`runs, this`actionStates, engine`table
      ensures edges == old(edges) + IndexEdges(sent, accepted)
      ensures Book() == RegisterAll(old(Book()), EdgeItems(sent)) && BookOk()
    {
      ghost var book := Book();
      for i := 0 to |sent|
        invariant edges == old(edges) + IndexEdges(sent[..i], accepted)
        invariant Book() == RegisterAll(book, EdgeItems(sent[..i])) && BookOk()
      {
        StoreEdge(sent[i]);
        NextEdgeStored(book, old(edges), sent, i, accepted);
      }
      assert sent[..|sent|] == sent;
    }

    /** Appends the states of received elements. */
    method AppendStates(sentNodes: seq<Node>, sentEdges: seq<Edge>)
      modifies this`nodeStates, this`edgeStates
      ensures nodeStates == old(nodeStates) + NodeStates(sentNodes)
      ensures edgeStates == old(edgeStates) + EdgeStates(sentEdges)
    {
      for i := 0 to |sentNodes|
        invariant nodeStates == old(nodeStates) + NodeStates(sentNodes)[..i]
        invariant edgeStates == old(edgeStates)
      {
        nodeStates := nodeStates + [NodeState(sentNodes[i])];
      }
      for i := 0 to |sentEdges|
        invariant nodeStates == old(nodeStates) + NodeStates(sentNodes)
        invariant edgeStates == old(edgeStates) + EdgeStates(sentEdges)[..i]
      {
        edgeStates := edgeStates + [EdgeState(sentEdges[i])];
      }
    }

    method ApplyOrderUpdate(doc: Order)
      requires RefsOk(State()) && Numbered(doc)
      modifies this`nodes, this`edges, this`nodeStates, this`edgeStates, this`runs, this`actionStates,
               engine`table, engine`queue, engine`runners
      ensures nodes == StitchNodes(old(nodes), doc.nodes)
      ensures edges == StitchEdges(old(edges), doc.edges, doc.nodes[0].seqId, accepted)
      ensures nodeStates == UpTo(old(nodeStates), doc.nodes[0].seqId) + NodeStates(doc.nodes[1..])
      ensures edgeStates == UpTo(old(edgeStates), doc.nodes[0].seqId) + EdgeStates(doc.edges)
      ensures Book() == UpdateLedger(old(State()), doc)
      ensures engine.State() == UpdateEngine(old(State()), doc)
    {
      var stitch := doc.nodes[0].seqId;
      var known := if stitch in nodes then set a | a in nodes[stitch].actions :: a.id else {};
      StitchSplit(nodes, doc.nodes);
      ForgetAndStitch(doc, known);
      Append(doc, doc.nodes[1..]);
    }

    method ForgetAndStitch(doc: Order, known: set<string>)
      requires RefsOk(State()) && |doc.nodes| >= 1
      requires known == if doc.nodes[0].seqId in nodes
                        then set a | a in nodes[doc.nodes[0].seqId].actions :: a.id else {}
      modifies this`nodes, this`edges, this`nodeStates, this`edgeStates, this`runs, this`actionStates,
               engine`table, engine`queue, engine`runners
      ensures nodes == (map k | k in old(nodes) && k <= doc.nodes[0].seqId :: old(nodes)[k])
                       [doc.nodes[0].seqId := doc.nodes[0]]
      ensures edges == (map k | k in old(edges) && k <= doc.nodes[0].seqId :: old(edges)[k])
      ensures nodeStates == UpTo(old(nodeStates), doc.nodes[0].seqId)
      ensures edgeStates == UpTo(old(edgeStates), doc.nodes[0].seqId)
      ensures Book() == StitchLedger(old(State()), doc) && BookOk()
      ensures engine.State().(table := UpdateLedger(old(State()), doc).table) == UpdateEngine(old(State()), doc)
    {
      ghost var start := State();
      ForgetHorizon(doc.nodes[0].seqId);
      assert engine.State() == DropHorizon(start.engine, PrunedLedger(start, doc.nodes[0].seqId).runs.Keys);
      StitchOn(doc.nodes[0], known, lastSeq >= doc.nodes[0].seqId);
      StitchedEngineIs(start, doc, engine.State());
    }

    /** Removes every element beyond the stitch, its state and its runs. */
    method ForgetHorizon(stitch: int)
      requires RefsOk(State())
      modifies this`nodes, this`edges, this`nodeStates, this`edgeStates, this`runs, this`actionStates, engine`queue
      ensures nodes == (map k | k in old(nodes) && k <= stitch :: old(nodes)[k])
      ensures edges == (map k | k in old(edges) && k <= stitch :: old(edges)[k])
      ensures nodeStates == UpTo(old(nodeStates), stitch) && edgeStates == UpTo(old(edgeStates), stitch)
      ensures Book() == PrunedLedger(old(State()), stitch) && BookOk()
      ensures engine.queue == KeepIds(engine.table, old(engine.queue), runs.Keys)
    {
      ghost var start := State();
      var removed := RemoveElements(stitch);
      nodeStates := FilterStates(nodeStates, stitch);
      edgeStates := FilterStates(edgeStates, stitch);
      actionStates := FilterRuns(removed);
      runs := runs - removed;
      engine.DropHorizonStates(runs.Keys);
    }

    method FilterRuns(removed: set<string>) returns (kept: seq<nat>)
      requires BookOk()
      ensures kept == KeepListed(engine.table, actionStates, removed)
    {
      kept := [];
      for i := 0 to |actionStates|
        invariant kept == KeepListed(engine.table, actionStates[..i], removed)
      {
        assert actionStates[..i + 1][..i] == actionStates[..i];
        if engine.table[actionStates[i]].action.id !in removed { kept := kept + [actionStates[i]]; }
      }
      assert actionStates[..|actionStates|] == actionStates;
    }

    method FilterStates(states: seq<ElementState>, last: int) returns (kept: seq<ElementState>)
      ensures kept == UpTo(states, last)
    {
      kept := [];
      for i := 0 to |states|
        invariant kept == UpTo(states[..i], last)
      {
        assert states[..i + 1][..i] == states[..i];
        if states[i].seqId <= last { kept := kept + [states[i]]; }
      }
      assert states[..|states|] == states;
    }

    method RemoveElements(stitch: int) returns (removed: set<string>)
      modifies this`nodes, this`edges
      ensures nodes == (map k | k in old(nodes) && k <= stitch :: old(nodes)[k])
      ensures edges == (map k | k in old(edges) && k <= stitch :: old(edges)[k])
      ensures removed == (set k, a | k in old(nodes) && k > stitch && a in old(nodes)[k].actions :: a.id)
                         + (set k, a | k in old(edges) && k > stitch && a in old(edges)[k].edge.actions :: a.id)
    {
      var fromNodes := RemoveNodes(stitch);
      var fromEdges := RemoveEdges(stitch);
      removed := fromNodes + fromEdges;
    }

    method RemoveNodes(stitch: int) returns (removed: set<string>)
      modifies this`nodes
      ensures nodes == (map k | k in old(nodes) && k <= stitch :: old(nodes)[k])
      ensures removed == set k, a | k in old(nodes) && k > stitch && a in old(nodes)[k].actions :: a.id
    {
      removed := {};
      var todo := set k | k in nodes && k > stitch;
      while todo != {}
        invariant forall k | k in todo :: k in old(nodes) && k > stitch
        invariant nodes == map k | k in old(nodes) && (k <= stitch || k in todo) :: old(nodes)[k]
        invariant removed
               == set k, a | k in old(nodes) && k > stitch && k !in todo && a in old(nodes)[k].actions :: a.id
        decreases todo
      {
        var k :| k in todo;
        removed := removed + (set a | a in nodes[k].actions :: a.id);
        nodes := nodes - {k};
        todo := todo - {k};
      }
    }

    method RemoveEdges(stitch: int) returns (removed: set<string>)
      modifies this`edges
      ensures edges == (map k | k in old(edges) && k <= stitch :: old(edges)[k])
      ensures removed == set k, a | k in old(edges) && k > stitch && a in old(edges)[k].edge.actions :: a.id
    {
      removed := {};
      var todo := set k | k in edges && k > stitch;
      while todo != {}
        invariant forall k | k in todo :: k in old(edges) && k > stitch
        invariant edges == map k | k in old(edges) && (k <= stitch || k in todo) :: old(edges)[k]
        invariant removed
               == set k, a | k in old(edges) && k > stitch && k !in todo && a in old(edges)[k].edge.actions :: a.id
        decreases todo
      {
        var k :| k in todo;
        removed := removed + (set a | a in edges[k].edge.actions :: a.id);
        edges := edges - {k};
        todo := todo - {k};
      }
    }

    /** Replaces the stitch node and registers, and if it is behind the robot enqueues, the
        actions that are new on it. */
    method StitchOn(node: Node, known: set<string>, traversed: bool)
      requires BookOk()
      modifies this`nodes, this`runs, this`actionStates, engine`table, engine`queue, engine`runners
      ensures nodes == old(nodes)[node.seqId := node]
      ensures Book() == RegisterAll(old(Book()), Items(Unknown(node.actions, known), OnNode, node.seqId))
      ensures |engine.table| >= |old(engine.table)|
      ensures engine.State() == Actions.Enqueue(old(engine.State()),
                if traversed then Range(|old(engine.table)|, |engine.table|) else []).(table := engine.table)
      ensures BookOk()
    {
      ghost var book := Book();
      nodes := nodes[node.seqId := node];
      for i := 0 to |node.actions|
        invariant nodes == old(nodes)[node.seqId := node]
        invariant Book() == RegisterAll(book, Items(Unknown(node.actions[..i], known), OnNode, node.seqId))
        invariant |engine.table| >= |old(engine.table)|
        invariant engine.State() == Actions.Enqueue(old(engine.State()),
                    if traversed then Range(|old(engine.table)|, |engine.table|) else []).(table := engine.table)
        invariant BookOk()
      {
        assert node.actions[..i + 1][..i] == node.actions[..i];
        if node.actions[i].id !in known {
          assert Unknown(node.actions[..i + 1], known) == Unknown(node.actions[..i], known) + [node.actions[i]];
          ItemsAppend(book, Unknown(node.actions[..i], known), node.actions[i], OnNode, node.seqId);
          StitchAction(node.actions[i], node.seqId, traversed, |old(engine.table)|, old(engine.State()));
        } else {
          assert Unknown(node.actions[..i + 1], known) == Unknown(node.actions[..i], known);
        }
      }
      assert node.actions[..|node.actions|] == node.actions;
    }

    method StitchAction(action: Action, stitch: int, traversed: bool, ghost size: nat, ghost start: EngineState)
      requires BookOk() && size <= |engine.table|
      requires engine.State()
            == Actions.Enqueue(start, if traversed then Range(size, |engine.table|) else []).(table := engine.table)
      modifies this`runs, this`actionStates, engine`table, engine`queue, engine`runners
      ensures Book() == Register(old(Book()), Item(action, OnNode, stitch)) && BookOk()
      ensures size <= |engine.table|
      ensures engine.State()
           == Actions.Enqueue(start, if traversed then Range(size, |engine.table|) else []).(table := engine.table)
    {
      ghost var known := |engine.table|;
      var run := RegisterOrderAction(action, OnNode, stitch);
      if traversed && run.Some? {
        engine.Enqueue([run.value]);
        assert Range(size, known + 1) == Range(size, known) + [known];
      }
    }

    // ------------------------------------------------------------ driver

    method UpdateNewBaseRequest()
      modifies this`newBaseRequest
      ensures newBaseRequest == RequestBase(State()).newBaseRequest
    {
      var horizon := exists k | k in nodes :: !nodes[k].released;
      var exhausted := !(lastSeq + 1 in edges && edges[lastSeq + 1].edge.released);
      newBaseRequest := horizon && exhausted;
    }

    /** The driver loop between two waits: rest, or set off along the next released edge. */
    method DriverStep(mayDrive: bool)
      requires RefsOk(State()) && driver.Stopped?
      modifies this`newBaseRequest, this`driver, engine`queue, engine`runners
      ensures NextEdge(old(State())).None? ==> State() == Rest(old(State()))
      ensures NextEdge(old(State())).Some? ==> State() == SetOff(old(State()), mayDrive)
    {
      if lastSeq + 1 !in edges || !edges[lastSeq + 1].edge.released {
        UpdateNewBaseRequest();
      } else {
        var edge := edges[lastSeq + 1];
        var blocked := BlocksDriving(EngineState(engine.table, engine.queue, engine.active, engine.runners));
        if mayDrive && !blocked && edge.edge.seqId + 1 in nodes {
          EnqueueElementActions(edge.edge.actions);
          driver := Driving(edge, nodes[edge.edge.seqId + 1]);
        }
      }
    }

    method WithoutState(states: seq<ElementState>, number: int) returns (kept: seq<ElementState>)
      ensures kept == Without(states, number)
    {
      kept := [];
      for i := 0 to |states|
        invariant kept == Without(states[..i], number)
      {
        assert states[..i + 1][..i] == states[..i];
        if states[i].seqId != number { kept := kept + [states[i]]; }
      }
      assert states[..|states|] == states;
    }

    /** `_traverse` resumes after a wait: it arrives, or gives up because its edge was replaced. */
    method ArriveOrAbandon()
      requires RefsOk(State()) && driver.Driving?
      modifies this`lastNodeId, this`lastSeq, this`nodeStates, this`edgeStates, this`newBaseRequest, this`driver,
               engine`table, engine`queue, engine`runners
      ensures State() == if Current(old(State())) then Arrive(old(State())) else Abandon(old(State()))
    {
      var edge := driver.edge.edge;
      if edge.seqId !in edges || edges[edge.seqId].tag != driver.edge.tag {
        driver := Stopped;
      } else {
        ArriveNow();
      }
    }

    method ArriveNow()
      requires RefsOk(State()) && Current(State())
      modifies this`lastNodeId, this`lastSeq, this`nodeStates, this`edgeStates, this`newBaseRequest, this`driver,
               engine`table, engine`queue, engine`runners
      ensures State() == Arrive(old(State()))
    {
      ghost var start := State();
      ArriveAt(driver.edge.edge, driver.target);
      ArrivedIs(start, State());
    }

    /** `_arrive`. */
    method ArriveAt(edge: Edge, node: Node)
      requires RefsOk(State())
      modifies this`lastNodeId, this`lastSeq, this`nodeStates, this`edgeStates, this`newBaseRequest, this`driver,
               engine`table, engine`queue, engine`runners
      ensures lastNodeId == node.id && lastSeq == node.seqId && driver == Stopped
      ensures nodeStates == Without(old(nodeStates), node.seqId)
      ensures edgeStates == Without(old(edgeStates), edge.seqId)
      ensures BookOk() && engine.table == Actions.FinishEdgeActions(old(engine.State()), edge.seqId).table
      ensures engine.State()
           == Actions.Enqueue(EngineState(engine.table, old(engine.queue), engine.active, old(engine.runners)),
                              PendingRuns(engine.table, runs, node.actions))
      ensures newBaseRequest == RequestBase(State()).newBaseRequest
    {
      Reach(edge, node);
      EnqueueElementActions(node.actions);
      UpdateNewBaseRequest();
    }

    method Reach(edge: Edge, node: Node)
      requires RefsOk(State())
      modifies this`lastNodeId, this`lastSeq, this`nodeStates, this`edgeStates, this`driver, engine`table
      ensures lastNodeId == node.id && lastSeq == node.seqId && driver == Stopped
      ensures nodeStates == Without(old(nodeStates), node.seqId)
      ensures edgeStates == Without(old(edgeStates), edge.seqId)
      ensures engine.table == Actions.FinishEdgeActions(old(engine.State()), edge.seqId).table && BookOk()
    {
      lastNodeId, lastSeq, driver := node.id, node.seqId, Stopped;
      nodeStates := WithoutState(nodeStates, node.seqId);
      edgeStates := WithoutState(edgeStates, edge.seqId);
      engine.FinishEdgeActions(edge.seqId);
    }

    // ---------------------------------------------------------- clearing

    /** Fails what was never handed to the engine, then empties the graph and the state lists. */
    method ClearOrderExecution()
      requires BookOk()
      modifies this`nodeStates, this`edgeStates, this`nodes, this`edges, this`newBaseRequest, engine`table
      ensures nodeStates == [] && edgeStates == [] && nodes == map[] && edges == map[] && !newBaseRequest
      ensures engine.table == RobotModel.FailWaitingRuns(old(engine.table), runs.Values)
    {
      FailWaiting();
      nodeStates, edgeStates, nodes, edges, newBaseRequest := [], [], map[], map[], false;
    }

    method FailWaiting()
      requires BookOk()
      modifies engine`table
      ensures engine.table == RobotModel.FailWaitingRuns(old(engine.table), runs.Values)
    {
      var todo := runs.Values;
      while todo != {}
        invariant todo <= runs.Values && |engine.table| == |old(engine.table)|
        invariant forall k | 0 <= k < |engine.table| ::
                    engine.table[k]
                    == if k in runs.Values && k !in todo
                       then FailIfWaiting(old(engine.table)[k]) else old(engine.table)[k]
        decreases todo
      {
        assert (forall x :: x !in todo) ==> todo == {};
        var k :| k in todo;
        todo := todo - {k};
        engine.table := engine.table[k := FailIfWaiting(engine.table[k])];
      }
    }

    /** cancelOrder up to its first wait; returns the runs it then waits for. */
    method HandleCancelOrder(requested: Option<string>) returns (done: bool, outstanding: seq<nat>)
      requires RefsOk(State())
      modifies this`cancelled, this`nodeStates, this`edgeStates, this`nodes, this`edges, this`newBaseRequest,
               engine`table, engine`queue
      ensures done == CancelMatches(old(State()), requested)
      ensures State() == Cancel(old(State()), requested)
      ensures outstanding == AwaitedByCancel(old(State()), requested)
    {
      var settled := forall i | 0 <= i < |actionStates| :: engine.table[actionStates[i]].Settled();
      var idle := nodeStates == [] && edgeStates == [] && settled;
      if idle || cancelled || (requested.Some? && requested.value != orderId) {
        return false, [];
      }
      done := true;
      outstanding := CancelNow(requested);
    }

    method CancelNow(ghost requested: Option<string>) returns (outstanding: seq<nat>)
      requires RefsOk(State()) && CancelMatches(State(), requested)
      modifies this`cancelled, this`nodeStates, this`edgeStates, this`nodes, this`edges, this`newBaseRequest,
               engine`table, engine`queue
      ensures State() == Cancel(old(State()), requested)
      ensures outstanding == AwaitedByCancel(old(State()), requested)
    {
      ghost var start := State();
      outstanding := CancelAndClear();
      cancelled := true;
      CancelledIs(start, requested, engine.State());
    }

    method CancelAndClear() returns (outstanding: seq<nat>)
      requires RefsOk(State())
      modifies this`nodeStates, this`edgeStates, this`nodes, this`edges, this`newBaseRequest, engine`table, engine`queue
      ensures nodeStates == [] && edgeStates == [] && nodes == map[] && edges == map[] && !newBaseRequest
      ensures engine.queue == []
      ensures engine.table
           == RobotModel.FailWaitingRuns(Actions.CancelOrderActions(old(engine.State())).table, runs.Values)
      ensures outstanding == OutstandingAmong(Actions.CancelOrderActions(old(engine.State())).table, engine.active)
    {
      outstanding := engine.CancelOrderActions();
      ClearOrderExecution();
    }

    /** Entering MANUAL, SERVICE, TEACH_IN or STARTUP. */
    method SwitchToClearingMode()
      requires RefsOk(State())
      modifies this`lastNodeId, this`nodeStates, this`edgeStates, this`nodes, this`edges, this`newBaseRequest,
               engine`table, engine`queue
      ensures State() == SwitchToManual(old(State()))
    {
      ghost var start := State();
      StopAndClear();
      lastNodeId := "";
      ManualIs(start, engine.State());
    }

    method StopAndClear()
      requires RefsOk(State())
      modifies this`nodeStates, this`edgeStates, this`nodes, this`edges, this`newBaseRequest, engine`table, engine`queue
      ensures nodeStates == [] && edgeStates == [] && nodes == map[] && edges == map[] && !newBaseRequest
      ensures engine.queue == []
      ensures var stopped := old(engine.State()).(table := StopRuns(old(engine.table), runs.Values));
              engine.table == RobotModel.FailWaitingRuns(Actions.CancelOrderActions(stopped).table, runs.Values)
    {
      StopRegistered();
      var _ := CancelAndClear();
    }

    method StopRegistered()
      requires BookOk()
      modifies engine`table
      ensures engine.table == StopRuns(old(engine.table), runs.Values)
    {
      var todo := runs.Values;
      while todo != {}
        invariant todo <= runs.Values && |engine.table| == |old(engine.table)|
        invariant forall k | 0 <= k < |engine.table| ::
                    engine.table[k]
                    == if k in runs.Values && k !in todo then StopRun(old(engine.table)[k]) else old(engine.table)[k]
        decreases todo
      {
        assert (forall x :: x !in todo) ==> todo == {};
        var k :| k in todo;
        todo := todo - {k};
        engine.table := engine.table[k := StopRun(engine.table[k])];
      }
    }

    method OnInstantAction(action: Action, supported: bool)
      requires RefsOk(State())
      modifies this`runs, engine`table, engine`active
      ensures State() == RobotModel.StartInstant(old(State()), action, supported)
    {
      if action.id in runs { return; }
      runs := runs[action.id := |engine.table|];
      if supported {
        engine.table := engine.table + [FreshRun(action, Instant, -1)];
        engine.StartInstant(|engine.table| - 1);
      } else {
        engine.table := engine.table + [FreshRun(action, Instant, -1).(status := Failed)];
      }
    }
  }

  /** Cancelling the registered tasks one by one resets the table and changes no origin. */
  lemma ResetTableIs(r: Robot, table: seq<Run>)
    requires RefsOk(r) && |table| == |r.engine.table|
    requires forall k | 0 <= k < |table| ::
               table[k] == if k in r.runs.Values then CancelTask(r.engine.table[k]) else r.engine.table[k]
    ensures table == ResetForOrder(r.engine, r.runs.Values).table
    ensures forall k | 0 <= k < |table| :: table[k].origin == r.engine.table[k].origin
    ensures InstantRuns(r) == map id | id in r.runs && table[r.runs[id]].origin == Instant :: r.runs[id]
  {
  }

  lemma NothingBefore<T>(m: map<int, T>)
    ensures map[] + m == m
  {
  }

  lemma StitchedEngineIs(r: Robot, o: Order, e: EngineState)
    requires RefsOk(r) && |o.nodes| >= 1 && e.table == StitchLedger(r, o).table
    requires var dropped := DropHorizon(r.engine, PrunedLedger(r, o.nodes[0].seqId).runs.Keys);
             var added := if r.lastSeq >= o.nodes[0].seqId then Range(|r.engine.table|, |e.table|) else [];
             e == Enqueue(dropped, added).(table := e.table)
    ensures e.(table := UpdateLedger(r, o).table) == UpdateEngine(r, o)
  {
  }

  lemma ItemsAppend(l: Ledger, actions: seq<Action>, action: Action, origin: Origin, element: int)
    ensures RegisterAll(l, Items(actions + [action], origin, element))
         == Register(RegisterAll(l, Items(actions, origin, element)), Item(action, origin, element))
  {
    var items := Items(actions + [action], origin, element);
    assert items == Items(actions, origin, element) + [Item(action, origin, element)];
    assert items[..|items| - 1] == Items(actions, origin, element);
  }

  lemma StitchSplit(nodes: map<int, Node>, sent: seq<Node>)
    requires |sent| >= 1
    ensures (map k | k in nodes && k <= sent[0].seqId :: nodes[k])[sent[0].seqId := sent[0]] + IndexNodes(sent[1..])
         == StitchNodes(nodes, sent)
  {
    IndexHead(sent);
  }

  /** Two states agree on everything an arrival or a cancel does not touch. */
  ghost predicate SameOrderState(r: Robot, r': Robot) {
    && r'.orderId == r.orderId && r'.updateId == r.updateId && r'.hasOrder == r.hasOrder
    && r'.lastOrder == r.lastOrder && r'.accepted == r.accepted
    && r'.runs == r.runs && r'.actionStates == r.actionStates
  }

  lemma ArrivedIs(r: Robot, r': Robot)
    requires RefsOk(r) && Current(r)
    requires SameOrderState(r, r') && r'.cancelled == r.cancelled && r'.nodes == r.nodes && r'.edges == r.edges
    requires r'.lastNodeId == r.driver.target.id && r'.lastSeq == r.driver.target.seqId && r'.driver == Stopped
    requires r'.nodeStates == Without(r.nodeStates, r.driver.target.seqId)
    requires r'.edgeStates == Without(r.edgeStates, r.driver.edge.edge.seqId)
    requires var finished := FinishEdgeActions(r.engine, r.driver.edge.edge.seqId);
             && r'.engine.table == finished.table
             && r'.engine == Enqueue(EngineState(finished.table, r.engine.queue, r'.engine.active, r.engine.runners),
                                     PendingRuns(finished.table, r.runs, r.driver.target.actions))
             && r'.engine.active == r.engine.active
    requires r'.newBaseRequest == RequestBase(r').newBaseRequest
    ensures r' == Arrive(r)
  {
  }

  lemma CancelledIs(r: Robot, requested: Option<string>, e: EngineState)
    requires RefsOk(r) && CancelMatches(r, requested)
    requires e == EngineState(FailWaitingRuns(CancelOrderActions(r.engine).table, r.runs.Values), [],
                              r.engine.active, r.engine.runners)
    ensures Cancel(r, requested)
         == r.(cancelled := true, nodeStates := [], edgeStates := [], nodes := map[], edges := map[],
               newBaseRequest := false, engine := e)
  {
  }

  lemma ManualIs(r: Robot, e: EngineState)
    requires RefsOk(r)
    requires var stopped := CancelOrderActions(r.engine.(table := StopRuns(r.engine.table, r.runs.Values)));
             e == EngineState(FailWaitingRuns(stopped.table, r.runs.Values), [], r.engine.active, r.engine.runners)
    ensures SwitchToManual(r)
         == r.(lastNodeId := "", nodeStates := [], edgeStates := [], nodes := map[], edges := map[],
               newBaseRequest := false, engine := e)
  {
  }

  lemma AdoptedIs(r: Robot, o: Order, r': Robot)
    requires r'.orderId == o.orderId && r'.updateId == o.updateId && r'.hasOrder && !r'.cancelled
    requires r'.lastOrder == Some(o) && !r'.newBaseRequest && r'.accepted == r.accepted + 1
    requires r'.nodes == r.nodes && r'.edges == r.edges && r'.nodeStates == r.nodeStates
    requires r'.edgeStates == r.edgeStates
    requires r'.runs == r.runs && r'.actionStates == r.actionStates && r'.engine == r.engine && r'.driver == r.driver
    requires r'.lastNodeId == r.lastNodeId && r'.lastSeq == r.lastSeq
    ensures r' == Adopted(r, o)
  {
  }

  lemma LaidOutIs(r: Robot, o: Order, r': Robot)
    requires RefsOk(r) && |o.nodes| >= 1 && RefsOk(LaidOut(r, o))
    requires r'.orderId == r.orderId && r'.updateId == r.updateId && r'.hasOrder == r.hasOrder
    requires r'.cancelled == r.cancelled && r'.lastOrder == r.lastOrder && r'.newBaseRequest == r.newBaseRequest
    requires r'.accepted == r.accepted && r'.driver == r.driver
    requires r'.lastNodeId == o.nodes[0].id && r'.lastSeq == o.nodes[0].seqId
    requires r'.nodes == IndexNodes(o.nodes) && r'.edges == IndexEdges(o.edges, r.accepted)
    requires r'.nodeStates == NodeStates(o.nodes[1..]) && r'.edgeStates == EdgeStates(o.edges)
    requires Ledger(r'.engine.table, r'.runs, r'.actionStates) == FreshLedger(r, o)
    requires r'.engine.active == Instants(r.engine.table, r.engine.active)
    requires r'.engine == Enqueue(r'.engine.(queue := [], runners := r.engine.runners),
                                  PendingRuns(LaidOut(r, o).engine.table, LaidOut(r, o).runs, o.nodes[0].actions))
    ensures r' == EnqueueElement(LaidOut(r, o), o.nodes[0].actions)
  {
  }

  lemma UpdatedIs(r: Robot, o: Order, r': Robot)
    requires RefsOk(r) && |o.nodes| >= 1
    requires r'.orderId == r.orderId && r'.updateId == r.updateId && r'.hasOrder == r.hasOrder
    requires r'.cancelled == r.cancelled && r'.lastOrder == r.lastOrder && r'.newBaseRequest == r.newBaseRequest
    requires r'.accepted == r.accepted && r'.driver == r.driver
    requires r'.lastNodeId == r.lastNodeId && r'.lastSeq == r.lastSeq
    requires r'.nodes == StitchNodes(r.nodes, o.nodes)
    requires r'.edges == StitchEdges(r.edges, o.edges, o.nodes[0].seqId, r.accepted)
    requires r'.nodeStates == UpTo(r.nodeStates, o.nodes[0].seqId) + NodeStates(o.nodes[1..])
    requires r'.edgeStates == UpTo(r.edgeStates, o.nodes[0].seqId) + EdgeStates(o.edges)
    requires Ledger(r'.engine.table, r'.runs, r'.actionStates) == UpdateLedger(r, o)
    requires r'.engine == UpdateEngine(r, o)
    ensures r' == Updated(r, o)
  {
  }

  lemma AcceptedIsNumbered(r: Robot, o: Order, s: Surroundings)
    requires RefsOk(r) && Evaluate(o, SituationOf(r, s)).Accept?
    ensures Numbered(o)
  {
    AcceptanceIsExact(o, SituationOf(r, s));
  }

  lemma {:induction false} RegisterInParts(l: Ledger, a: seq<Item>, b: seq<Item>)
    ensures RegisterAll(l, a + b) == RegisterAll(RegisterAll(l, a), b)
  {
    if b == [] {
      assert a + b == a;
    } else {
      RegisterInParts(l, a, b[..|b| - 1]);
      assert (a + b)[..|a + b| - 1] == a + b[..|b| - 1];
    }
  }

  lemma NextNodeStored(l: Ledger, nodes: map<int, Node>, sent: seq<Node>, i: nat)
    requires i < |sent|
    ensures nodes + IndexNodes(sent[..i + 1]) == (nodes + IndexNodes(sent[..i]))[sent[i].seqId := sent[i]]
    ensures RegisterAll(l, NodeItems(sent[..i + 1]))
         == RegisterAll(RegisterAll(l, NodeItems(sent[..i])), Items(sent[i].actions, OnNode, sent[i].seqId))
  {
    assert sent[..i + 1][..i] == sent[..i];
    RegisterInParts(l, NodeItems(sent[..i]), Items(sent[i].actions, OnNode, sent[i].seqId));
  }

  lemma NextEdgeStored(l: Ledger, edges: map<int, RxEdge>, sent: seq<Edge>, i: nat, tag: nat)
    requires i < |sent|
    ensures edges + IndexEdges(sent[..i + 1], tag)
         == (edges + IndexEdges(sent[..i], tag))[sent[i].seqId := RxEdge(tag, sent[i])]
    ensures RegisterAll(l, EdgeItems(sent[..i + 1]))
         == RegisterAll(RegisterAll(l, EdgeItems(sent[..i])), Items(sent[i].actions, OnEdge, sent[i].seqId))
  {
    assert sent[..i + 1][..i] == sent[..i];
    RegisterInParts(l, EdgeItems(sent[..i]), Items(sent[i].actions, OnEdge, sent[i].seqId));
  }

  lemma {:induction false} IndexHead(nodes: seq<Node>)
    requires |nodes| >= 1
    ensures IndexNodes(nodes) == map[nodes[0].seqId := nodes[0]] + IndexNodes(nodes[1..])
  {
    var n := |nodes| - 1;
    if n > 0 {
      IndexHead(nodes[..n]);
      assert nodes[1..][..n - 1] == nodes[..n][1..];
    } else {
      assert nodes[..n] == [];
    }
  }

  lemma {:induction false} SameInstants(table: seq<Run>, table': seq<Run>, active: seq<nat>)
    requires |table| == |table'| && forall i | 0 <= i < |active| :: active[i] < |table|
    requires forall k | 0 <= k < |table| :: table'[k].origin == table[k].origin
    ensures Instants(table', active) == Instants(table, active)
  {
    if active != [] { SameInstants(table, table', active[1..]); }
  }
}
