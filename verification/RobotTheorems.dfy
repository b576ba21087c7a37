/** What holds in every run of the robot, and what single operations guarantee. */
module RobotTheorems {
  import opened Vda5050
  import opened Actions
  import opened RobotModel
  import opened RobotInvariants

  // ------------------------------------------------------------ every run

  ghost predicate ReachedBy(r: Robot, steps: seq<Step>)
    decreases |steps|
  {
    if steps == [] then r == Idle
    else exists before ::
      && ReachedBy(before, steps[..|steps| - 1]) && RefsOk(before)
      && r == Next(before, steps[|steps| - 1])
  }

  /** Over every run of deliveries, driving, cancels, mode switches, instant actions and engine
      steps the stored graph is one contiguous chain, released up to the decision point, the
      robot has not passed that point, and the state lists are the elements ahead of it. */
  lemma {:induction false} RunsKeepInvariant(r: Robot, steps: seq<Step>)
    requires ReachedBy(r, steps)
    ensures RobotOk(r)
    ensures Cleared(r) || exists lo, at, base, n :: Laid(r, lo, at, base, n)
    decreases |steps|
  {
    if steps != [] {
      var before :| ReachedBy(before, steps[..|steps| - 1]) && RefsOk(before)
        && r == Next(before, steps[|steps| - 1]);
      RunsKeepInvariant(before, steps[..|steps| - 1]);
      StepKeepsRobot(before, steps[|steps| - 1]);
    }
  }

  /** The state message names what lies ahead: node by node and edge by edge with id, number and release of
      the stored element, nearest first. */
  lemma StatesReading(r: Robot, lo: int, at: int, base: int, n: int)
    requires RefsOk(r) && Laid(r, lo, at, base, n)
    ensures |r.nodeStates| == |r.edgeStates| == n - 1 - at
    ensures forall i | 0 <= i < |r.nodeStates| :: TellsNode(r, r.nodeStates[i], r.lastSeq + 2 * i + 2)
    ensures forall i | 0 <= i < |r.edgeStates| :: TellsEdge(r, r.edgeStates[i], r.lastSeq + 2 * i + 1)
  {
    forall i | 0 <= i < |r.nodeStates| ensures TellsNode(r, r.nodeStates[i], r.lastSeq + 2 * i + 2) {
      assert NodeNumber(lo, at + 1 + i) == r.lastSeq + 2 * i + 2;
      assert NodeStored(r.nodes[NodeNumber(lo, at + 1 + i)], lo, base, at + 1 + i);
    }
    forall i | 0 <= i < |r.edgeStates| ensures TellsEdge(r, r.edgeStates[i], r.lastSeq + 2 * i + 1) {
      assert EdgeNumber(lo, at + i) == r.lastSeq + 2 * i + 1;
      assert EdgeStored(r.edges[EdgeNumber(lo, at + i)].edge, lo, base, at + i);
    }
  }

  ghost predicate TellsNode(r: Robot, state: ElementState, k: int) {
    && k in r.nodes && state.id == r.nodes[k].id && state.seqId == k
    && (state.released <==> r.nodes[k].released)
  }

  ghost predicate TellsEdge(r: Robot, state: ElementState, k: int) {
    && k in r.edges && state.id == r.edges[k].edge.id && state.seqId == k
    && (state.released <==> r.edges[k].edge.released)
  }

  /** The chain read element by element: an edge is stored exactly between two stored nodes, it
      is released exactly when both are, and nothing the robot has reached lies beyond the base. */
  lemma ChainReading(r: Robot, lo: int, at: int, base: int, n: int)
    requires RefsOk(r) && Laid(r, lo, at, base, n)
    ensures forall k :: k in r.nodes ==> k % 2 == 0
    ensures forall k :: k in r.edges <==> k - 1 in r.nodes && k + 1 in r.nodes
    ensures forall k | k in r.edges :: r.edges[k].edge.released <==> r.nodes[k - 1].released && r.nodes[k + 1].released
    ensures DecisionPoint(r.nodes).Some? && r.lastSeq <= DecisionPoint(r.nodes).value.1
  {
    NotBeyondBase(r, lo, at, base, n);
    forall k | k in r.nodes ensures k % 2 == 0 {
      assert k in NodeKeys(lo, n);
    }
    forall k ensures k in r.edges <==> k - 1 in r.nodes && k + 1 in r.nodes { EdgeBetween(r, lo, base, n, k); }
    forall k | k in r.edges ensures r.edges[k].edge.released <==> r.nodes[k - 1].released && r.nodes[k + 1].released {
      EdgeRelease(r, lo, base, n, k);
    }
  }

  lemma NotBeyondBase(r: Robot, lo: int, at: int, base: int, n: int)
    requires Laid(r, lo, at, base, n)
    ensures DecisionPoint(r.nodes).Some? && r.lastSeq <= DecisionPoint(r.nodes).value.1
  {
    ChainDecisionPoint(r.nodes, r.edges, lo, base, n);
  }

  lemma EdgeBetween(r: Robot, lo: int, base: int, n: int, k: int)
    requires ChainStored(r.nodes, r.edges, lo, base, n)
    ensures k in r.edges <==> k - 1 in r.nodes && k + 1 in r.nodes
  {
    if k in r.edges {
      assert k in EdgeKeys(lo, n - 1);
      var i :| 0 <= i < n - 1 && k == EdgeNumber(lo, i);
      assert k - 1 == NodeNumber(lo, i) && k + 1 == NodeNumber(lo, i + 1);
    }
    if k - 1 in r.nodes && k + 1 in r.nodes {
      assert k - 1 in NodeKeys(lo, n) && k + 1 in NodeKeys(lo, n);
      var i :| 0 <= i < n && k - 1 == NodeNumber(lo, i);
      assert k == EdgeNumber(lo, i) && k in EdgeKeys(lo, n - 1);
    }
  }

  lemma EdgeRelease(r: Robot, lo: int, base: int, n: int, k: int)
    requires ChainStored(r.nodes, r.edges, lo, base, n) && k in r.edges
    ensures k - 1 in r.nodes && k + 1 in r.nodes
    ensures r.edges[k].edge.released <==> r.nodes[k - 1].released && r.nodes[k + 1].released
  {
    assert k in EdgeKeys(lo, n - 1);
    var i :| 0 <= i < n - 1 && k == EdgeNumber(lo, i);
    assert EdgeStored(r.edges[k].edge, lo, base, i);
    assert NodeStored(r.nodes[NodeNumber(lo, i)], lo, base, i);
    assert NodeStored(r.nodes[NodeNumber(lo, i + 1)], lo, base, i + 1);
  }

  // -------------------------------------------------------------- updates

  lemma KeepListedKeeps(table: seq<Run>, listed: seq<nat>, removed: set<string>, k: nat)
    requires forall i | 0 <= i < |listed| :: listed[i] < |table|
    requires k in listed && table[k].action.id !in removed
    ensures k in KeepListed(table, listed, removed)
  {
    if k != listed[|listed| - 1] { KeepListedKeeps(table, listed[..|listed| - 1], removed, k); }
  }

  /** An accepted update leaves the base alone: elements before the stitch are the same objects,
      the stitch keeps its id, number and release, nothing released is taken back, no action
      changes its status, base actions stay listed, and the edge being driven stays current. */
  lemma UpdateLeavesBaseAlone(r: Robot, o: Order, s: Surroundings)
    requires RobotOk(r) && Decide(r, o, s).Accept? && Decide(r, o, s).isUpdate
    ensures |o.nodes| >= 1
    ensures var r' := OnOrder(r, o, s);
            var stitch := o.nodes[0].seqId;
            && DecisionPoint(r.nodes) == Some((o.nodes[0].id, stitch))
            && stitch in r.nodes && stitch in r'.nodes
            && r'.nodes[stitch].id == r.nodes[stitch].id
            && r'.nodes[stitch].seqId == stitch && r'.nodes[stitch].released
            && (forall k | k in r.nodes && k < stitch :: k in r'.nodes && r'.nodes[k] == r.nodes[k])
            && (forall k | k in r.edges && k < stitch :: k in r'.edges && r'.edges[k] == r.edges[k])
            && (forall k | k in r.nodes && r.nodes[k].released :: k in r'.nodes && r'.nodes[k].released)
            && (forall k | k in r.edges && r.edges[k].edge.released :: k in r'.edges && r'.edges[k].edge.released)
            && (Current(r) ==> Current(r'))
            && r'.lastSeq == r.lastSeq && r'.lastNodeId == r.lastNodeId
            && r.engine.table <= r'.engine.table
            && (forall k | k in r.actionStates && r.engine.table[k].action.id !in HorizonIds(r, stitch) ::
                 k in r'.actionStates)
  {
    AcceptedIsChain(r, o, s);
    var more :| Chain(o, s.carryIds, more);
    var lo, at, base, n := AcceptedUpdateStitches(r, o, s);
    UpdatedBase(r, o, s.carryIds, more, lo, at, base, n);
    ChainDecisionPoint(r.nodes, r.edges, lo, base, n);
    UpdatedDriver(r, o, lo, at, base, n);
    UpdatedActions(r, o);
  }

  lemma UpdatedActions(r: Robot, o: Order)
    requires RefsOk(r) && |o.nodes| >= 1
    ensures r.engine.table <= UpdateLedger(r, o).table
    ensures forall k | k in r.actionStates && r.engine.table[k].action.id !in HorizonIds(r, o.nodes[0].seqId) ::
              k in UpdateLedger(r, o).listed
  {
    UpdatedRefs(r, o);
    var pruned := PrunedLedger(r, o.nodes[0].seqId);
    RegisterAllValid(pruned, Items(StitchActions(r, o), OnNode, o.nodes[0].seqId));
    RegisterAllValid(StitchLedger(r, o), NodeItems(o.nodes[1..]) + EdgeItems(o.edges));
    forall k | k in r.actionStates && r.engine.table[k].action.id !in HorizonIds(r, o.nodes[0].seqId)
      ensures k in UpdateLedger(r, o).listed
    {
      KeepListedKeeps(r.engine.table, r.actionStates, HorizonIds(r, o.nodes[0].seqId), k);
      assert pruned.listed <= UpdateLedger(r, o).listed;
    }
  }

  lemma UpdatedBase(r: Robot, o: Order, carryIds: bool, more: int, lo: int, at: int, base: int, n: int)
    requires RefsOk(r) && Laid(r, lo, at, base, n) && Chain(o, carryIds, more)
    requires o.nodes[0].seqId == NodeNumber(lo, base - 1) && o.nodes[0].id == r.nodes[NodeNumber(lo, base - 1)].id
    ensures var nodes := StitchNodes(r.nodes, o.nodes);
            var stitch := o.nodes[0].seqId;
            var edges := StitchEdges(r.edges, o.edges, stitch, r.accepted);
            && stitch in r.nodes && stitch in nodes
            && nodes[stitch].id == r.nodes[stitch].id && nodes[stitch].seqId == stitch && nodes[stitch].released
            && (forall k | k in r.nodes && k < stitch :: k in nodes && nodes[k] == r.nodes[k])
            && (forall k | k in r.edges && k < stitch :: k in edges && edges[k] == r.edges[k])
            && (forall k | k in r.nodes && r.nodes[k].released :: k in nodes && nodes[k].released)
            && (forall k | k in r.edges && r.edges[k].edge.released :: k in edges && edges[k].edge.released)
  {
    StitchedNodes(r.nodes, o.nodes, lo, base, n);
    StitchedEdges(r.edges, o.edges, r.accepted, lo, base, n);
    var nodes := StitchNodes(r.nodes, o.nodes);
    assert nodes[NodeNumber(lo, base - 1)] == o.nodes[0];
    forall k | k in r.nodes && r.nodes[k].released ensures k <= o.nodes[0].seqId {
      assert k in NodeKeys(lo, n);
      var i :| 0 <= i < n && k == NodeNumber(lo, i);
      assert NodeStored(r.nodes[k], lo, base, i);
    }
    forall k | k in r.edges && r.edges[k].edge.released ensures k < o.nodes[0].seqId {
      assert k in EdgeKeys(lo, n - 1);
      var i :| 0 <= i < n - 1 && k == EdgeNumber(lo, i);
      assert EdgeStored(r.edges[k].edge, lo, base, i);
    }
    forall k | k in r.nodes && k < o.nodes[0].seqId ensures k in nodes && nodes[k] == r.nodes[k] {
      assert k in NodeKeys(lo, n);
    }
    forall k | k in r.edges && k < o.nodes[0].seqId
      ensures k in StitchEdges(r.edges, o.edges, o.nodes[0].seqId, r.accepted)
      ensures StitchEdges(r.edges, o.edges, o.nodes[0].seqId, r.accepted)[k] == r.edges[k]
    {
      assert k in EdgeKeys(lo, n - 1);
    }
  }

  // --------------------------------------------------------------- cancel

  lemma ListedIsCovered(r: Robot, requested: Option<string>, i: nat)
    requires RefsOk(r) && ListedOk(r) && CancelMatches(r, requested) && i < |r.actionStates|
    ensures Cancel(r, requested).engine.table[r.actionStates[i]].Settled()
            || r.actionStates[i] in AwaitedByCancel(r, requested)
  {
    assert ListedRunOk(r, r.actionStates[i]);
  }

  /** Right after cancelOrder's clear pass the graph and the state lists are empty, and every
      action of the order has settled or is among the runs the cancel waits for, also those on
      nodes that were never reached. */
  lemma CancelCoversEveryAction(r: Robot, requested: Option<string>)
    requires RobotOk(r) && CancelMatches(r, requested)
    ensures var r' := Cancel(r, requested);
            && RefsOk(r') && Cleared(r') && r'.cancelled && r'.orderId == r.orderId
            && r'.actionStates == r.actionStates
            && (forall i | 0 <= i < |r'.actionStates| ::
                  var k := r'.actionStates[i];
                  r'.engine.table[k].Settled() || k in AwaitedByCancel(r, requested))
    ensures forall k | k in AwaitedByCancel(r, requested) :: k in r.engine.active && Outstanding(r.engine.table[k])
  {
    forall i | 0 <= i < |r.actionStates|
      ensures Cancel(r, requested).engine.table[r.actionStates[i]].Settled()
              || r.actionStates[i] in AwaitedByCancel(r, requested)
    {
      ListedIsCovered(r, requested, i);
    }
    AwaitedAreOutstanding(r, requested);
  }

  lemma AwaitedAreOutstanding(r: Robot, requested: Option<string>)
    requires RefsOk(r) && CancelMatches(r, requested)
    ensures forall k | k in AwaitedByCancel(r, requested) :: k in r.engine.active && Outstanding(r.engine.table[k])
  {
    var table := CancelOrderActions(r.engine).table;
    forall k | k in AwaitedByCancel(r, requested) ensures Outstanding(r.engine.table[k]) {
      assert Outstanding(table[k]) && table[k] == CancelledRun(r.engine, k);
    }
  }

  // --------------------------------------- actions added to the stitch node

  /** The runs an update registers for actions that are new on its stitch node. */
  ghost predicate Added(r: Robot, o: Order, k: nat)
    requires RefsOk(r) && |o.nodes| >= 1
  {
    |r.engine.table| <= k < |StitchLedger(r, o).table|
  }

  /** The node the driver is heading for is still the object it captured when it set off. */
  ghost predicate Captured(r: Robot) {
    Current(r) ==> r.driver.target.seqId in r.nodes && r.driver.target == r.nodes[r.driver.target.seqId]
  }

  lemma {:induction false} PendingIncludes(table: seq<Run>, runs: map<string, nat>, actions: seq<Action>, a: Action)
    requires forall id | id in runs :: runs[id] < |table|
    requires a in actions && a.id in runs && table[runs[a.id]].status == Waiting
    ensures runs[a.id] in PendingRuns(table, runs, actions)
  {
    var n := |actions| - 1;
    if actions[n].id != a.id {
      assert a in actions[..n];
      PendingIncludes(table, runs, actions[..n], a);
    }
  }

  /** Arriving at the node as it is stored hands every waiting action of it to the engine. */
  lemma ArrivalHandsOver(r: Robot, a: Action)
    requires RobotOk(r) && Current(r) && Captured(r)
    requires a in r.nodes[r.driver.target.seqId].actions && a.id in r.runs
    requires r.engine.table[r.runs[a.id]].status == Waiting && r.engine.table[r.runs[a.id]].origin == OnNode
    ensures r.runs[a.id] in Arrive(r).engine.queue
  {
    var table := FinishEdgeActions(r.engine, r.driver.edge.edge.seqId).table;
    PendingIncludes(table, r.runs, r.driver.target.actions, a);
  }

  lemma CapturedWithoutDelivery(r: Robot, step: Step)
    requires RobotOk(r) && Captured(r) && !step.Delivered? && !step.InstantAsked?
    ensures Captured(Next(r, step))
  {
  }

  /** Nothing but an update that stitches onto the driver's target replaces that object. */
  lemma CapturedUnlessRestitched(r: Robot, step: Step)
    requires RobotOk(r) && Captured(r)
    requires step.Delivered? && Current(r) && Decide(r, step.order, step.around).Accept? ==>
               |step.order.nodes| >= 1 && step.order.nodes[0].seqId != r.driver.target.seqId
    ensures Captured(Next(r, step))
  {
    if step.Delivered? {
      CapturedOnDelivery(r, step.order, step.around);
    } else if step.InstantAsked? {
      assert Captured(StartInstant(r, step.action, step.supported));
    } else {
      CapturedWithoutDelivery(r, step);
    }
  }

  lemma CapturedOnDelivery(r: Robot, o: Order, s: Surroundings)
    requires RobotOk(r) && Captured(r)
    requires Current(r) && Decide(r, o, s).Accept? ==> |o.nodes| >= 1 && o.nodes[0].seqId != r.driver.target.seqId
    ensures Captured(OnOrder(r, o, s))
  {
    if Decide(r, o, s).Accept? && Current(OnOrder(r, o, s)) {
      AcceptedIsChain(r, o, s);
      var more :| Chain(o, s.carryIds, more);
      IndexedTags(o.edges, r.accepted);
      if Decide(r, o, s).isUpdate { RestitchedElsewhere(r, o, s, more); }
    }
  }

  lemma RestitchedElsewhere(r: Robot, o: Order, s: Surroundings, more: int)
    requires RobotOk(r) && Captured(r) && Chain(o, s.carryIds, more)
    requires Decide(r, o, s).Accept? && Decide(r, o, s).isUpdate
    requires Current(OnOrder(r, o, s)) && (Current(r) ==> o.nodes[0].seqId != r.driver.target.seqId)
    ensures Captured(OnOrder(r, o, s))
  {
    var lo, at, base, n := AcceptedUpdateStitches(r, o, s);
    IndexedTags(o.edges, r.accepted);
    assert Current(r);
    var k := r.driver.edge.edge.seqId;
    assert k in EdgeKeys(lo, n - 1) && k == EdgeNumber(lo, at);
    assert EdgeStored(r.edges[k].edge, lo, base, at);
    assert r.driver.target.seqId == NodeNumber(lo, at + 1);
    StitchedNodes(r.nodes, o.nodes, lo, base, n);
  }

  lemma AddedIsRegistered(r: Robot, o: Order, k: nat)
    requires RefsOk(r) && ListedOk(r) && |o.nodes| >= 1 && Added(r, o, k)
    ensures var l := UpdateLedger(r, o);
            LedgerOk(l) && k < |l.table| && Scheduled(l.table[k]) && k in l.listed
  {
    var pruned := PrunedLedger(r, o.nodes[0].seqId);
    PrunedLedgerOk(r, o.nodes[0].seqId);
    AddedAreListed(pruned, Items(StitchActions(r, o), OnNode, o.nodes[0].seqId), k);
    NodeItemsOrigin(o.nodes[1..]);
    EdgeItemsOrigin(o.edges);
    RegisterAllOk(pruned, Items(StitchActions(r, o), OnNode, o.nodes[0].seqId));
    RegisterAllOk(StitchLedger(r, o), NodeItems(o.nodes[1..]) + EdgeItems(o.edges));
    assert UpdateLedger(r, o).table[k] == StitchLedger(r, o).table[k];
  }

  lemma AddedIsInQueue(r: Robot, o: Order, k: nat)
    requires RefsOk(r) && |o.nodes| >= 1 && Added(r, o, k)
    ensures k in UpdateEngine(r, o).queue <==> r.lastSeq >= o.nodes[0].seqId
    ensures k !in UpdateEngine(r, o).active
  {
    assert Range(|r.engine.table|, |StitchLedger(r, o).table|)[k - |r.engine.table|] == k;
  }

  lemma UpdateFields(r: Robot, o: Order, s: Surroundings)
    requires RefsOk(r) && Decide(r, o, s).Accept? && Decide(r, o, s).isUpdate && |o.nodes| >= 1
    ensures var r' := OnOrder(r, o, s);
            && r'.engine == UpdateEngine(r, o)
            && Ledger(r'.engine.table, r'.runs, r'.actionStates) == UpdateLedger(r, o)
  {
  }

  /** Where an action ends up that an update adds to its stitch node: it is listed and waits, and
      it is in the queue exactly when the robot had reached that node. */
  lemma AddedActionIsQueued(r: Robot, o: Order, s: Surroundings, k: nat)
    requires RobotOk(r) && Decide(r, o, s).Accept? && Decide(r, o, s).isUpdate && |o.nodes| >= 1
    requires Added(r, o, k)
    ensures var r' := OnOrder(r, o, s);
            && k < |r'.engine.table| && Scheduled(r'.engine.table[k])
            && k in r'.actionStates && k !in r'.engine.active
            && r'.engine.table[k].action.id in r'.runs && r'.runs[r'.engine.table[k].action.id] == k
            && (k in r'.engine.queue <==> r.lastSeq >= o.nodes[0].seqId)
  {
    UpdateFields(r, o, s);
    AddedIsRegistered(r, o, k);
    AddedIsInQueue(r, o, k);
  }

  lemma {:induction false} AddedAreListed(l: Ledger, items: seq<Item>, k: nat)
    requires LedgerOk(l) && forall i | 0 <= i < |items| :: items[i].origin != Instant
    requires |l.table| <= k < |RegisterAll(l, items).table|
    ensures k in RegisterAll(l, items).listed
  {
    var n := |items| - 1;
    RegisterAllOk(l, items[..n]);
    if k < |RegisterAll(l, items[..n]).table| { AddedAreListed(l, items[..n], k); }
  }

  lemma {:induction false} AddedIdsAreNew(l: Ledger, actions: seq<Action>, known: set<string>, origin: Origin,
                                          element: int, k: nat)
    requires LedgerOk(l) && origin != Instant
    requires forall i | 0 <= i < |actions| :: actions[i].id !in known
    requires |l.table| <= k < |RegisterAll(l, Items(actions, origin, element)).table|
    ensures RegisterAll(l, Items(actions, origin, element)).table[k].action.id !in known
  {
    var n := |actions| - 1;
    var items := Items(actions, origin, element);
    assert items[..n] == Items(actions[..n], origin, element);
    RegisterAllOk(l, items[..n]);
    if k < |RegisterAll(l, items[..n]).table| { AddedIdsAreNew(l, actions[..n], known, origin, element, k); }
  }

  lemma {:induction false} UnknownIds(actions: seq<Action>, known: set<string>)
    ensures forall i | 0 <= i < |Unknown(actions, known)| :: Unknown(actions, known)[i].id !in known
  {
    if actions != [] { UnknownIds(actions[..|actions| - 1], known); }
  }

  lemma AddedIdIsUnknown(r: Robot, o: Order, k: nat)
    requires RefsOk(r) && ListedOk(r) && |o.nodes| >= 1 && o.nodes[0].seqId in r.nodes && Added(r, o, k)
    ensures k < |UpdateLedger(r, o).table|
    ensures forall a | a in r.nodes[o.nodes[0].seqId].actions :: a.id != UpdateLedger(r, o).table[k].action.id
  {
    var stitch := o.nodes[0].seqId;
    var known := set a | a in r.nodes[stitch].actions :: a.id;
    UnknownIds(o.nodes[0].actions, known);
    PrunedLedgerOk(r, stitch);
    AddedIdsAreNew(PrunedLedger(r, stitch), StitchActions(r, o), known, OnNode, stitch, k);
    RegisterAllValid(PrunedLedger(r, stitch), Items(StitchActions(r, o), OnNode, stitch));
    RegisterAllValid(StitchLedger(r, o), NodeItems(o.nodes[1..]) + EdgeItems(o.edges));
  }

  /** A run none of the captured node's actions names stays outside the queue on arrival. */
  lemma ArrivalPassesOver(r: Robot, k: nat)
    requires RobotOk(r) && Current(r) && k < |r.engine.table| && Scheduled(r.engine.table[k])
    requires k !in r.engine.queue && k !in r.engine.active && k in r.actionStates
    requires forall a | a in r.driver.target.actions :: a.id != r.engine.table[k].action.id
    ensures var there := Arrive(r);
            && RefsOk(there) && !IsIdle(there) && k in there.actionStates
            && there.engine.table[k].status == Waiting && k !in there.engine.queue && k !in there.engine.active
  {
    ArriveListed(r);
    var j :| 0 <= j < |r.actionStates| && r.actionStates[j] == k;
    assert Arrive(r).actionStates[j] == k;
    var table := FinishEdgeActions(r.engine, r.driver.edge.edge.seqId).table;
    if k in PendingRuns(table, r.runs, r.driver.target.actions) {
      PendingComesFrom(table, r.runs, r.driver.target.actions, k);
      assert false;
    }
  }

  /** The exception: the arrival at the node the robot is driving towards passes over an action that was
      added on the way. It still waits, outside queue and active list, and keeps the robot from being
      idle. */
  lemma AddedMidEdgeIsStranded(r: Robot, o: Order, s: Surroundings, k: nat)
    requires RobotOk(r) && Current(r) && Captured(r)
    requires Decide(r, o, s).Accept? && Decide(r, o, s).isUpdate && |o.nodes| >= 1
    requires o.nodes[0].seqId == r.driver.target.seqId && Added(r, o, k)
    ensures var there := OnOrder(r, o, s);
            && RobotOk(there) && Current(there) && there.lastSeq < o.nodes[0].seqId
            && Arrive(there).lastSeq == o.nodes[0].seqId
            && RefsOk(Arrive(there)) && !IsIdle(Arrive(there)) && k in Arrive(there).actionStates
            && Arrive(there).engine.table[k].status == Waiting
            && k !in Arrive(there).engine.queue && k !in Arrive(there).engine.active
  {
    OrderKeeps(r, o, s);
    UpdateLeavesBaseAlone(r, o, s);
    AddedActionIsQueued(r, o, s, k);
    AddedIdIsUnknown(r, o, k);
    ArrivalPassesOver(OnOrder(r, o, s), k);
  }
}
