/** What every step of the robot keeps, and what an accepted update leaves alone. */
module RobotInvariants {
  import opened Vda5050
  import opened OrderAcceptance
  import opened Actions
  import opened RobotModel

  // ----------------------------------------------------------- invariant

  function NodeKeys(lo: int, n: int): set<int> { set i | 0 <= i < n :: NodeNumber(lo, i) }

  function EdgeKeys(lo: int, n: int): set<int> { set i | 0 <= i < n :: EdgeNumber(lo, i) }

  /** The stored graph is one chain of `n` nodes numbered from `lo`; its first `base` nodes and
      the edges between them, and nothing else, are released. */
  ghost predicate ChainStored(nodes: map<int, Node>, edges: map<int, RxEdge>, lo: int, base: int, n: int) {
    && lo % 2 == 0 && 1 <= base <= n
    && nodes.Keys == NodeKeys(lo, n)
    && edges.Keys == EdgeKeys(lo, n - 1)
    && (forall i | 0 <= i < n :: NodeNumber(lo, i) in nodes && NodeStored(nodes[NodeNumber(lo, i)], lo, base, i))
    && (forall i | 0 <= i < n - 1 ::
          EdgeNumber(lo, i) in edges && EdgeStored(edges[EdgeNumber(lo, i)].edge, lo, base, i))
  }

  ghost predicate NodeStored(node: Node, lo: int, base: int, i: int) {
    node.seqId == NodeNumber(lo, i) && (node.released <==> i < base)
  }

  ghost predicate EdgeStored(edge: Edge, lo: int, base: int, i: int) {
    edge.seqId == EdgeNumber(lo, i) && (edge.released <==> i < base - 1)
  }

  /** The state lists are exactly the stored elements beyond node number `at`, in order. */
  ghost predicate NodesAhead(states: seq<ElementState>, nodes: map<int, Node>, lo: int, at: int, n: int) {
    && |states| == n - 1 - at
    && forall i | 0 <= i < n - 1 - at ::
         NodeNumber(lo, at + 1 + i) in nodes && states[i] == NodeState(nodes[NodeNumber(lo, at + 1 + i)])
  }

  ghost predicate EdgesAhead(states: seq<ElementState>, edges: map<int, RxEdge>, lo: int, at: int, n: int) {
    && |states| == n - 1 - at
    && forall i | 0 <= i < n - 1 - at ::
         EdgeNumber(lo, at + i) in edges && states[i] == EdgeState(edges[EdgeNumber(lo, at + i)].edge)
  }

  /** The robot stands on or has left node `at` of a stored chain and has not passed the last
      released node. */
  ghost predicate Laid(r: Robot, lo: int, at: int, base: int, n: int) {
    && ChainStored(r.nodes, r.edges, lo, base, n)
    && 0 <= at < base
    && r.lastSeq == NodeNumber(lo, at)
    && r.nodes[NodeNumber(lo, at)].id == r.lastNodeId
    && NodesAhead(r.nodeStates, r.nodes, lo, at, n)
    && EdgesAhead(r.edgeStates, r.edges, lo, at, n)
  }

  ghost predicate Cleared(r: Robot) {
    r.nodes == map[] && r.edges == map[] && r.nodeStates == [] && r.edgeStates == []
  }

  ghost predicate GraphOk(r: Robot) {
    Cleared(r) || exists lo, at, base, n :: Laid(r, lo, at, base, n)
  }

  /** No stored or driven edge is newer than the last accepted message; a driven edge that is
      still current leads away from the last node along the base. */
  ghost predicate DriverOk(r: Robot) {
    && (forall k | k in r.edges :: r.edges[k].tag < r.accepted)
    && (r.driver.Driving? ==> r.driver.edge.tag < r.accepted)
    && (Current(r) ==>
          && r.edges[r.driver.edge.edge.seqId] == r.driver.edge
          && r.driver.edge.edge.seqId == r.lastSeq + 1
          && r.driver.edge.edge.released
          && r.lastSeq + 2 in r.nodes
          && r.driver.target.seqId == r.lastSeq + 2
          && r.driver.target.id == r.nodes[r.lastSeq + 2].id)
  }

  /** Every run is registered under its own id, and every listed run is an order action, registered
      under its id, and either in the engine's active list or not started: waiting or settled. */
  ghost predicate ListedOk(r: Robot)
    requires RefsOk(r)
  {
    && (forall id | id in r.runs :: r.engine.table[r.runs[id]].action.id == id)
    && forall i | 0 <= i < |r.actionStates| :: ListedRunOk(r, r.actionStates[i])
  }

  ghost predicate ListedRunOk(r: Robot, k: nat)
    requires k < |r.engine.table|
  {
    var run := r.engine.table[k];
    && run.origin != Instant
    && run.action.id in r.runs && r.runs[run.action.id] == k
    && (k in r.engine.active || (run.task == NoTask && (run.status == Waiting || run.Settled())))
  }

  ghost predicate RobotOk(r: Robot) {
    RefsOk(r) && GraphOk(r) && DriverOk(r) && ListedOk(r)
  }

  /** A robot state that satisfies the invariant. */
  type SoundRobot = r: Robot | RobotOk(r) ghost witness Idle

  // ------------------------------------------------------- list and map facts

  lemma {:induction false} UpToPrefix(states: seq<ElementState>, last: int, k: nat)
    requires k <= |states|
    requires forall i | 0 <= i < |states| :: states[i].seqId <= last <==> i < k
    ensures UpTo(states, last) == states[..k]
  {
    if states != [] {
      var n := |states| - 1;
      UpToPrefix(states[..n], last, if k <= n then k else n);
      assert k <= n ==> states[..n][..k] == states[..k];
      assert k == n + 1 ==> states[..k] == states[..n] + [states[n]];
    }
  }

  lemma {:induction false} WithoutAbsent(states: seq<ElementState>, number: int)
    requires forall i | 0 <= i < |states| :: states[i].seqId != number
    ensures Without(states, number) == states
  {
    if states != [] {
      WithoutAbsent(states[..|states| - 1], number);
      assert states == states[..|states| - 1] + [states[|states| - 1]];
    }
  }

  lemma {:induction false} WithoutFirst(states: seq<ElementState>, number: int)
    requires states != [] && states[0].seqId == number
    requires forall i | 1 <= i < |states| :: states[i].seqId != number
    ensures Without(states, number) == states[1..]
  {
    var n := |states| - 1;
    if n > 0 {
      WithoutFirst(states[..n], number);
      assert states[..n][1..] + [states[n]] == states[1..];
    }
  }

  lemma {:induction false} IndexedNodes(nodes: seq<Node>, start: int)
    requires forall i | 0 <= i < |nodes| :: nodes[i].seqId == NodeNumber(start, i)
    ensures IndexNodes(nodes).Keys == NodeKeys(start, |nodes|)
    ensures forall i | 0 <= i < |nodes| ::
              NodeNumber(start, i) in IndexNodes(nodes) && IndexNodes(nodes)[NodeNumber(start, i)] == nodes[i]
  {
    if nodes != [] {
      var n := |nodes| - 1;
      IndexedNodes(nodes[..n], start);
      assert nodes[n].seqId == NodeNumber(start, n);
      assert NodeKeys(start, n + 1) == NodeKeys(start, n) + {NodeNumber(start, n)};
    }
  }

  lemma {:induction false} IndexedEdges(edges: seq<Edge>, start: int, tag: nat)
    requires forall i | 0 <= i < |edges| :: edges[i].seqId == EdgeNumber(start, i)
    ensures IndexEdges(edges, tag).Keys == EdgeKeys(start, |edges|)
    ensures forall i | 0 <= i < |edges| ::
              EdgeNumber(start, i) in IndexEdges(edges, tag)
                && IndexEdges(edges, tag)[EdgeNumber(start, i)] == RxEdge(tag, edges[i])
  {
    if edges != [] {
      var n := |edges| - 1;
      IndexedEdges(edges[..n], start, tag);
      assert EdgeKeys(start, n + 1) == EdgeKeys(start, n) + {EdgeNumber(start, n)};
    }
  }

  lemma ChainDecisionPoint(nodes: map<int, Node>, edges: map<int, RxEdge>, lo: int, base: int, n: int)
    requires ChainStored(nodes, edges, lo, base, n)
    ensures DecisionPoint(nodes) == Some((nodes[NodeNumber(lo, base - 1)].id, NodeNumber(lo, base - 1)))
  {
    var d := NodeNumber(lo, base - 1);
    forall k | k in nodes && nodes[k].released ensures k <= d {
      assert k in NodeKeys(lo, n);
    }
    assert NodeStored(nodes[d], lo, base, base - 1);
    assert IsDecisionPoint(nodes, d);
    forall s | IsDecisionPoint(nodes, s) ensures s == d {}
  }

  // ---------------------------------------------------------------- graph

  lemma LaidOutIsLaid(r: Robot, o: Order, carryIds: bool, base: int)
    requires RefsOk(r) && Chain(o, carryIds, base)
    ensures Laid(LaidOut(r, o), o.nodes[0].seqId, 0, base, |o.nodes|)
  {
    IndexedNodes(o.nodes, o.nodes[0].seqId);
    IndexedEdges(o.edges, o.nodes[0].seqId, r.accepted);
  }

  lemma StitchedNodes(nodes: map<int, Node>, sent: seq<Node>, lo: int, base: int, n: int)
    requires 1 <= base <= n && nodes.Keys == NodeKeys(lo, n)
    requires |sent| >= 1 && forall i | 0 <= i < |sent| :: sent[i].seqId == NodeNumber(NodeNumber(lo, base - 1), i)
    ensures var nodes' := StitchNodes(nodes, sent);
            && nodes'.Keys == NodeKeys(lo, base - 1 + |sent|)
            && (forall i | 0 <= i < base - 1 ::
                 NodeNumber(lo, i) in nodes && nodes'[NodeNumber(lo, i)] == nodes[NodeNumber(lo, i)])
            && (forall i | base - 1 <= i < base - 1 + |sent| ::
                  NodeNumber(lo, i) in nodes' && nodes'[NodeNumber(lo, i)] == sent[i - (base - 1)])
  {
    var d := NodeNumber(lo, base - 1);
    IndexedNodes(sent, d);
    var nodes' := StitchNodes(nodes, sent);
    forall i | 0 <= i < base - 1
      ensures NodeNumber(lo, i) in nodes && NodeNumber(lo, i) in nodes'
      ensures nodes'[NodeNumber(lo, i)] == nodes[NodeNumber(lo, i)]
    {
      assert NodeNumber(lo, i) in NodeKeys(lo, n) && NodeNumber(lo, i) !in NodeKeys(d, |sent|);
    }
    forall i | base - 1 <= i < base - 1 + |sent|
      ensures NodeNumber(lo, i) in nodes' && nodes'[NodeNumber(lo, i)] == sent[i - (base - 1)]
    {
      assert NodeNumber(lo, i) == NodeNumber(d, i - (base - 1));
    }
    forall k | k in nodes' ensures k in NodeKeys(lo, base - 1 + |sent|) {
      if k in IndexNodes(sent) {
        var j :| 0 <= j < |sent| && k == NodeNumber(d, j);
        assert k == NodeNumber(lo, base - 1 + j);
      } else {
        assert k in NodeKeys(lo, n);
      }
    }
  }

  lemma StitchedEdges(edges: map<int, RxEdge>, sent: seq<Edge>, tag: nat, lo: int, base: int, n: int)
    requires 1 <= base <= n && edges.Keys == EdgeKeys(lo, n - 1)
    requires forall i | 0 <= i < |sent| :: sent[i].seqId == EdgeNumber(NodeNumber(lo, base - 1), i)
    ensures var edges' := StitchEdges(edges, sent, NodeNumber(lo, base - 1), tag);
            && edges'.Keys == EdgeKeys(lo, base - 1 + |sent|)
            && (forall i | 0 <= i < base - 1 ::
                 EdgeNumber(lo, i) in edges && edges'[EdgeNumber(lo, i)] == edges[EdgeNumber(lo, i)])
            && (forall i | base - 1 <= i < base - 1 + |sent| ::
                  EdgeNumber(lo, i) in edges' && edges'[EdgeNumber(lo, i)] == RxEdge(tag, sent[i - (base - 1)]))
  {
    var d := NodeNumber(lo, base - 1);
    IndexedEdges(sent, d, tag);
    var edges' := StitchEdges(edges, sent, d, tag);
    forall i | 0 <= i < base - 1
      ensures EdgeNumber(lo, i) in edges && EdgeNumber(lo, i) in edges'
      ensures edges'[EdgeNumber(lo, i)] == edges[EdgeNumber(lo, i)]
    {
      assert EdgeNumber(lo, i) in EdgeKeys(lo, n - 1) && EdgeNumber(lo, i) !in EdgeKeys(d, |sent|);
    }
    forall i | base - 1 <= i < base - 1 + |sent|
      ensures EdgeNumber(lo, i) in edges' && edges'[EdgeNumber(lo, i)] == RxEdge(tag, sent[i - (base - 1)])
    {
      assert EdgeNumber(lo, i) == EdgeNumber(d, i - (base - 1));
    }
    forall k | k in edges' ensures k in EdgeKeys(lo, base - 1 + |sent|) {
      if k in IndexEdges(sent, tag) {
        var j :| 0 <= j < |sent| && k == EdgeNumber(d, j);
        assert k == EdgeNumber(lo, base - 1 + j);
      } else {
        assert k in EdgeKeys(lo, n - 1);
      }
    }
  }

  /** Stitching a chain onto the decision point gives a stored chain again. */
  lemma StitchedChain(nodes: map<int, Node>, edges: map<int, RxEdge>, o: Order, tag: nat,
                      carryIds: bool, more: int, lo: int, base: int, n: int)
    requires ChainStored(nodes, edges, lo, base, n)
    requires Chain(o, carryIds, more) && o.nodes[0].seqId == NodeNumber(lo, base - 1)
    ensures ChainStored(StitchNodes(nodes, o.nodes), StitchEdges(edges, o.edges, o.nodes[0].seqId, tag),
                        lo, base - 1 + more, base - 1 + |o.nodes|)
  {
    StitchedNodes(nodes, o.nodes, lo, base, n);
    StitchedEdges(edges, o.edges, tag, lo, base, n);
    var nodes', edges' := StitchNodes(nodes, o.nodes), StitchEdges(edges, o.edges, o.nodes[0].seqId, tag);
    forall i | 0 <= i < base - 1 + |o.nodes| ensures NodeStored(nodes'[NodeNumber(lo, i)], lo, base - 1 + more, i) {
      if i < base - 1 { assert NodeStored(nodes[NodeNumber(lo, i)], lo, base, i); }
    }
    forall i | 0 <= i < base - 1 + |o.edges|
      ensures EdgeStored(edges'[EdgeNumber(lo, i)].edge, lo, base - 1 + more, i)
    {
      if i < base - 1 { assert EdgeStored(edges[EdgeNumber(lo, i)].edge, lo, base, i); }
    }
  }

  /** State lists cut at the stitch and continued from the message describe the stitched graph. */
  lemma NodeStatesStitched(nodes: map<int, Node>, nodes': map<int, Node>, states: seq<ElementState>, sent: seq<Node>,
                           lo: int, at: int, base: int, n: int)
    requires 0 <= at < base <= n && |sent| >= 1
    requires NodesAhead(states, nodes, lo, at, n)
    requires forall i | 0 <= i < n :: NodeNumber(lo, i) in nodes && nodes[NodeNumber(lo, i)].seqId == NodeNumber(lo, i)
    requires forall i | 0 <= i < base - 1 + |sent| :: NodeNumber(lo, i) in nodes'
    requires forall i | 0 <= i < base :: NodeState(nodes'[NodeNumber(lo, i)]) == NodeState(nodes[NodeNumber(lo, i)])
    requires forall i | base - 1 <= i < base - 1 + |sent| :: nodes'[NodeNumber(lo, i)] == sent[i - (base - 1)]
    ensures NodesAhead(UpTo(states, NodeNumber(lo, base - 1)) + NodeStates(sent[1..]), nodes',
                       lo, at, base - 1 + |sent|)
  {
    assert UpTo(states, NodeNumber(lo, base - 1)) == states[..base - 1 - at] by {
      UpToPrefix(states, NodeNumber(lo, base - 1), base - 1 - at);
    }
    var all := states[..base - 1 - at] + NodeStates(sent[1..]);
    forall i | 0 <= i < base - 2 + |sent| - at
      ensures NodeNumber(lo, at + 1 + i) in nodes' && all[i] == NodeState(nodes'[NodeNumber(lo, at + 1 + i)])
    {
      var x := at + 1 + i;
      if x < base { assert all[i] == states[i]; } else { assert all[i] == NodeState(sent[x - (base - 1)]); }
    }
  }

  lemma EdgeStatesStitched(edges: map<int, RxEdge>, edges': map<int, RxEdge>, states: seq<ElementState>,
                           sent: seq<Edge>,
                           lo: int, at: int, base: int, n: int)
    requires 0 <= at < base <= n
    requires EdgesAhead(states, edges, lo, at, n)
    requires forall i | 0 <= i < n - 1 ::
               EdgeNumber(lo, i) in edges && edges[EdgeNumber(lo, i)].edge.seqId == EdgeNumber(lo, i)
    requires forall i | 0 <= i < base - 1 + |sent| :: EdgeNumber(lo, i) in edges'
    requires forall i | 0 <= i < base - 1 :: edges'[EdgeNumber(lo, i)] == edges[EdgeNumber(lo, i)]
    requires forall i | base - 1 <= i < base - 1 + |sent| :: edges'[EdgeNumber(lo, i)].edge == sent[i - (base - 1)]
    ensures EdgesAhead(UpTo(states, NodeNumber(lo, base - 1)) + EdgeStates(sent), edges', lo, at, base + |sent|)
  {
    assert UpTo(states, NodeNumber(lo, base - 1)) == states[..base - 1 - at] by {
      UpToPrefix(states, NodeNumber(lo, base - 1), base - 1 - at);
    }
    var all := states[..base - 1 - at] + EdgeStates(sent);
    forall i | 0 <= i < base + |sent| - 1 - at
      ensures EdgeNumber(lo, at + i) in edges' && all[i] == EdgeState(edges'[EdgeNumber(lo, at + i)].edge)
    {
      var x := at + i;
      if x < base - 1 { assert all[i] == states[i]; } else { assert all[i] == EdgeState(sent[x - (base - 1)]); }
    }
  }

  lemma StoredNumbers(nodes: map<int, Node>, edges: map<int, RxEdge>, lo: int, base: int, n: int)
    requires ChainStored(nodes, edges, lo, base, n)
    ensures forall i | 0 <= i < n :: nodes[NodeNumber(lo, i)].seqId == NodeNumber(lo, i)
    ensures forall i | 0 <= i < n - 1 :: edges[EdgeNumber(lo, i)].edge.seqId == EdgeNumber(lo, i)
  {
    forall i | 0 <= i < n ensures nodes[NodeNumber(lo, i)].seqId == NodeNumber(lo, i) {
      assert NodeStored(nodes[NodeNumber(lo, i)], lo, base, i);
    }
    forall i | 0 <= i < n - 1 ensures edges[EdgeNumber(lo, i)].edge.seqId == EdgeNumber(lo, i) {
      assert EdgeStored(edges[EdgeNumber(lo, i)].edge, lo, base, i);
    }
  }

  lemma UpdatedIsLaid(r: Robot, o: Order, carryIds: bool, more: int, lo: int, at: int, base: int, n: int)
    requires RefsOk(r) && Laid(r, lo, at, base, n) && Chain(o, carryIds, more)
    requires o.nodes[0].seqId == NodeNumber(lo, base - 1) && o.nodes[0].id == r.nodes[NodeNumber(lo, base - 1)].id
    ensures Laid(Updated(r, o), lo, at, base - 1 + more, base - 1 + |o.nodes|)
  {
    StitchedChain(r.nodes, r.edges, o, r.accepted, carryIds, more, lo, base, n);
    StitchedNodes(r.nodes, o.nodes, lo, base, n);
    StitchedEdges(r.edges, o.edges, r.accepted, lo, base, n);
    StoredNumbers(r.nodes, r.edges, lo, base, n);
    assert NodeStored(r.nodes[NodeNumber(lo, base - 1)], lo, base, base - 1);
    NodeStatesStitched(r.nodes, StitchNodes(r.nodes, o.nodes), r.nodeStates, o.nodes, lo, at, base, n);
    EdgeStatesStitched(r.edges, StitchEdges(r.edges, o.edges, o.nodes[0].seqId, r.accepted), r.edgeStates, o.edges,
                       lo, at, base, n);
  }

  lemma ArriveIsLaid(r: Robot, lo: int, at: int, base: int, n: int)
    requires RefsOk(r) && Laid(r, lo, at, base, n) && DriverOk(r) && Current(r)
    ensures Laid(Arrive(r), lo, at + 1, base, n)
  {
    var node, edge := NodeNumber(lo, at + 1), EdgeNumber(lo, at);
    assert edge == r.lastSeq + 1 && node == r.lastSeq + 2;
    assert node in NodeKeys(lo, n);
    assert edge in EdgeKeys(lo, n - 1);
    assert EdgeStored(r.edges[edge].edge, lo, base, at);
    forall i | 0 <= i < |r.nodeStates| ensures r.nodeStates[i].seqId == NodeNumber(lo, at + 1 + i) {
      assert NodeStored(r.nodes[NodeNumber(lo, at + 1 + i)], lo, base, at + 1 + i);
    }
    forall i | 0 <= i < |r.edgeStates| ensures r.edgeStates[i].seqId == EdgeNumber(lo, at + i) {
      assert EdgeStored(r.edges[EdgeNumber(lo, at + i)].edge, lo, base, at + i);
    }
    WithoutFirst(r.nodeStates, node);
    WithoutFirst(r.edgeStates, edge);
    var r' := Arrive(r);
    forall i | 0 <= i < |r'.nodeStates|
      ensures r'.nodeStates[i] == NodeState(r'.nodes[NodeNumber(lo, at + 2 + i)])
    {
      assert at + 1 + (i + 1) == at + 2 + i;
    }
    forall i | 0 <= i < |r'.edgeStates|
      ensures r'.edgeStates[i] == EdgeState(r'.edges[EdgeNumber(lo, at + 1 + i)].edge)
    {
      assert at + (i + 1) == at + 1 + i;
    }
  }

  // ---------------------------------------------------------------- runs

  lemma {:induction false} PendingComesFrom(table: seq<Run>, runs: map<string, nat>, actions: seq<Action>, k: nat)
    requires forall id | id in runs :: runs[id] < |table|
    requires k in PendingRuns(table, runs, actions)
    ensures exists i | 0 <= i < |actions| :: actions[i].id in runs && runs[actions[i].id] == k
  {
    var n := |actions| - 1;
    if !(actions[n].id in runs && runs[actions[n].id] == k) {
      PendingComesFrom(table, runs, actions[..n], k);
    }
  }

  ghost predicate LedgerOk(l: Ledger) {
    && (forall id | id in l.runs :: l.runs[id] < |l.table| && l.table[l.runs[id]].action.id == id)
    && forall i | 0 <= i < |l.listed| ::
         && l.listed[i] < |l.table|
         && l.table[l.listed[i]].origin != Instant
         && l.table[l.listed[i]].action.id in l.runs
         && l.runs[l.table[l.listed[i]].action.id] == l.listed[i]
  }

  /** Registration appends scheduled runs and disturbs no entry that exists. */
  lemma {:induction false} RegisterAllOk(l: Ledger, items: seq<Item>)
    requires LedgerOk(l)
    requires forall i | 0 <= i < |items| :: items[i].origin != Instant
    ensures var l' := RegisterAll(l, items);
            && LedgerOk(l')
            && l.table <= l'.table && l.listed <= l'.listed
            && (forall id | id in l.runs :: id in l'.runs && l'.runs[id] == l.runs[id])
            && (forall k | |l.table| <= k < |l'.table| :: Scheduled(l'.table[k]))
            && (forall i | |l.listed| <= i < |l'.listed| :: l'.listed[i] >= |l.table|)
  {
    if items != [] { RegisterAllOk(l, items[..|items| - 1]); }
  }

  lemma {:induction false} NodeItemsOrigin(nodes: seq<Node>)
    ensures forall i | 0 <= i < |NodeItems(nodes)| :: NodeItems(nodes)[i].origin == OnNode
  {
    if nodes != [] { NodeItemsOrigin(nodes[..|nodes| - 1]); }
  }

  lemma {:induction false} EdgeItemsOrigin(edges: seq<Edge>)
    ensures forall i | 0 <= i < |EdgeItems(edges)| :: EdgeItems(edges)[i].origin == OnEdge
  {
    if edges != [] { EdgeItemsOrigin(edges[..|edges| - 1]); }
  }

  lemma LaidOutListed(r: Robot, o: Order)
    requires RefsOk(r) && ListedOk(r) && |o.nodes| >= 1
    ensures RefsOk(LaidOut(r, o)) && ListedOk(LaidOut(r, o))
  {
    LaidOutRefs(r, o);
    NodeItemsOrigin(o.nodes);
    EdgeItemsOrigin(o.edges);
    RegisterAllOk(Ledger(ResetForOrder(r.engine, r.runs.Values).table, InstantRuns(r), []),
                  NodeItems(o.nodes) + EdgeItems(o.edges));
  }

  lemma PrunedLedgerOk(r: Robot, stitch: int)
    requires RefsOk(r) && ListedOk(r)
    ensures LedgerOk(PrunedLedger(r, stitch))
  {
    var pruned := PrunedLedger(r, stitch);
    forall i | 0 <= i < |pruned.listed| ensures ListedRunOk(r, pruned.listed[i]) {
      var j :| 0 <= j < |r.actionStates| && r.actionStates[j] == pruned.listed[i];
      assert ListedRunOk(r, r.actionStates[j]);
    }
  }

  lemma UpdateLedgerGrows(r: Robot, o: Order)
    requires RefsOk(r) && ListedOk(r) && |o.nodes| >= 1
    ensures var pruned, l := PrunedLedger(r, o.nodes[0].seqId), UpdateLedger(r, o);
            && LedgerOk(pruned) && LedgerOk(l) && pruned.table <= l.table && pruned.listed <= l.listed
            && (forall id | id in pruned.runs :: id in l.runs && l.runs[id] == pruned.runs[id])
            && (forall i | |pruned.listed| <= i < |l.listed| ::
                  |pruned.table| <= l.listed[i] < |l.table| && Scheduled(l.table[l.listed[i]]))
  {
    var pruned := PrunedLedger(r, o.nodes[0].seqId);
    NodeItemsOrigin(o.nodes[1..]);
    EdgeItemsOrigin(o.edges);
    PrunedLedgerOk(r, o.nodes[0].seqId);
    RegisterAllOk(pruned, Items(StitchActions(r, o), OnNode, o.nodes[0].seqId));
    RegisterAllOk(StitchLedger(r, o), NodeItems(o.nodes[1..]) + EdgeItems(o.edges));
  }

  lemma UpdatedListed(r: Robot, o: Order)
    requires RefsOk(r) && ListedOk(r) && |o.nodes| >= 1
    ensures RefsOk(Updated(r, o)) && ListedOk(Updated(r, o))
  {
    UpdatedRefs(r, o);
    var pruned := PrunedLedger(r, o.nodes[0].seqId);
    UpdateLedgerGrows(r, o);
    var r' := Updated(r, o);
    forall i | 0 <= i < |r'.actionStates| ensures ListedRunOk(r', r'.actionStates[i]) {
      if i < |pruned.listed| {
        assert r'.actionStates[i] == pruned.listed[i];
        var j :| 0 <= j < |r.actionStates| && r.actionStates[j] == pruned.listed[i];
        assert ListedRunOk(r, r.actionStates[j]);
      } else {
        assert Scheduled(r'.engine.table[r'.actionStates[i]]);
      }
    }
  }

  lemma EnqueueKeeps(r: Robot, actions: seq<Action>)
    requires RefsOk(r)
    ensures RefsOk(EnqueueElement(r, actions))
    ensures ListedOk(r) ==> ListedOk(EnqueueElement(r, actions))
    ensures EnqueueElement(r, actions) == r.(engine := EnqueueElement(r, actions).engine)
    ensures EnqueueElement(r, actions).engine.table == r.engine.table
  {
    var r' := EnqueueElement(r, actions);
    forall i | 0 <= i < |r'.actionStates| && ListedOk(r) ensures ListedRunOk(r', r'.actionStates[i]) {
      assert ListedRunOk(r, r.actionStates[i]);
    }
  }

  /** Replacing table entries so that no run loses its place. */
  lemma TableKeepsListed(r: Robot, r': Robot)
    requires RefsOk(r) && ListedOk(r) && RefsOk(r')
    requires r'.runs == r.runs && r'.actionStates == r.actionStates && r'.engine.active == r.engine.active
    requires |r'.engine.table| == |r.engine.table|
    requires forall k | 0 <= k < |r.engine.table| ::
               var a, b := r.engine.table[k], r'.engine.table[k];
               && b.action == a.action && b.origin == a.origin
               && (a.origin != Instant && a.task == NoTask && (a.status == Waiting || a.Settled()) ==>
                     k in r.engine.active || (b.task == NoTask && (b.status == Waiting || b.Settled())))
    ensures ListedOk(r')
  {
    forall i | 0 <= i < |r'.actionStates| ensures ListedRunOk(r', r'.actionStates[i]) {
      assert ListedRunOk(r, r.actionStates[i]);
    }
  }

  // ---------------------------------------------------------------- steps

  lemma AcceptedIsChain(r: Robot, o: Order, s: Surroundings)
    requires RefsOk(r) && Decide(r, o, s).Accept?
    ensures exists base :: Chain(o, s.carryIds, base)
  {
    AcceptanceIsExact(o, SituationOf(r, s));
  }

  /** An accepted update starts at the decision point of a laid-out graph. */
  lemma AcceptedUpdateStitches(r: Robot, o: Order, s: Surroundings) returns (lo: int, at: int, base: int, n: int)
    requires RobotOk(r) && Decide(r, o, s).Accept? && Decide(r, o, s).isUpdate
    ensures Laid(r, lo, at, base, n)
    ensures |o.nodes| >= 1
    ensures o.nodes[0].seqId == NodeNumber(lo, base - 1) && o.nodes[0].id == r.nodes[NodeNumber(lo, base - 1)].id
  {
    AcceptanceIsExact(o, SituationOf(r, s));
    assert DecisionPoint(map[]).None?;
    lo, at, base, n :| Laid(r, lo, at, base, n);
    ChainDecisionPoint(r.nodes, r.edges, lo, base, n);
  }

  lemma {:induction false} IndexedTags(edges: seq<Edge>, tag: nat)
    ensures forall k | k in IndexEdges(edges, tag) :: IndexEdges(edges, tag)[k].tag == tag
  {
    if edges != [] { IndexedTags(edges[..|edges| - 1], tag); }
  }

  /** The edge being driven survives an update: same object, same target. */
  lemma UpdatedCurrent(r: Robot, o: Order, lo: int, at: int, base: int, n: int)
    requires RefsOk(r) && Laid(r, lo, at, base, n) && DriverOk(r) && Current(r) && Numbered(o)
    requires o.nodes[0].seqId == NodeNumber(lo, base - 1) && o.nodes[0].id == r.nodes[NodeNumber(lo, base - 1)].id
    ensures var k := r.driver.edge.edge.seqId;
            var edges := StitchEdges(r.edges, o.edges, o.nodes[0].seqId, r.accepted);
            var nodes := StitchNodes(r.nodes, o.nodes);
            && k in edges && edges[k] == r.edges[k]
            && k + 1 in nodes && nodes[k + 1].id == r.nodes[k + 1].id
  {
    var k := r.driver.edge.edge.seqId;
    assert k == EdgeNumber(lo, at) && k + 1 == NodeNumber(lo, at + 1);
    assert k in EdgeKeys(lo, n - 1);
    assert EdgeStored(r.edges[k].edge, lo, base, at);
    StitchedNodes(r.nodes, o.nodes, lo, base, n);
    StitchedEdges(r.edges, o.edges, r.accepted, lo, base, n);
  }

  lemma DriverCarried(r: Robot, r': Robot)
    requires DriverOk(r)
    requires r'.driver == r.driver && r'.lastSeq == r.lastSeq && r'.accepted == r.accepted + 1
    requires forall k | k in r'.edges ::
               && r'.edges[k].tag <= r.accepted
               && (r'.edges[k].tag < r.accepted ==> k in r.edges && r'.edges[k] == r.edges[k])
    requires Current(r) ==>
               var k := r.driver.edge.edge.seqId;
               && k in r'.edges && r'.edges[k] == r.edges[k]
               && k + 1 in r'.nodes && r'.nodes[k + 1].id == r.nodes[k + 1].id
    ensures DriverOk(r') && (Current(r) ==> Current(r'))
  {
  }

  lemma UpdatedDriver(r: Robot, o: Order, lo: int, at: int, base: int, n: int)
    requires RefsOk(r) && Laid(r, lo, at, base, n) && DriverOk(r) && Numbered(o)
    requires o.nodes[0].seqId == NodeNumber(lo, base - 1) && o.nodes[0].id == r.nodes[NodeNumber(lo, base - 1)].id
    ensures var r' := Adopted(Updated(r, o), o);
            DriverOk(r') && (Current(r) ==> Current(r'))
  {
    IndexedTags(o.edges, r.accepted);
    if Current(r) { UpdatedCurrent(r, o, lo, at, base, n); }
    DriverCarried(r, Adopted(Updated(r, o), o));
  }

  lemma SameGraph(r: Robot, r': Robot)
    requires GraphOk(r) && DriverOk(r)
    requires r'.nodes == r.nodes && r'.edges == r.edges && r'.nodeStates == r.nodeStates
    requires r'.edgeStates == r.edgeStates
    requires r'.lastSeq == r.lastSeq && r'.lastNodeId == r.lastNodeId && r'.accepted >= r.accepted
    requires r'.driver == r.driver || r'.driver.Stopped?
    ensures GraphOk(r') && DriverOk(r')
  {
    if !Cleared(r) {
      var lo, at, base, n :| Laid(r, lo, at, base, n);
      assert Laid(r', lo, at, base, n);
    }
  }

  lemma FreshOrderKeeps(r: Robot, o: Order, carryIds: bool, base: int)
    requires RobotOk(r) && Chain(o, carryIds, base)
    ensures RefsOk(LaidOut(r, o)) && RobotOk(Adopted(EnqueueElement(LaidOut(r, o), o.nodes[0].actions), o))
  {
    LaidOutListed(r, o);
    EnqueueKeeps(LaidOut(r, o), o.nodes[0].actions);
    var r' := Adopted(EnqueueElement(LaidOut(r, o), o.nodes[0].actions), o);
    TableKeepsListed(EnqueueElement(LaidOut(r, o), o.nodes[0].actions), r');
    LaidOutGraph(r, o, carryIds, base);
    SameGraph(Adopted(LaidOut(r, o), o), r');
  }

  lemma LaidOutGraph(r: Robot, o: Order, carryIds: bool, base: int)
    requires RefsOk(r) && DriverOk(r) && Chain(o, carryIds, base)
    ensures GraphOk(Adopted(LaidOut(r, o), o)) && DriverOk(Adopted(LaidOut(r, o), o))
  {
    LaidOutIsLaid(r, o, carryIds, base);
    IndexedTags(o.edges, r.accepted);
    assert Laid(Adopted(LaidOut(r, o), o), o.nodes[0].seqId, 0, base, |o.nodes|);
  }

  lemma UpdateKeeps(r: Robot, o: Order, carryIds: bool, more: int, lo: int, at: int, base: int, n: int)
    requires RobotOk(r) && Laid(r, lo, at, base, n) && Chain(o, carryIds, more)
    requires o.nodes[0].seqId == NodeNumber(lo, base - 1) && o.nodes[0].id == r.nodes[NodeNumber(lo, base - 1)].id
    ensures RobotOk(Adopted(Updated(r, o), o))
  {
    UpdatedListed(r, o);
    TableKeepsListed(Updated(r, o), Adopted(Updated(r, o), o));
    UpdatedIsLaid(r, o, carryIds, more, lo, at, base, n);
    assert Laid(Adopted(Updated(r, o), o), lo, at, base - 1 + more, base - 1 + |o.nodes|);
    UpdatedDriver(r, o, lo, at, base, n);
  }

  lemma OrderKeeps(r: Robot, o: Order, s: Surroundings)
    requires RobotOk(r)
    ensures RobotOk(OnOrder(r, o, s))
  {
    if Decide(r, o, s).Accept? {
      AcceptedIsChain(r, o, s);
      var more :| Chain(o, s.carryIds, more);
      if Decide(r, o, s).isUpdate {
        var lo, at, base, n := AcceptedUpdateStitches(r, o, s);
        UpdateKeeps(r, o, s.carryIds, more, lo, at, base, n);
      } else {
        FreshOrderKeeps(r, o, s.carryIds, more);
      }
    }
  }

  lemma SetOffKeeps(r: Robot, mayDrive: bool)
    requires RobotOk(r)
    ensures RobotOk(SetOff(r, mayDrive))
  {
    if SetOff(r, mayDrive) != r {
      var lo, at, base, n :| Laid(r, lo, at, base, n);
      EnqueueKeeps(r, NextEdge(r).value.edge.actions);
      assert NextEdge(r).value.edge.seqId == r.lastSeq + 1 by {
        StoredNumbers(r.nodes, r.edges, lo, base, n);
        assert r.lastSeq + 1 in EdgeKeys(lo, n - 1) && EdgeNumber(lo, at) == r.lastSeq + 1;
      }
      assert NodeNumber(lo, at + 1) == r.lastSeq + 2;
      assert Laid(SetOff(r, mayDrive), lo, at, base, n);
      TableKeepsListed(r, SetOff(r, mayDrive));
    }
  }

  lemma ArriveKeeps(r: Robot)
    requires RobotOk(r)
    ensures RobotOk(Arrive(r))
  {
    if Current(r) {
      ArriveListed(r);
      var lo, at, base, n :| Laid(r, lo, at, base, n);
      ArriveIsLaid(r, lo, at, base, n);
    }
  }

  lemma ArriveListed(r: Robot)
    requires RefsOk(r) && ListedOk(r) && Current(r)
    ensures RefsOk(Arrive(r)) && ListedOk(Arrive(r))
  {
    var edge, node := r.driver.edge.edge, r.driver.target;
    var there := r.(lastNodeId := node.id, lastSeq := node.seqId,
                    nodeStates := Without(r.nodeStates, node.seqId),
                    edgeStates := Without(r.edgeStates, edge.seqId),
                    engine := FinishEdgeActions(r.engine, edge.seqId),
                    driver := Stopped);
    TableKeepsListed(r, there);
    EnqueueKeeps(there, node.actions);
    TableKeepsListed(EnqueueElement(there, node.actions), Arrive(r));
  }

  /** How clearing may change one run: it keeps its place, or ends up settled. */
  ghost predicate ClearedRun(run: Run, run': Run, active: bool) {
    && run'.action == run.action && run'.origin == run.origin
    && (run.origin != Instant && run.task == NoTask && (run.status == Waiting || run.Settled()) ==>
          active || (run'.task == NoTask && (run'.status == Waiting || run'.Settled())))
  }

  lemma ClearingListed(r: Robot, r': Robot)
    requires RefsOk(r) && ListedOk(r) && RefsOk(r')
    requires r'.runs == r.runs && r'.actionStates == r.actionStates && r'.engine.active == r.engine.active
    requires |r'.engine.table| == |r.engine.table|
    requires forall k | 0 <= k < |r.engine.table| ::
               ClearedRun(r.engine.table[k], r'.engine.table[k], k in r.engine.active)
    ensures ListedOk(r')
  {
    forall i | 0 <= i < |r'.actionStates| ensures ListedRunOk(r', r'.actionStates[i]) {
      assert ListedRunOk(r, r.actionStates[i]);
      assert ClearedRun(r.engine.table[r.actionStates[i]], r'.engine.table[r.actionStates[i]],
                        r.actionStates[i] in r.engine.active);
    }
  }

  lemma ClearExecutionKeeps(r: Robot)
    requires RefsOk(r) && ListedOk(r)
    ensures RobotOk(ClearExecution(r)) || !(r.driver.Driving? ==> r.driver.edge.tag < r.accepted)
  {
    ClearingListed(r, ClearExecution(r));
  }

  lemma CancelActionsListed(r: Robot)
    requires RefsOk(r) && ListedOk(r)
    ensures RefsOk(r.(engine := CancelOrderActions(r.engine))) && ListedOk(r.(engine := CancelOrderActions(r.engine)))
  {
    ClearingListed(r, r.(engine := CancelOrderActions(r.engine)));
  }

  lemma CancelKeeps(r: Robot, requested: Option<string>)
    requires RobotOk(r)
    ensures RobotOk(Cancel(r, requested))
  {
    if CancelMatches(r, requested) {
      CancelActionsListed(r);
      var stopped := r.(engine := CancelOrderActions(r.engine));
      ClearingListed(stopped, stopped.(cancelled := true));
      ClearExecutionKeeps(stopped.(cancelled := true));
    }
  }

  lemma StoppedListed(r: Robot, stopped: Robot)
    requires RefsOk(r) && ListedOk(r)
    requires stopped == r.(engine := r.engine.(table := StopRuns(r.engine.table, r.runs.Values)))
    ensures RefsOk(stopped) && ListedOk(stopped)
  {
    ClearingListed(r, stopped);
  }

  lemma ManualKeeps(r: Robot)
    requires RobotOk(r)
    ensures RobotOk(SwitchToManual(r))
  {
    var stopped := r.(engine := r.engine.(table := StopRuns(r.engine.table, r.runs.Values)));
    StoppedListed(r, stopped);
    CancelActionsListed(stopped);
    var canceled := stopped.(engine := CancelOrderActions(stopped.engine));
    ClearExecutionKeeps(canceled);
    ClearingListed(ClearExecution(canceled), SwitchToManual(r));
  }

  lemma EngineKeeps(r: Robot, e: EngineState)
    requires RobotOk(r) && Valid(e) && |e.table| == |r.engine.table|
    requires forall k | k in r.engine.active :: k in e.active
    requires forall k | 0 <= k < |e.table| ::
               var a, b := r.engine.table[k], e.table[k];
               && b.action == a.action && b.origin == a.origin
               && (a.task == NoTask ==> k in e.active || b == a)
    ensures RobotOk(r.(engine := e))
  {
    var r' := r.(engine := e);
    forall i | 0 <= i < |r'.actionStates| ensures ListedRunOk(r', r'.actionStates[i]) {
      assert ListedRunOk(r, r.actionStates[i]);
    }
    SameGraph(r, r');
  }

  /** Appending a run under an unknown id disturbs no listed run. */
  lemma AppendListed(r: Robot, r': Robot, id: string)
    requires RefsOk(r) && ListedOk(r) && RefsOk(r')
    requires id !in r.runs && r'.runs == r.runs[id := |r.engine.table|] && r'.actionStates == r.actionStates
    requires |r'.engine.table| > |r.engine.table| && r'.engine.table[..|r.engine.table|] == r.engine.table
    requires r'.engine.table[|r.engine.table|].action.id == id
    requires forall k | k in r.engine.active :: k in r'.engine.active
    ensures ListedOk(r')
  {
    forall other | other in r.runs ensures r'.engine.table[r'.runs[other]].action.id == other {
      assert r'.engine.table[r.runs[other]] == r'.engine.table[..|r.engine.table|][r.runs[other]];
    }
    forall i | 0 <= i < |r'.actionStates| ensures ListedRunOk(r', r'.actionStates[i]) {
      assert ListedRunOk(r, r.actionStates[i]);
      assert r'.engine.table[r.actionStates[i]] == r'.engine.table[..|r.engine.table|][r.actionStates[i]];
    }
  }

  lemma InstantListed(r: Robot, a: Action, supported: bool)
    requires RefsOk(r) && ListedOk(r) && a.id !in r.runs
    ensures RefsOk(StartInstant(r, a, supported)) && ListedOk(StartInstant(r, a, supported))
  {
    AppendListed(r, StartInstant(r, a, supported), a.id);
  }

  lemma InstantKeeps(r: Robot, a: Action, supported: bool)
    requires RobotOk(r)
    ensures RobotOk(StartInstant(r, a, supported))
  {
    if a.id !in r.runs {
      InstantListed(r, a, supported);
      SameGraph(r, StartInstant(r, a, supported));
    }
  }

  lemma SkipKeeps(r: Robot, k: nat)
    requires RobotOk(r) && k < |r.engine.table|
    ensures RobotOk(r.(engine := OnRun(r.engine, k, SkipRetry)))
  {
    var r' := r.(engine := OnRun(r.engine, k, SkipRetry));
    TableKeepsListed(r, r');
    SameGraph(r, r');
  }

  lemma HandlerKeeps(r: Robot, k: nat, f: Run -> Run)
    requires RobotOk(r) && k < |r.engine.table|
    requires f(r.engine.table[k]).action == r.engine.table[k].action
    requires f(r.engine.table[k]).origin == r.engine.table[k].origin
    requires r.engine.table[k].task == NoTask ==> f(r.engine.table[k]) == r.engine.table[k]
    ensures RobotOk(r.(engine := OnRun(r.engine, k, f)))
  {
    EngineKeeps(r, OnRun(r.engine, k, f));
  }

  lemma RestKeeps(r: Robot)
    requires RobotOk(r)
    ensures RobotOk(Rest(r))
  {
    SameGraph(r, Rest(r));
    TableKeepsListed(r, Rest(r));
  }

  lemma AbandonKeeps(r: Robot)
    requires RobotOk(r)
    ensures RobotOk(Abandon(r))
  {
    if r.driver.Driving? && !Current(r) {
      var r' := r.(driver := Stopped);
      SameGraph(r, r');
      TableKeepsListed(r, r');
    }
  }

  lemma RunStepKeeps(r: Robot, step: Step)
    requires RobotOk(r) && (step.HandlerReports? || step.HandlerEnds?)
    ensures RobotOk(Next(r, step))
  {
    if step.run < |r.engine.table| { HandlerKeeps(r, step.run, run => Handled(run, step)); }
  }

  lemma RunnerStepTable(e: EngineState, i: nat)
    requires Valid(e) && i < |e.runners|
    ensures Valid(RunnerStep(e, i)) && |RunnerStep(e, i).table| == |e.table|
    ensures forall k | k in e.active :: k in RunnerStep(e, i).active
    ensures forall k | 0 <= k < |e.table| ::
              var a, b := e.table[k], RunnerStep(e, i).table[k];
              b.action == a.action && b.origin == a.origin && (b == a || k in RunnerStep(e, i).active)
  {
  }

  lemma RunnerStepKeeps(r: Robot, i: nat)
    requires RobotOk(r)
    ensures RobotOk(Next(r, RunnerMoves(i)))
  {
    if i < |r.engine.runners| {
      RunnerStepTable(r.engine, i);
      EngineKeeps(r, RunnerStep(r.engine, i));
    }
  }

  /** The invariant survives every step, whatever is delivered and whatever the handlers do. */
  lemma StepKeepsRobot(r: Robot, step: Step)
    requires RobotOk(r)
    ensures RobotOk(Next(r, step))
  {
    match step
    case Delivered(o, s) => OrderKeeps(r, o, s);
    case Rested => RestKeeps(r);
    case SettingOff(mayDrive) => SetOffKeeps(r, mayDrive);
    case Arrived => ArriveKeeps(r);
    case Abandoned => AbandonKeeps(r);
    case CancelAsked(requested) => CancelKeeps(r, requested);
    case ManualAsked => ManualKeeps(r);
    case InstantAsked(a, supported) => InstantKeeps(r, a, supported);
    case RunnerMoves(i) => RunnerStepKeeps(r, i);
    case RetrySkips(k) => if k < |r.engine.table| { SkipKeeps(r, k); }
    case _ => RunStepKeeps(r, step);
  }
}
