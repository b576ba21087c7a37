/** order.py: the structural check and the acceptance decision of Figure 8. */
module OrderAcceptance {
  import opened Vda5050

  /** The frozen snapshot the decision is taken on. `startInRange` is the outcome of the
      ellipse and heading test on the first node, which is floating-point geometry. */
  datatype Situation = Situation(
    orderId: string, updateId: int, hasOrder: bool, idle: bool, cancelled: bool,
    decisionPoint: Option<(string, int)>,
    lastNodeId: string, localized: bool, startInRange: bool,
    knownMaps: set<string>, nodeActions: set<string>, edgeActions: set<string>,
    acceptsOrders: bool, carryIds: bool)

  datatype ErrorKey =
    | Validation | InvalidOrderAction | NotAvailable | UnknownMap | OtherOrderActive
    | StartNodeOutOfRange | OutdatedOrderUpdate | UpdateFollowingCancel
    | InsufficientMemory | SameOrderUpdate

  datatype Decision =
    | Accept(appendFrom: int, isUpdate: bool)
    | Ignore
    | Reject(key: ErrorKey)

  datatype Problem =
    | NoNodes | EdgeCount | OddStart
    | NodeNumbering(index: nat) | EdgeNumbering(index: nat) | EdgeStart(index: nat) | EdgeEnd(index: nat)
    | FirstUnreleased | ScatteredRelease | EdgeBeyondBase

  // ------------------------------------------------------------ structure

  function PrefixLength(flags: seq<bool>): (n: nat)
    ensures n <= |flags|
    ensures forall i | 0 <= i < n :: flags[i]
    ensures n < |flags| ==> !flags[n]
  {
    if flags == [] || !flags[0] then 0 else 1 + PrefixLength(flags[1..])
  }

  function NodeFlags(nodes: seq<Node>): seq<bool> {
    seq(|nodes|, i requires 0 <= i < |nodes| => nodes[i].released)
  }

  function EdgeFlags(edges: seq<Edge>): seq<bool> {
    seq(|edges|, i requires 0 <= i < |edges| => edges[i].released)
  }

  /** The first misnumbered node from index `i` on. */
  function NodeProblem(nodes: seq<Node>, start: int, i: nat): (p: Option<Problem>)
    requires i <= |nodes|
    ensures p.None? <==> forall k | i <= k < |nodes| :: nodes[k].seqId == NodeNumber(start, k)
    decreases |nodes| - i
  {
    if i == |nodes| then None
    else if nodes[i].seqId != start + 2 * i then Some(NodeNumbering(i))
    else NodeProblem(nodes, start, i + 1)
  }

  /** The first misnumbered edge, or on 2.x misattached edge, from index `i` on. */
  function EdgeProblem(o: Order, start: int, carryIds: bool, i: nat): (p: Option<Problem>)
    requires |o.edges| == |o.nodes| - 1 && i <= |o.edges|
    ensures p.None? <==>
              && (forall k | i <= k < |o.edges| :: o.edges[k].seqId == EdgeNumber(start, k))
              && (carryIds ==> forall k | i <= k < |o.edges| ::
                    o.edges[k].startNode == Some(o.nodes[k].id) && o.edges[k].endNode == Some(o.nodes[k + 1].id))
    decreases |o.edges| - i
  {
    if i == |o.edges| then None
    else if o.edges[i].seqId != start + 2 * i + 1 then Some(EdgeNumbering(i))
    else if carryIds && o.edges[i].startNode != Some(o.nodes[i].id) then Some(EdgeStart(i))
    else if carryIds && o.edges[i].endNode != Some(o.nodes[i + 1].id) then Some(EdgeEnd(i))
    else EdgeProblem(o, start, carryIds, i + 1)
  }

  function ReleaseProblem(nodes: seq<bool>, edges: seq<bool>): Option<Problem>
    requires |nodes| >= 1
  {
    if !nodes[0] then Some(FirstUnreleased)
    else
      var baseNodes := PrefixLength(nodes);
      var baseEdges := PrefixLength(edges);
      if true in nodes[baseNodes..] || true in edges[baseEdges..] then Some(ScatteredRelease)
      else if baseEdges != (if baseNodes >= 1 then baseNodes - 1 else 0)
              && !(baseNodes == |nodes| && baseEdges == |edges|) then Some(EdgeBeyondBase)
      else None
  }

  function StructuralProblem(o: Order, carryIds: bool): Option<Problem> {
    if |o.nodes| == 0 then Some(NoNodes)
    else if |o.edges| != |o.nodes| - 1 then Some(EdgeCount)
    else if o.nodes[0].seqId % 2 != 0 then Some(OddStart)
    else
      var start := o.nodes[0].seqId;
      var nodeProblem := NodeProblem(o.nodes, start, 0);
      if nodeProblem.Some? then nodeProblem
      else
        var edgeProblem := EdgeProblem(o, start, carryIds, 0);
        if edgeProblem.Some? then edgeProblem
        else ReleaseProblem(NodeFlags(o.nodes), EdgeFlags(o.edges))
  }

  lemma PrefixFlags(flags: seq<bool>)
    ensures true !in flags[PrefixLength(flags)..] <==>
            forall i | 0 <= i < |flags| :: flags[i] <==> i < PrefixLength(flags)
  {
    var n := PrefixLength(flags);
    if true !in flags[n..] {
      forall i | n <= i < |flags| ensures !flags[i] { assert flags[i] == flags[n..][i - n]; }
    }
  }

  lemma PrefixIs(flags: seq<bool>, n: nat)
    requires n <= |flags| && forall i | 0 <= i < |flags| :: flags[i] <==> i < n
    ensures PrefixLength(flags) == n
  {
    var k := PrefixLength(flags);
    assert k < |flags| ==> (flags[k] <==> k < n);
    assert n < |flags| ==> !flags[n];
  }

  /** The check finds no problem exactly when the order is a chain for some base. */
  lemma StructuralCheckIsExact(o: Order, carryIds: bool)
    ensures StructuralProblem(o, carryIds).None? <==> exists base :: Chain(o, carryIds, base)
  {
    var nodes, edges := NodeFlags(o.nodes), EdgeFlags(o.edges);
    PrefixFlags(nodes);
    PrefixFlags(edges);
    if StructuralProblem(o, carryIds).None? {
      assert forall i | 0 <= i < |o.nodes| :: nodes[i] == o.nodes[i].released;
      assert forall i | 0 <= i < |o.edges| :: edges[i] == o.edges[i].released;
      assert Chain(o, carryIds, PrefixLength(nodes));
    }
    if base :| Chain(o, carryIds, base) {
      assert nodes[0];
      PrefixIs(nodes, base);
      PrefixIs(edges, base - 1);
    }
  }

  // ------------------------------------------------------------- decision

  predicate UnsupportedActions(o: Order, s: Situation) {
    || (exists n, a | n in o.nodes && a in n.actions :: a.kind !in s.nodeActions)
    || (exists e, a | e in o.edges && a in e.actions :: a.kind !in s.edgeActions)
  }

  predicate UnknownMaps(o: Order, s: Situation) {
    exists n | n in o.nodes :: n.position.Some? && n.position.value.mapId !in s.knownMaps
  }

  /** Without a position on the node or on the robot, the node is reachable when the robot
      stands on it or has not localized on any node yet. */
  predicate FirstNodeReachable(o: Order, s: Situation)
    requires |o.nodes| >= 1
  {
    if o.nodes[0].position.None? || !s.localized
    then s.lastNodeId == "" || s.lastNodeId == o.nodes[0].id
    else s.startInRange
  }

  function Evaluate(o: Order, s: Situation): Decision {
    if StructuralProblem(o, s.carryIds).Some? then Reject(Validation)
    else if UnsupportedActions(o, s) then Reject(InvalidOrderAction)
    else if !s.acceptsOrders then Reject(NotAvailable)
    else if UnknownMaps(o, s) then Reject(UnknownMap)
    else if o.orderId != s.orderId || !s.hasOrder then
      if !s.idle then Reject(OtherOrderActive)
      else if o.updateId != 0 then Reject(Validation)
      else if !FirstNodeReachable(o, s) then Reject(StartNodeOutOfRange)
      else Accept(o.nodes[0].seqId, false)
    else if o.updateId < s.updateId then Reject(OutdatedOrderUpdate)
    else if o.updateId == s.updateId then Ignore
    else if s.cancelled then Reject(UpdateFollowingCancel)
    else if s.decisionPoint.None? then Reject(Validation)
    else if (o.nodes[0].id, o.nodes[0].seqId) != s.decisionPoint.value then Reject(Validation)
    else Accept(s.decisionPoint.value.1, true)
  }

  // What the decision comes to, told from the order and the snapshot alone.

  ghost predicate WellFormed(o: Order, carryIds: bool) { exists base :: Chain(o, carryIds, base) }

  /** Every action is one the robot offers at the kind of element it stands on. */
  ghost predicate Performable(o: Order, nodeActions: set<string>, edgeActions: set<string>) {
    && (forall i, k | 0 <= i < |o.nodes| && 0 <= k < |o.nodes[i].actions| :: o.nodes[i].actions[k].kind in nodeActions)
    && (forall i, k | 0 <= i < |o.edges| && 0 <= k < |o.edges[i].actions| :: o.edges[i].actions[k].kind in edgeActions)
  }

  /** Every position lies on a map the robot knows. */
  ghost predicate Mapped(o: Order, knownMaps: set<string>) {
    forall i | 0 <= i < |o.nodes| :: o.nodes[i].position.Some? ==> o.nodes[i].position.value.mapId in knownMaps
  }

  /** The robot is where the order begins: within the allowed deviation if both positions are known,
      otherwise standing on the first node or not yet on any. */
  ghost predicate AtStart(o: Order, s: Situation)
    requires |o.nodes| >= 1
  {
    if o.nodes[0].position.Some? && s.localized then s.startInRange
    else s.lastNodeId in {"", o.nodes[0].id}
  }

  /** Nothing about the robot's surroundings stands in the way of `o`. */
  ghost predicate Admissible(o: Order, s: Situation) {
    Performable(o, s.nodeActions, s.edgeActions) && s.acceptsOrders && Mapped(o, s.knownMaps)
  }

  ghost predicate Acceptable(o: Order, s: Situation) { WellFormed(o, s.carryIds) && Admissible(o, s) }

  lemma ActionsAreChecked(o: Order, s: Situation)
    ensures UnsupportedActions(o, s) <==> !Performable(o, s.nodeActions, s.edgeActions)
  {
    if UnsupportedActions(o, s) {
      if n, a :| n in o.nodes && a in n.actions && a.kind !in s.nodeActions {
        var i :| 0 <= i < |o.nodes| && o.nodes[i] == n;
        var k :| 0 <= k < |n.actions| && n.actions[k] == a;
        assert o.nodes[i].actions[k].kind !in s.nodeActions;
      } else {
        var e, a :| e in o.edges && a in e.actions && a.kind !in s.edgeActions;
        var i :| 0 <= i < |o.edges| && o.edges[i] == e;
        var k :| 0 <= k < |e.actions| && e.actions[k] == a;
        assert o.edges[i].actions[k].kind !in s.edgeActions;
      }
    }
  }

  lemma MapsAreChecked(o: Order, s: Situation)
    ensures UnknownMaps(o, s) <==> !Mapped(o, s.knownMaps)
  {
    if n :| n in o.nodes && n.position.Some? && n.position.value.mapId !in s.knownMaps {
      var i :| 0 <= i < |o.nodes| && o.nodes[i] == n;
    }
  }

  /** Which orders start afresh, which stitch on, and that an accepted update is a chain that
      begins at the decision point. */
  lemma AcceptanceIsExact(o: Order, s: Situation)
    ensures Evaluate(o, s).Accept? && !Evaluate(o, s).isUpdate <==>
            && Acceptable(o, s)
            && (o.orderId != s.orderId || !s.hasOrder)
            && s.idle && o.updateId == 0 && AtStart(o, s)
    ensures Evaluate(o, s).Accept? && Evaluate(o, s).isUpdate <==>
            && Acceptable(o, s)
            && o.orderId == s.orderId && s.hasOrder && !s.cancelled
            && o.updateId > s.updateId
            && s.decisionPoint == Some((o.nodes[0].id, o.nodes[0].seqId))
    ensures Evaluate(o, s).Accept? ==> Evaluate(o, s).appendFrom == o.nodes[0].seqId
  {
    StructuralCheckIsExact(o, s.carryIds);
    ActionsAreChecked(o, s);
    MapsAreChecked(o, s);
  }

  /** Which checks decide, in the order of Figure 8: for every reason exactly the orders that are
      turned away for it. */
  lemma RejectionIsExact(o: Order, s: Situation)
    ensures Evaluate(o, s) == Reject(InvalidOrderAction) <==>
            WellFormed(o, s.carryIds) && !Performable(o, s.nodeActions, s.edgeActions)
    ensures Evaluate(o, s) == Reject(NotAvailable) <==>
            WellFormed(o, s.carryIds) && Performable(o, s.nodeActions, s.edgeActions) && !s.acceptsOrders
    ensures Evaluate(o, s) == Reject(UnknownMap) <==>
            && WellFormed(o, s.carryIds) && Performable(o, s.nodeActions, s.edgeActions)
            && s.acceptsOrders && !Mapped(o, s.knownMaps)
    ensures Evaluate(o, s) == Reject(OtherOrderActive) <==>
            Acceptable(o, s) && (o.orderId != s.orderId || !s.hasOrder) && !s.idle
    ensures Evaluate(o, s) == Reject(StartNodeOutOfRange) <==>
            && Acceptable(o, s) && (o.orderId != s.orderId || !s.hasOrder)
            && s.idle && o.updateId == 0 && !AtStart(o, s)
    ensures Evaluate(o, s) == Reject(OutdatedOrderUpdate) <==>
            Acceptable(o, s) && o.orderId == s.orderId && s.hasOrder && o.updateId < s.updateId
    ensures Evaluate(o, s) == Ignore <==>
            Acceptable(o, s) && o.orderId == s.orderId && s.hasOrder && o.updateId == s.updateId
    ensures Evaluate(o, s) == Reject(UpdateFollowingCancel) <==>
            Acceptable(o, s) && o.orderId == s.orderId && s.hasOrder && o.updateId > s.updateId && s.cancelled
    ensures Evaluate(o, s) == Reject(Validation) <==>
            || !WellFormed(o, s.carryIds)
            || (Acceptable(o, s) && (o.orderId != s.orderId || !s.hasOrder) && s.idle && o.updateId != 0)
            || (&& Acceptable(o, s) && o.orderId == s.orderId && s.hasOrder && o.updateId > s.updateId && !s.cancelled
                && s.decisionPoint != Some((o.nodes[0].id, o.nodes[0].seqId)))
    ensures Evaluate(o, s) != Reject(InsufficientMemory) && Evaluate(o, s) != Reject(SameOrderUpdate)
  {
    StructuralCheckIsExact(o, s.carryIds);
    ActionsAreChecked(o, s);
    MapsAreChecked(o, s);
  }
}
