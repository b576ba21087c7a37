/** missions.py: a route of waypoints compiled to an initial order and stitched updates. */
module Missions {
  import opened Vda5050
  import OrderAcceptance

  datatype Waypoint = Waypoint(x: real, y: real, nodeId: string, theta: Option<real>,
                               actions: seq<Action>, mapId: string, deviation: Option<real>)

  /** A mission after construction: every waypoint named, every action carrying its id. */
  datatype Mission = Mission(name: string, waypoints: seq<Waypoint>)

  function Decimal(n: nat): string {
    (if n < 10 then [] else Decimal(n / 10)) + ["0123456789"[n % 10]]
  }

  function ActionIds(actions: seq<Action>): (ids: seq<string>)
    ensures |ids| == |actions|
  {
    seq(|actions|, i requires 0 <= i < |actions| => actions[i].id)
  }

  /** The mission's action ids, waypoint by waypoint, from waypoint `from` to `to`. */
  function WorkIds(m: Mission, from: nat, to: nat): seq<string>
    requires from <= to <= |m.waypoints|
    decreases |m.waypoints| - from
  {
    if from == to then [] else ActionIds(m.waypoints[from].actions) + WorkIds(m, from + 1, to)
  }

  function NodeAt(m: Mission, v2: bool, release: int, i: nat): Node
    requires i < |m.waypoints|
  {
    var w := m.waypoints[i];
    var deviation := match w.deviation
      case None => None
      case Some(d) => Some(if v2 then Radius(d) else Ellipse(d, d, 0.0));
    Node(w.nodeId, 2 * i, i < release, Some(Position(w.x, w.y, w.mapId, w.theta, deviation)), w.actions)
  }

  function EdgeAt(m: Mission, v2: bool, release: int, i: nat): Edge
    requires i + 1 < |m.waypoints|
  {
    Edge(m.name + "-e" + Decimal(i), 2 * i + 1, i < release - 1,
         if v2 then Some(m.waypoints[i].nodeId) else None,
         if v2 then Some(m.waypoints[i + 1].nodeId) else None, [])
  }

  function NodesFrom(m: Mission, v2: bool, release: int, from: nat): (nodes: seq<Node>)
    requires from <= |m.waypoints|
  {
    seq(|m.waypoints| - from, k requires 0 <= k < |m.waypoints| - from => NodeAt(m, v2, release, from + k))
  }

  function EdgesFrom(m: Mission, v2: bool, release: int, from: nat): (edges: seq<Edge>)
    requires from < |m.waypoints|
  {
    seq(|m.waypoints| - 1 - from, k requires 0 <= k < |m.waypoints| - 1 - from => EdgeAt(m, v2, release, from + k))
  }

  lemma SentNode(m: Mission, v2: bool, release: int, from: nat, i: nat)
    requires from <= i < |m.waypoints|
    ensures NodesFrom(m, v2, release, from)[i - from] == NodeAt(m, v2, release, i)
  {
  }

  lemma SentEdge(m: Mission, v2: bool, release: int, from: nat, i: nat)
    requires from <= i < |m.waypoints| - 1
    ensures EdgesFrom(m, v2, release, from)[i - from] == EdgeAt(m, v2, release, i)
  {
  }

  /** The element lists of a message that re-sends the route from waypoint `from` on. */
  method Elements(m: Mission, v2: bool, from: nat, release: int) returns (nodes: seq<Node>, edges: seq<Edge>)
    requires from < |m.waypoints|
    ensures nodes == NodesFrom(m, v2, release, from)
    ensures edges == EdgesFrom(m, v2, release, from)
  {
    nodes, edges := [], [];
    for i := from to |m.waypoints|
      invariant nodes == NodesFrom(m, v2, release, from)[..i - from]
    {
      nodes := nodes + [NodeAt(m, v2, release, i)];
    }
    for i := from to |m.waypoints| - 1
      invariant edges == EdgesFrom(m, v2, release, from)[..i - from]
    {
      edges := edges + [EdgeAt(m, v2, release, i)];
    }
  }

  function CheckedRelease(m: Mission, release: Option<int>, atLeast: int): Result<int> {
    match release
    case None => Ok(|m.waypoints|)
    case Some(r) =>
      if atLeast <= r <= |m.waypoints| then Ok(r) else ValueError("release out of range")
  }

  function OrderFrom(m: Mission, v2: bool, orderId: string, updateId: int, release: int, from: nat): Order
    requires from < |m.waypoints|
  {
    Order(orderId, updateId, NodesFrom(m, v2, release, from), EdgesFrom(m, v2, release, from))
  }

  function InitialOrder(m: Mission, v2: bool, orderId: string, release: Option<int>): Result<Order>
    requires |m.waypoints| >= 1
  {
    match CheckedRelease(m, release, 1)
    case ValueError(why) => ValueError(why)
    case Ok(r) => Ok(OrderFrom(m, v2, orderId, 0, r, 0))
  }

  function Update(m: Mission, v2: bool, orderId: string, updateId: int, previous: int,
                  release: Option<int>): Result<Order>
    requires |m.waypoints| >= 1
  {
    if updateId < 1 then ValueError("an order update needs orderUpdateId >= 1")
    else if !(1 <= previous <= |m.waypoints|) then ValueError("previous_release out of range")
    else
      match CheckedRelease(m, release, previous)
      case ValueError(why) => ValueError(why)
      case Ok(r) => Ok(OrderFrom(m, v2, orderId, updateId, r, previous - 1))
  }

  // ---------------------------------------------------- what a message says

  /** Reads a decimal numeral back. */
  function Numeral(digits: string): nat {
    if digits == "" then 0
    else
      var last := digits[|digits| - 1];
      10 * Numeral(digits[..|digits| - 1]) + if '0' <= last <= '9' then last as nat - '0' as nat else 0
  }

  lemma {:induction false} DecimalRoundTrip(n: nat)
    ensures Numeral(Decimal(n)) == n && Decimal(n) != ""
    ensures forall c | c in Decimal(n) :: '0' <= c <= '9'
  {
    if n >= 10 { DecimalRoundTrip(n / 10); }
    var digits := Decimal(n);
    assert digits[..|digits| - 1] == if n < 10 then "" else Decimal(n / 10);
  }

  /** `node` sends the robot to waypoint `w`, number `i`, for its work. */
  ghost predicate LeadsTo(node: Node, w: Waypoint, v2: bool, i: nat) {
    && node.id == w.nodeId && node.seqId == 2 * i && node.actions == w.actions
    && node.position.Some?
    && var at := node.position.value;
       && at.x == w.x && at.y == w.y && at.mapId == w.mapId && at.theta == w.theta
       && (at.deviation.None? <==> w.deviation.None?)
       && (w.deviation.Some? && v2 ==> at.deviation.value == Radius(w.deviation.value))
       && (w.deviation.Some? && !v2 ==>
             at.deviation.value.Ellipse? && at.deviation.value.a == at.deviation.value.b == w.deviation.value)
  }

  /** `edge` joins waypoints `i` and `i + 1`; only 2.x names them. */
  ghost predicate Joins(edge: Edge, m: Mission, v2: bool, i: nat)
    requires i + 1 < |m.waypoints|
  {
    && edge.seqId == 2 * i + 1 && edge.actions == []
    && m.name + "-e" <= edge.id && Numeral(edge.id[|m.name| + 2..]) == i
    && (if v2 then edge.startNode == Some(m.waypoints[i].nodeId) && edge.endNode == Some(m.waypoints[i + 1].nodeId)
        else edge.startNode == edge.endNode == None)
  }

  /** The message names the rest of the route from waypoint `from` on, place by place, and frees the
      first `release` waypoints of the mission. */
  ghost predicate TellsRoute(o: Order, m: Mission, v2: bool, from: nat, release: int) {
    && from < |m.waypoints|
    && |o.nodes| == |m.waypoints| - from && |o.edges| == |m.waypoints| - from - 1
    && (forall i | 0 <= i < |o.nodes| ::
          LeadsTo(o.nodes[i], m.waypoints[from + i], v2, from + i) && (o.nodes[i].released <==> from + i < release))
    && (forall i | 0 <= i < |o.edges| ::
          Joins(o.edges[i], m, v2, from + i) && (o.edges[i].released <==> from + i + 1 < release))
    && (forall i, j | 0 <= i < j < |o.edges| :: o.edges[i].id != o.edges[j].id)
  }

  lemma EdgeJoins(m: Mission, v2: bool, release: int, i: nat)
    requires i + 1 < |m.waypoints|
    ensures Joins(EdgeAt(m, v2, release, i), m, v2, i)
  {
    DecimalRoundTrip(i);
    var id := EdgeAt(m, v2, release, i).id;
    assert id[|m.name| + 2..] == Decimal(i);
  }

  lemma NodesLead(m: Mission, v2: bool, release: int, from: nat)
    requires from < |m.waypoints|
    ensures var nodes := NodesFrom(m, v2, release, from);
            forall i | 0 <= i < |nodes| ::
              LeadsTo(nodes[i], m.waypoints[from + i], v2, from + i) && (nodes[i].released <==> from + i < release)
  {
    var nodes := NodesFrom(m, v2, release, from);
    forall i | 0 <= i < |nodes|
      ensures LeadsTo(nodes[i], m.waypoints[from + i], v2, from + i) && (nodes[i].released <==> from + i < release)
    {
      assert nodes[i] == NodeAt(m, v2, release, from + i);
    }
  }

  lemma EdgesJoin(m: Mission, v2: bool, release: int, from: nat)
    requires from < |m.waypoints|
    ensures var edges := EdgesFrom(m, v2, release, from);
            forall i | 0 <= i < |edges| ::
              Joins(edges[i], m, v2, from + i) && (edges[i].released <==> from + i + 1 < release)
  {
    var edges := EdgesFrom(m, v2, release, from);
    forall i | 0 <= i < |edges|
      ensures Joins(edges[i], m, v2, from + i) && (edges[i].released <==> from + i + 1 < release)
    {
      assert edges[i] == EdgeAt(m, v2, release, from + i);
      assert Joins(EdgeAt(m, v2, release, from + i), m, v2, from + i) by { EdgeJoins(m, v2, release, from + i); }
    }
  }

  /** Different edges of a mission go by different ids. */
  lemma EdgeIdsDiffer(m: Mission, v2: bool, from: nat, edges: seq<Edge>)
    requires from + |edges| + 1 == |m.waypoints|
    requires forall i | 0 <= i < |edges| :: Joins(edges[i], m, v2, from + i)
    ensures forall i, j | 0 <= i < j < |edges| :: edges[i].id != edges[j].id
  {
    forall i, j | 0 <= i < j < |edges| ensures edges[i].id != edges[j].id {
      assert Joins(edges[i], m, v2, from + i) && Joins(edges[j], m, v2, from + j);
    }
  }

  lemma OrderTellsRoute(m: Mission, v2: bool, orderId: string, updateId: int, release: int, from: nat)
    requires from < |m.waypoints|
    ensures TellsRoute(OrderFrom(m, v2, orderId, updateId, release, from), m, v2, from, release)
  {
    NodesLead(m, v2, release, from);
    EdgesJoin(m, v2, release, from);
    EdgeIdsDiffer(m, v2, from, EdgesFrom(m, v2, release, from));
  }

  /** How many waypoints a message frees: as many as asked for, all of them without a number. */
  function Freed(m: Mission, release: Option<int>): int {
    if release.Some? then release.value else |m.waypoints|
  }

  /** What the robot is told: the places, the work and the ways between them, waypoint by waypoint. The
      first message tells the whole route. */
  lemma InitialTellsMission(m: Mission, v2: bool, orderId: string, release: Option<int>)
    requires |m.waypoints| >= 1 && InitialOrder(m, v2, orderId, release).Ok?
    ensures var o := InitialOrder(m, v2, orderId, release).value;
            o.orderId == orderId && o.updateId == 0 && TellsRoute(o, m, v2, 0, Freed(m, release))
  {
    OrderTellsRoute(m, v2, orderId, 0, Freed(m, release), 0);
  }

  /** An update tells it from the decision point that the previous release left. */
  lemma UpdateTellsMission(m: Mission, v2: bool, orderId: string, updateId: int, previous: int, release: Option<int>)
    requires |m.waypoints| >= 1 && Update(m, v2, orderId, updateId, previous, release).Ok?
    ensures var o := Update(m, v2, orderId, updateId, previous, release).value;
            && o.orderId == orderId && o.updateId == updateId
            && TellsRoute(o, m, v2, previous - 1, Freed(m, release))
  {
    OrderTellsRoute(m, v2, orderId, updateId, Freed(m, release), previous - 1);
  }

  /** A compiled message is a chain whose base, counted along the whole route, is `release`. */
  lemma CompiledIsChain(m: Mission, v2: bool, orderId: string, updateId: int, release: int, from: nat)
    requires from < release <= |m.waypoints|
    ensures Chain(OrderFrom(m, v2, orderId, updateId, release, from), v2, release - from)
  {
    var o := OrderFrom(m, v2, orderId, updateId, release, from);
    assert forall i | 0 <= i < |o.nodes| :: o.nodes[i] == NodeAt(m, v2, release, from + i);
    assert forall i | 0 <= i < |o.edges| :: o.edges[i] == EdgeAt(m, v2, release, from + i);
  }

  lemma CompiledIsAcceptable(m: Mission, v2: bool, orderId: string, updateId: int, release: int, from: nat)
    requires from < release <= |m.waypoints|
    ensures OrderAcceptance.StructuralProblem(OrderFrom(m, v2, orderId, updateId, release, from), v2).None?
  {
    CompiledIsChain(m, v2, orderId, updateId, release, from);
    OrderAcceptance.StructuralCheckIsExact(OrderFrom(m, v2, orderId, updateId, release, from), v2);
  }

  lemma InitialIsAcceptable(m: Mission, v2: bool, orderId: string, release: Option<int>)
    requires |m.waypoints| >= 1 && InitialOrder(m, v2, orderId, release).Ok?
    ensures var o := InitialOrder(m, v2, orderId, release).value;
            OrderAcceptance.StructuralProblem(o, v2).None? && o.updateId == 0
  {
    CompiledIsAcceptable(m, v2, orderId, 0, CheckedRelease(m, release, 1).value, 0);
  }

  lemma UpdateIsAcceptable(m: Mission, v2: bool, orderId: string, updateId: int, previous: int, release: Option<int>)
    requires |m.waypoints| >= 1 && Update(m, v2, orderId, updateId, previous, release).Ok?
    ensures var o := Update(m, v2, orderId, updateId, previous, release).value;
            && OrderAcceptance.StructuralProblem(o, v2).None? && o.updateId == updateId
            && o.nodes != [] && o.nodes[0] == NodeAt(m, v2, previous, previous - 1)
  {
    var r := CheckedRelease(m, release, previous).value;
    CompiledIsAcceptable(m, v2, orderId, updateId, r, previous - 1);
    assert |NodesFrom(m, v2, r, previous - 1)| == |m.waypoints| - (previous - 1);
    assert NodesFrom(m, v2, r, previous - 1)[0] == NodeAt(m, v2, r, previous - 1);
  }

  /** Every message the compiler hands out passes the structural check of the acceptor, starts
      at the decision point the previous message left, and leaves its own at `release`. */
  lemma CompiledOrdersAreAcceptable(m: Mission, v2: bool, orderId: string, updateId: int,
                                    previous: int, release: Option<int>)
    requires |m.waypoints| >= 1
    ensures var o := InitialOrder(m, v2, orderId, release);
            o.Ok? <==> release == None || 1 <= release.value <= |m.waypoints|
    ensures var o := InitialOrder(m, v2, orderId, release);
            o.Ok? ==> OrderAcceptance.StructuralProblem(o.value, v2).None? && o.value.updateId == 0
    ensures var o := Update(m, v2, orderId, updateId, previous, release);
            o.Ok? <==> updateId >= 1 && 1 <= previous <= |m.waypoints|
                       && (release == None || previous <= release.value <= |m.waypoints|)
    ensures var o := Update(m, v2, orderId, updateId, previous, release);
            o.Ok? ==> OrderAcceptance.StructuralProblem(o.value, v2).None? && o.value.updateId == updateId
                      && o.value.nodes[0].released
                      && LeadsTo(o.value.nodes[0], m.waypoints[previous - 1], v2, previous - 1)
  {
    if InitialOrder(m, v2, orderId, release).Ok? { InitialIsAcceptable(m, v2, orderId, release); }
    if Update(m, v2, orderId, updateId, previous, release).Ok? {
      UpdateIsAcceptable(m, v2, orderId, updateId, previous, release);
    }
  }
}
