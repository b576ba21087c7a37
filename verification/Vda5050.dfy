/** The order vocabulary of VDA 5050 as both ends of the protocol use it. */
module Vda5050 {

  datatype Option<+T> = None | Some(value: T)

  datatype Result<+T> = Ok(value: T) | ValueError(reason: string)

  datatype Blocking = NonBlocking | Soft | Single | Hard

  datatype Action = Action(id: string, kind: string, blocking: Blocking)

  /** 2.x states the allowed deviation as a radius, 3.0 as an ellipse. */
  datatype Deviation = Radius(r: real) | Ellipse(a: real, b: real, theta: real)

  datatype Position = Position(x: real, y: real, mapId: string, theta: Option<real>, deviation: Option<Deviation>)

  datatype Node = Node(id: string, seqId: int, released: bool, position: Option<Position>, actions: seq<Action>)

  /** The end-point ids are present on 2.x only. */
  datatype Edge = Edge(id: string, seqId: int, released: bool,
                       startNode: Option<string>, endNode: Option<string>, actions: seq<Action>)

  datatype Order = Order(orderId: string, updateId: int, nodes: seq<Node>, edges: seq<Edge>)

  /** The sequenceId of the `i`-th node of an order that starts at `start`. */
  function NodeNumber(start: int, i: int): int { start + 2 * i }

  /** The sequenceId of the edge that leaves that node. */
  function EdgeNumber(start: int, i: int): int { start + 2 * i + 1 }

  /** What section 6.1 asks of an order graph: one chain of nodes joined by edges, numbered
      even and odd without gaps, whose released part is the first `base` nodes and exactly the
      edges between them. `carryIds` is the 2.x rule that an edge names its end points. */
  ghost predicate Chain(o: Order, carryIds: bool, base: int) {
    && |o.nodes| >= 1
    && |o.edges| == |o.nodes| - 1
    && 1 <= base <= |o.nodes|
    && o.nodes[0].seqId % 2 == 0
    && (forall i | 0 <= i < |o.nodes| ::
          o.nodes[i].seqId == NodeNumber(o.nodes[0].seqId, i) && (o.nodes[i].released <==> i < base))
    && (forall i | 0 <= i < |o.edges| ::
          o.edges[i].seqId == EdgeNumber(o.nodes[0].seqId, i) && (o.edges[i].released <==> i < base - 1))
    && (carryIds ==> forall i | 0 <= i < |o.edges| ::
          o.edges[i].startNode == Some(o.nodes[i].id) && o.edges[i].endNode == Some(o.nodes[i + 1].id))
  }
}
