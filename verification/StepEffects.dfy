/** What each step of the robot does to what can be observed: exactly when the driver, the place, the
    base request, the order's identity, the queue and the single actions change, and how. */
module StepEffects {
  import opened Vda5050
  import opened OrderAcceptance
  import opened Actions
  import opened RobotModel
  import opened RobotInvariants
  import opened OrderChain
  import opened OrderActions
  import opened OrderHandover
  import opened SettledActions
  import opened SettingOff

  // ------------------------------------------------------------- conditions

  /** The robot has nodes or edges to come, or an action that is neither finished nor failed. */
  ghost predicate HasWork(r: Robot)
    requires RefsOk(r)
  {
    || r.nodeStates != [] || r.edgeStates != []
    || exists k :: k in r.actionStates && r.engine.table[k].status !in {Finished, Failed}
  }

  lemma IdleIsNoWork(r: Robot)
    requires RefsOk(r)
    ensures IsIdle(r) <==> !HasWork(r)
  {
    if !IsIdle(r) && r.nodeStates == [] && r.edgeStates == [] {
      var i :| 0 <= i < |r.actionStates| && !r.engine.table[r.actionStates[i]].Settled();
      assert r.actionStates[i] in r.actionStates;
    }
  }

  /** A switch of the mode, or a cancel that meets an order with work left that nobody has cancelled yet
      and that names this order or none. */
  ghost predicate TakesEffect(r: SoundRobot, step: Step) {
    match step
    case ManualAsked => true
    case CancelAsked(requested) => HasWork(r) && !r.cancelled && (requested == None || requested == Some(r.orderId))
    case _ => false
  }

  lemma ClearsExactly(r: SoundRobot, step: Step)
    ensures Clears(r, step) <==> TakesEffect(r, step)
  {
    IdleIsNoWork(r);
  }

  /** The robot drives along an edge that is still part of its order. */
  ghost predicate UnderWay(r: Robot) { r.driver.Driving? && r.driver.edge in r.edges.Values }

  lemma UnderWayIsCurrent(r: SoundRobot)
    ensures UnderWay(r) <==> Current(r)
  {
    if UnderWay(r) {
      var k :| k in r.edges && r.edges[k] == r.driver.edge;
      var lo, at, base, n :| Laid(r, lo, at, base, n);
      StoredNumbers(r.nodes, r.edges, lo, base, n);
    }
  }

  /** Part of the route is not released yet. */
  ghost predicate HasHorizon(r: Robot) { exists k :: k in r.nodes && !r.nodes[k].released }

  /** A released edge leads on from node number `at`. */
  ghost predicate LeadsOnFrom(r: Robot, at: int) { at + 1 in r.edges && r.edges[at + 1].edge.released }

  // --------------------------------------------------------------- decision

  predicate Fits(o: Order) { |o.nodes| <= 1000 && |o.edges| <= 999 }

  ghost predicate Admits(s: Surroundings, o: Order) {
    && WellFormed(o, s.carryIds) && Performable(o, s.nodeActions, s.edgeActions)
    && s.acceptsOrders && Mapped(o, s.knownMaps)
  }

  /** The order starts where the robot is. */
  ghost predicate StartsHere(r: Robot, s: Surroundings, o: Order)
    requires |o.nodes| >= 1
  {
    if o.nodes[0].position.Some? && s.localized then s.startInRange else r.lastNodeId in {"", o.nodes[0].id}
  }

  /** It starts at the last released node of the stored route. */
  ghost predicate StartsAtBaseEnd(r: Robot, o: Order)
    requires |o.nodes| >= 1
  {
    var at := o.nodes[0].seqId;
    && at in r.nodes && r.nodes[at].released && r.nodes[at].id == o.nodes[0].id
    && forall k | k in r.nodes && k > at :: !r.nodes[k].released
  }

  lemma BaseEndIsDecisionPoint(r: Robot, o: Order)
    requires |o.nodes| >= 1
    ensures DecisionPoint(r.nodes) == Some((o.nodes[0].id, o.nodes[0].seqId)) <==> StartsAtBaseEnd(r, o)
  {
    var at := o.nodes[0].seqId;
    if StartsAtBaseEnd(r, o) {
      assert IsDecisionPoint(r.nodes, at);
      forall k | IsDecisionPoint(r.nodes, k) ensures k == at { assert at in r.nodes && k in r.nodes; }
    }
  }

  /** What the robot makes of an order message, from its state and its surroundings: a fresh order needs a
      robot without work, an update the order it has, uncancelled, from the end of the base, and the
      same message again is ignored exactly if nothing in it differs. */
  lemma DecisionIsExact(r: SoundRobot, o: Order, s: Surroundings)
    ensures var d, own := Decide(r, o, s), r.hasOrder && o.orderId == r.orderId;
            && (d == Reject(InsufficientMemory) <==> !Fits(o))
            && (d.Accept? && !d.isUpdate <==>
                  Fits(o) && Admits(s, o) && !own && !HasWork(r) && o.updateId == 0 && StartsHere(r, s, o))
            && (d == Reject(OtherOrderActive) <==> Fits(o) && Admits(s, o) && !own && HasWork(r))
            && (d.Accept? && d.isUpdate <==>
                  Fits(o) && Admits(s, o) && own && o.updateId > r.updateId && !r.cancelled && StartsAtBaseEnd(r, o))
            && (d == Reject(UpdateFollowingCancel) <==>
                  Fits(o) && Admits(s, o) && own && o.updateId > r.updateId && r.cancelled)
            && (d == Ignore <==>
                  Fits(o) && Admits(s, o) && own && o.updateId == r.updateId && r.lastOrder == Some(o))
            && (d == Reject(SameOrderUpdate) <==>
                  Fits(o) && Admits(s, o) && own && o.updateId == r.updateId && r.lastOrder != Some(o))
  {
    var x := SituationOf(r, s);
    AcceptanceIsExact(o, x);
    RejectionIsExact(o, x);
    IdleIsNoWork(r);
    if |o.nodes| >= 1 { BaseEndIsDecisionPoint(r, o); }
  }

  // ------------------------------------------------------------------ fields

  /** The order's identity, and whether it has been cancelled. */
  ghost predicate SameIdentity(r: Robot, r': Robot) {
    && r'.hasOrder == r.hasOrder && r'.orderId == r.orderId && r'.updateId == r.updateId
    && r'.lastOrder == r.lastOrder
  }

  /** What an accepted message leaves of the fields outside graph and engine. */
  ghost predicate AsAccepted(r: SoundRobot, o: Order, anew: bool, r': SoundRobot) {
    && |o.nodes| >= 1
    && r'.hasOrder && r'.orderId == o.orderId && r'.updateId == o.updateId
    && r'.lastOrder == Some(o) && !r'.cancelled && !r'.newBaseRequest && r'.driver == r.driver
    && r'.lastNodeId == (if anew then o.nodes[0].id else r.lastNodeId)
    && r'.lastSeq == (if anew then o.nodes[0].seqId else r.lastSeq)
  }

  lemma FreshFields(r: SoundRobot, o: Order, s: Surroundings, r': SoundRobot)
    requires Decide(r, o, s).Accept? && !Decide(r, o, s).isUpdate && |o.nodes| >= 1 && r' == OnOrder(r, o, s)
    ensures AsAccepted(r, o, true, r')
  {
    LaidOutRefs(r, o);
    EnqueueKeeps(LaidOut(r, o), o.nodes[0].actions);
  }

  lemma UpdateFieldsAre(r: SoundRobot, o: Order, s: Surroundings, r': SoundRobot)
    requires Decide(r, o, s).Accept? && Decide(r, o, s).isUpdate && |o.nodes| >= 1 && r' == OnOrder(r, o, s)
    ensures AsAccepted(r, o, false, r')
  {
  }

  lemma AcceptedKind(r: SoundRobot, step: Step)
    requires Accepts(r, step)
    ensures |step.order.nodes| >= 1 && (Replaces(r, step) <==> !Decide(r, step.order, step.around).isUpdate)
  {
    AcceptanceIsExact(step.order, SituationOf(r, step.around));
  }

  lemma DeliveredFields(r: SoundRobot, step: Step, r': SoundRobot)
    requires r' == Next(r, step) && step.Delivered?
    ensures !Accepts(r, step) ==> r' == r
    ensures Accepts(r, step) ==> AsAccepted(r, step.order, Replaces(r, step), r')
  {
    if Accepts(r, step) {
      AcceptedKind(r, step);
      if Decide(r, step.order, step.around).isUpdate {
        UpdateFieldsAre(r, step.order, step.around, r');
      } else {
        FreshFields(r, step.order, step.around, r');
      }
    }
  }

  /** Steps of the engine touch nothing but the engine. */
  predicate InEngine(step: Step) {
    step.RunnerMoves? || step.HandlerReports? || step.HandlerEnds? || step.RetrySkips?
  }

  lemma ClearedFields(r: SoundRobot, step: Step, r': SoundRobot)
    requires r' == Next(r, step) && (step.CancelAsked? || step.ManualAsked?)
    ensures !TakesEffect(r, step) ==> r' == r
    ensures TakesEffect(r, step) ==>
              && Cleared(r') && !r'.newBaseRequest && SameIdentity(r, r')
              && r'.cancelled == (step.CancelAsked? || r.cancelled)
              && r'.lastNodeId == (if step.ManualAsked? then "" else r.lastNodeId) && r'.lastSeq == r.lastSeq
              && r'.driver == r.driver && r'.engine.queue == []
  {
    ClearsExactly(r, step);
  }

  lemma ArrivedPlace(r: SoundRobot, r': SoundRobot)
    requires r' == Arrive(r) && Current(r)
    ensures r'.nodes == r.nodes && r'.edges == r.edges && SameIdentity(r, r') && r'.cancelled == r.cancelled
    ensures r'.lastNodeId == r.driver.target.id && r'.lastSeq == r.driver.target.seqId && r'.driver == Stopped
  {
  }

  lemma ArrivedRequest(r: SoundRobot, r': SoundRobot)
    requires r' == Arrive(r) && Current(r)
    ensures r'.newBaseRequest <==> HasHorizon(r) && !LeadsOnFrom(r, r.driver.target.seqId)
  {
    ArrivedPlace(r, r');
    RequestBaseIs(r');
    assert RequestBase(r') == r';
  }

  lemma RequestBaseIs(r: Robot)
    ensures RequestBase(r).newBaseRequest <==> HasHorizon(r) && !LeadsOnFrom(r, r.lastSeq)
    ensures RequestBase(RequestBase(r)) == RequestBase(r)
  {
  }

  lemma ArrivedFields(r: SoundRobot, r': SoundRobot)
    requires r' == Next(r, Arrived)
    ensures !UnderWay(r) ==> r' == r
    ensures UnderWay(r) ==>
              && r'.nodes == r.nodes && r'.edges == r.edges && SameIdentity(r, r') && r'.cancelled == r.cancelled
              && r'.lastNodeId == r.driver.target.id && r'.lastSeq == r.driver.target.seqId == r.lastSeq + 2
              && r'.driver == Stopped
              && (r'.newBaseRequest <==> HasHorizon(r) && !LeadsOnFrom(r, r.driver.target.seqId))
  {
    UnderWayIsCurrent(r);
    if Current(r) {
      ArrivedPlace(r, r');
      ArrivedRequest(r, r');
    }
  }

  /** What none of the remaining steps touches, and what they do to request and driver. */
  ghost predicate AsOther(r: SoundRobot, step: Step, r': SoundRobot) {
    && r'.nodes == r.nodes && r'.edges == r.edges && SameIdentity(r, r') && r'.cancelled == r.cancelled
    && r'.lastNodeId == r.lastNodeId && r'.lastSeq == r.lastSeq
    && (r'.newBaseRequest <==>
          if step.Rested? && r.driver.Stopped? && !LeadsOnFrom(r, r.lastSeq) then HasHorizon(r) else r.newBaseRequest)
    && (r.driver.Driving? ==> r'.driver == if step.Abandoned? && !UnderWay(r) then Stopped else r.driver)
  }

  lemma RestedFields(r: SoundRobot, r': SoundRobot)
    requires r' == Next(r, Rested)
    ensures AsOther(r, Rested, r')
  {
    PauseKeepsOrder(r);
  }

  lemma AbandonedFields(r: SoundRobot, r': SoundRobot)
    requires r' == Next(r, Abandoned)
    ensures AsOther(r, Abandoned, r')
  {
    UnderWayIsCurrent(r);
    PauseKeepsOrder(r);
  }

  lemma SettingOffFields(r: SoundRobot, step: Step, r': SoundRobot)
    requires step.SettingOff? && r' == Next(r, step)
    ensures AsOther(r, step, r')
  {
    SetOffKeepsOrder(r, step.mayDrive);
  }

  lemma InstantFields(r: SoundRobot, step: Step, r': SoundRobot)
    requires step.InstantAsked? && r' == Next(r, step)
    ensures AsOther(r, step, r')
  {
    InstantTouches(r, step.action, step.supported);
  }

  lemma InstantTouches(r: SoundRobot, a: Action, supported: bool)
    ensures StartInstant(r, a, supported)
         == r.(runs := StartInstant(r, a, supported).runs, engine := StartInstant(r, a, supported).engine)
  {
  }

  lemma EngineFields(r: SoundRobot, step: Step, r': SoundRobot)
    requires InEngine(step) && r' == Next(r, step)
    ensures AsOther(r, step, r')
  {
    EngineKeepsOrder(r, step);
  }

  lemma OtherFields(r: SoundRobot, step: Step, r': SoundRobot)
    requires r' == Next(r, step) && !step.Delivered? && !step.CancelAsked? && !step.ManualAsked? && !step.Arrived?
    ensures AsOther(r, step, r')
  {
    if step.Rested? { RestedFields(r, r'); }
    else if step.Abandoned? { AbandonedFields(r, r'); }
    else if step.SettingOff? { SettingOffFields(r, step, r'); }
    else if step.InstantAsked? { InstantFields(r, step, r'); }
    else { EngineFields(r, step, r'); }
  }

  /** An order message that is accepted, and nothing else, changes which order the robot has; only a
      cancel that takes effect marks it cancelled, and the next accepted message takes that back. */
  lemma IdentityIsExact(r: SoundRobot, step: Step)
    ensures var r' := Next(r, step);
            if Accepts(r, step)
            then r'.hasOrder && r'.orderId == step.order.orderId && r'.updateId == step.order.updateId
                 && r'.lastOrder == Some(step.order) && !r'.cancelled
            else SameIdentity(r, r')
                 && (r'.cancelled <==> r.cancelled || (step.CancelAsked? && TakesEffect(r, step)))
  {
    StepKeepsRobot(r, step);
    var r' := Next(r, step);
    if step.Delivered? { DeliveredFields(r, step, r'); }
    else if step.CancelAsked? || step.ManualAsked? { ClearedFields(r, step, r'); }
    else if step.Arrived? { ArrivedFields(r, r'); }
    else { OtherFields(r, step, r'); }
  }

  /** The last node changes with a fresh order, to its first node, and with an arrival, to the node the
      robot was driving to; a mode switch forgets its name. */
  lemma PlaceIsExact(r: SoundRobot, step: Step)
    ensures var r' := Next(r, step);
            if Replaces(r, step)
            then |step.order.nodes| >= 1 && r'.lastNodeId == step.order.nodes[0].id
                 && r'.lastSeq == step.order.nodes[0].seqId
            else if step.Arrived? && UnderWay(r)
            then r'.lastNodeId == r.driver.target.id && r'.lastSeq == r.driver.target.seqId == r.lastSeq + 2
            else r'.lastNodeId == (if step.ManualAsked? then "" else r.lastNodeId) && r'.lastSeq == r.lastSeq
  {
    StepKeepsRobot(r, step);
    var r' := Next(r, step);
    if step.Delivered? { DeliveredFields(r, step, r'); }
    else if step.CancelAsked? || step.ManualAsked? { ClearedFields(r, step, r'); }
    else if step.Arrived? { ArrivedFields(r, r'); }
    else { OtherFields(r, step, r'); }
  }

  /** The driver stops exactly by arriving on an edge that is still the order's, or by finding that its
      edge no longer is. */
  lemma StopsExactly(r: SoundRobot, step: Step)
    requires r.driver.Driving?
    ensures Next(r, step).driver ==
              if (step.Arrived? && UnderWay(r)) || (step.Abandoned? && !UnderWay(r)) then Stopped else r.driver
  {
    StepKeepsRobot(r, step);
    var r' := Next(r, step);
    if step.Delivered? { DeliveredFields(r, step, r'); }
    else if step.CancelAsked? || step.ManualAsked? { ClearedFields(r, step, r'); }
    else if step.Arrived? { ArrivedFields(r, r'); }
    else { OtherFields(r, step, r'); }
  }

  /** A new base is requested by a robot that comes to rest, or arrives, where no released edge leads on
      although the route has a horizon; the request is taken back by an accepted message and by what
      clears the order, and stays through everything else. */
  lemma RequestIsExact(r: SoundRobot, step: Step)
    ensures Next(r, step).newBaseRequest <==>
              if Accepts(r, step) || TakesEffect(r, step) then false
              else if step.Arrived? && UnderWay(r) then HasHorizon(r) && !LeadsOnFrom(r, r.driver.target.seqId)
              else if step.Rested? && r.driver.Stopped? && !LeadsOnFrom(r, r.lastSeq) then HasHorizon(r)
              else r.newBaseRequest
  {
    StepKeepsRobot(r, step);
    var r' := Next(r, step);
    if step.Delivered? { DeliveredFields(r, step, r'); }
    else if step.CancelAsked? || step.ManualAsked? { ClearedFields(r, step, r'); }
    else if step.Arrived? { ArrivedFields(r, r'); }
    else { OtherFields(r, step, r'); }
  }

  // --------------------------------------------------------------- the graph

  /** Each node sent is stored under its number as it was sent; the other numbers hold what they held, as
      far as the order goes on, before the first node sent. */
  ghost predicate NodesStored(before: map<int, Node>, goesOn: bool, sent: seq<Node>, after: map<int, Node>) {
    && |sent| >= 1
    && (forall i | 0 <= i < |sent| :: sent[i].seqId in after && after[sent[i].seqId] == sent[i])
    && (forall k | (forall i | 0 <= i < |sent| :: sent[i].seqId != k) ::
          && (k in after <==> goesOn && k in before && k < sent[0].seqId)
          && (k in after ==> after[k] == before[k]))
  }

  ghost predicate EdgesStored(before: map<int, RxEdge>, goesOn: bool, sent: seq<Edge>, first: int, tag: nat,
                              after: map<int, RxEdge>) {
    && (forall i | 0 <= i < |sent| :: sent[i].seqId in after && after[sent[i].seqId] == RxEdge(tag, sent[i]))
    && (forall k | (forall i | 0 <= i < |sent| :: sent[i].seqId != k) ::
          && (k in after <==> goesOn && k in before && k <= first)
          && (k in after ==> after[k] == before[k]))
  }

  lemma {:induction false} IndexedExactly(nodes: seq<Node>, start: int)
    requires forall i | 0 <= i < |nodes| :: nodes[i].seqId == NodeNumber(start, i)
    ensures forall i | 0 <= i < |nodes| ::
              nodes[i].seqId in IndexNodes(nodes) && IndexNodes(nodes)[nodes[i].seqId] == nodes[i]
    ensures forall k | k in IndexNodes(nodes) :: exists i :: 0 <= i < |nodes| && nodes[i].seqId == k
  {
    IndexedNodes(nodes, start);
    forall k | k in IndexNodes(nodes) ensures exists i :: 0 <= i < |nodes| && nodes[i].seqId == k {
      assert k in NodeKeys(start, |nodes|);
      var i :| 0 <= i < |nodes| && k == NodeNumber(start, i);
      assert nodes[i].seqId == k;
    }
  }

  lemma {:induction false} IndexedEdgesExactly(edges: seq<Edge>, start: int, tag: nat)
    requires forall i | 0 <= i < |edges| :: edges[i].seqId == EdgeNumber(start, i)
    ensures forall i | 0 <= i < |edges| ::
              && edges[i].seqId in IndexEdges(edges, tag)
              && IndexEdges(edges, tag)[edges[i].seqId] == RxEdge(tag, edges[i])
    ensures forall k | k in IndexEdges(edges, tag) :: exists i :: 0 <= i < |edges| && edges[i].seqId == k
  {
    IndexedEdges(edges, start, tag);
    forall k | k in IndexEdges(edges, tag) ensures exists i :: 0 <= i < |edges| && edges[i].seqId == k {
      assert k in EdgeKeys(start, |edges|);
      var i :| 0 <= i < |edges| && k == EdgeNumber(start, i);
      assert edges[i].seqId == k;
    }
  }

  lemma StitchStores(before: map<int, Node>, sent: seq<Node>)
    requires |sent| >= 1 && forall i | 0 <= i < |sent| :: sent[i].seqId == NodeNumber(sent[0].seqId, i)
    ensures NodesStored(before, true, sent, StitchNodes(before, sent))
    ensures NodesStored(before, false, sent, IndexNodes(sent))
  {
    IndexedExactly(sent, sent[0].seqId);
  }

  lemma StitchStoresEdges(before: map<int, RxEdge>, sent: seq<Edge>, first: int, tag: nat)
    requires forall i | 0 <= i < |sent| :: sent[i].seqId == EdgeNumber(first, i)
    ensures EdgesStored(before, true, sent, first, tag, StitchEdges(before, sent, first, tag))
    ensures EdgesStored(before, false, sent, first, tag, IndexEdges(sent, tag))
  {
    IndexedEdgesExactly(sent, first, tag);
  }

  lemma AcceptedNumbers(r: SoundRobot, o: Order, s: Surroundings)
    requires Decide(r, o, s).Accept?
    ensures |o.nodes| >= 1
    ensures forall i | 0 <= i < |o.nodes| :: o.nodes[i].seqId == NodeNumber(o.nodes[0].seqId, i)
    ensures forall i | 0 <= i < |o.edges| :: o.edges[i].seqId == EdgeNumber(o.nodes[0].seqId, i)
  {
    AcceptanceIsExact(o, SituationOf(r, s));
  }

  /** The graph changes with an accepted message, which stores each of its elements as it was sent and drops
      what lay beyond its first node, and is emptied by what clears the order; nothing else touches it. */
  lemma GraphIsExact(r: SoundRobot, step: Step, r': SoundRobot)
    requires r' == Next(r, step)
    ensures Accepts(r, step) ==>
              && NodesStored(r.nodes, !Replaces(r, step), step.order.nodes, r'.nodes)
              && EdgesStored(r.edges, !Replaces(r, step), step.order.edges, step.order.nodes[0].seqId, r.accepted,
                             r'.edges)
    ensures TakesEffect(r, step) ==> r'.nodes == map[] && r'.edges == map[]
    ensures !Accepts(r, step) && !TakesEffect(r, step) ==> r'.nodes == r.nodes && r'.edges == r.edges
  {
    if step.Delivered? {
      GraphOnDelivery(r, step, r');
    } else if step.CancelAsked? || step.ManualAsked? {
      ClearedFields(r, step, r');
    } else if step.Arrived? {
      ArrivedFields(r, r');
    } else {
      OtherFields(r, step, r');
    }
  }

  lemma GraphOnDelivery(r: SoundRobot, step: Step, r': SoundRobot)
    requires r' == Next(r, step) && step.Delivered?
    ensures Accepts(r, step) ==>
              && NodesStored(r.nodes, !Replaces(r, step), step.order.nodes, r'.nodes)
              && EdgesStored(r.edges, !Replaces(r, step), step.order.edges, step.order.nodes[0].seqId, r.accepted,
                             r'.edges)
    ensures !Accepts(r, step) ==> r' == r
  {
    var o, s := step.order, step.around;
    DeliveredFields(r, step, r');
    if Accepts(r, step) {
      AcceptedNumbers(r, o, s);
      StitchStores(r.nodes, o.nodes);
      StitchStoresEdges(r.edges, o.edges, o.nodes[0].seqId, r.accepted);
      if Replaces(r, step) { FreshOutcome(r, o, s); } else { UpdateOutcome(r, o, s); }
    }
  }

  // ------------------------------------------------------- the base request

  /** A base is asked for only where the route has a horizon and no released edge leads on. */
  ghost predicate RequestIsTrue(r: Robot) { r.newBaseRequest ==> HasHorizon(r) && !LeadsOnFrom(r, r.lastSeq) }

  lemma RequestStaysTrue(r: SoundRobot, step: Step)
    requires RequestIsTrue(r)
    ensures RequestIsTrue(Next(r, step))
  {
    StepKeepsRobot(r, step);
    var r' := Next(r, step);
    if step.Delivered? { DeliveredFields(r, step, r'); }
    else if step.CancelAsked? || step.ManualAsked? { ClearedFields(r, step, r'); }
    else if step.Arrived? { ArrivedFields(r, r'); }
    else { OtherFields(r, step, r'); }
  }

  /** Over every run from power-on a request is true, and it is there whenever the robot has come to rest
      where the base ends. */
  lemma {:induction false} RequestsExactly(r: SoundRobot, steps: seq<Step>)
    requires r == After(Idle, steps)
    ensures RequestIsTrue(r)
    ensures r.driver.Stopped? && !LeadsOnFrom(r, r.lastSeq) ==> (Next(r, Rested).newBaseRequest <==> HasHorizon(r))
    decreases |steps|
  {
    if steps != [] {
      RequestsExactly(After(Idle, steps[..|steps| - 1]), steps[..|steps| - 1]);
      RequestStaysTrue(After(Idle, steps[..|steps| - 1]), steps[|steps| - 1]);
    }
    RequestIsExact(r, Rested);
  }

  // ------------------------------------------------------------ single runs

  /** A cancel or mode switch fails what is queued, what waits for a retry, and every registered order
      action that waits; a mode switch also every one that has no task at work. */
  ghost predicate FailedBy(r: SoundRobot, step: Step, k: nat)
    requires k < |r.engine.table|
  {
    var run := r.engine.table[k];
    || k in r.engine.queue
    || (run.origin != Instant && k in r.engine.active && run.status == Retriable)
    || (run.origin != Instant && k in r.runs.Values && run.status == Waiting)
    || (step.ManualAsked? && run.origin != Instant && k in r.runs.Values
        && run.status !in {Finished, Failed} && run.task in {NoTask, Ended})
  }

  /** It stops the task of every active order action that is at work and may be stopped; a mode switch also
      of every registered one. */
  ghost predicate StoppedBy(r: SoundRobot, step: Step, k: nat)
    requires k < |r.engine.table|
  {
    var run := r.engine.table[k];
    && run.origin != Instant && run.status !in {Finished, Failed}
    && ((k in r.engine.active && k !in r.engine.queue && run.status != Retriable
         && run.action.kind !in {"cancelOrder", "shutdown"})
        || (step.ManualAsked? && k in r.runs.Values))
  }

  /** A task that has not begun never will; one at work ends at its next wait. */
  function StoppedTask(task: Task): Task {
    match task case Created => Ended case Live => Cancelling case _ => task
  }

  lemma StoppedRun(run: Run)
    ensures CancelTask(run) == run.(task := StoppedTask(run.task))
  {
  }

  ghost predicate AsCleared(r: SoundRobot, step: Step, k: nat, run': Run)
    requires k < |r.engine.table|
  {
    var run := r.engine.table[k];
    run' == run.(status := if FailedBy(r, step, k) then Failed else run.status,
                 finished := run.finished || FailedBy(r, step, k),
                 task := if StoppedBy(r, step, k) then StoppedTask(run.task) else run.task)
  }

  lemma CanceledTable(r: SoundRobot, step: Step, k: nat, run': Run)
    requires k < |r.engine.table| && step.CancelAsked? && Clears(r, step)
    requires run' == var canceled := CancelledRun(r.engine, k);
                     if k in r.runs.Values then FailIfWaiting(canceled) else canceled
    ensures k < |Next(r, step).engine.table| && Next(r, step).engine.table[k] == run'
  {
  }

  lemma CanceledRunIs(r: SoundRobot, step: Step, k: nat, run': Run)
    requires k < |r.engine.table| && step.CancelAsked?
    requires run' == var canceled := CancelledRun(r.engine, k);
                     if k in r.runs.Values then FailIfWaiting(canceled) else canceled
    ensures AsCleared(r, step, k, run')
  {
  }

  lemma CancelIsExact(r: SoundRobot, step: Step, k: nat)
    requires k < |r.engine.table| && step.CancelAsked? && TakesEffect(r, step)
    ensures k < |Next(r, step).engine.table| && AsCleared(r, step, k, Next(r, step).engine.table[k])
  {
    ClearsExactly(r, step);
    var canceled := CancelledRun(r.engine, k);
    var run' := if k in r.runs.Values then FailIfWaiting(canceled) else canceled;
    CanceledTable(r, step, k, run');
    CanceledRunIs(r, step, k, run');
  }

  /** The run after the mode switch has stopped it, before the engine's cancel pass. */
  function Halted(r: SoundRobot, k: nat): Run
    requires k < |r.engine.table|
  {
    if k in r.runs.Values then StopRun(r.engine.table[k]) else r.engine.table[k]
  }

  /** And after that pass. */
  function HaltedAndCanceled(r: SoundRobot, k: nat): Run
    requires k < |r.engine.table|
  {
    var run := Halted(r, k);
    var queued := if k in r.engine.queue then run.(status := Failed, finished := true) else run;
    if k in r.engine.active then CancelActiveRun(queued) else queued
  }

  lemma ManualTable(r: SoundRobot, k: nat)
    requires k < |r.engine.table|
    ensures var table' := Next(r, ManualAsked).engine.table;
            && k < |table'|
            && table'[k] == (var run := HaltedAndCanceled(r, k);
                             if k in r.runs.Values then FailIfWaiting(run) else run)
  {
    var stopped := r.engine.(table := StopRuns(r.engine.table, r.runs.Values));
    assert stopped.table[k] == Halted(r, k);
    assert CancelledRun(stopped, k) == HaltedAndCanceled(r, k);
  }

  lemma HaltedRunIs(r: SoundRobot, k: nat, run': Run)
    requires k < |r.engine.table|
    requires run' == if k in r.runs.Values then FailIfWaiting(HaltedAndCanceled(r, k)) else HaltedAndCanceled(r, k)
    ensures AsCleared(r, ManualAsked, k, run')
  {
  }

  lemma ManualIsExact(r: SoundRobot, step: Step, k: nat)
    requires k < |r.engine.table| && step.ManualAsked?
    ensures k < |Next(r, step).engine.table| && AsCleared(r, step, k, Next(r, step).engine.table[k])
  {
    ManualTable(r, k);
    HaltedRunIs(r, k, Next(r, step).engine.table[k]);
  }

  /** What clears the order does to each single action, across the queue, the active list, the registry
      and the tasks. */
  lemma ClearingIsExact(r: SoundRobot, step: Step, k: nat)
    requires k < |r.engine.table| && TakesEffect(r, step)
    ensures k < |Next(r, step).engine.table| && AsCleared(r, step, k, Next(r, step).engine.table[k])
  {
    if step.ManualAsked? { ManualIsExact(r, step, k); } else { CancelIsExact(r, step, k); }
  }

  /** What the steps that drive and deliver make of an action: leaving an edge finishes what the edge
      started and is still at work, a fresh order stops the tasks of the order before, the queue runner
      starts one, and nothing else changes. */
  ghost predicate AsMoved(r: SoundRobot, step: Step, k: nat, run': Run)
    requires k < |r.engine.table|
  {
    var run := r.engine.table[k];
    if step.Arrived? && UnderWay(r) && k in r.engine.active && run.origin == OnEdge
       && run.element == r.driver.edge.edge.seqId && run.status !in {Finished, Failed}
    then run' == run.(status := Finished, finished := true, task := StoppedTask(run.task))
    else if Replaces(r, step) && k in r.runs.Values then run' == run.(task := StoppedTask(run.task))
    else if step.RunnerMoves? && Begins(r, step, k) then run' == run.(task := Created)
    else run' == run
  }

  lemma ArrivalIsExact(r: SoundRobot, step: Step, k: nat)
    requires step.Arrived? && k < |r.engine.table|
    ensures |Next(r, step).engine.table| == |r.engine.table| && AsMoved(r, step, k, Next(r, step).engine.table[k])
  {
    UnderWayIsCurrent(r);
  }

  lemma OneStarts(e: EngineState, i: nat, k: nat, l: nat)
    requires StartsRun(e, i, k) && StartsRun(e, i, l)
    ensures k == l
  {
  }

  lemma RunnerTable(e: EngineState, i: nat, k: nat, e': EngineState)
    requires Valid(e) && i < |e.runners| && k < |e.table| && e' == RunnerStep(e, i)
    ensures |e'.table| == |e.table|
    ensures e'.table[k] == if StartsRun(e, i, k) then e.table[k].(task := Created) else e.table[k]
  {
    RunnerStarts(e, i, e');
    if e'.table != e.table {
      var l: nat :| l < |e.table| && StartsRun(e, i, l) && e'.table == e.table[l := e.table[l].(task := Created)];
      if StartsRun(e, i, k) { OneStarts(e, i, k, l); }
    } else if StartsRun(e, i, k) {
      StartedIsCreated(e, i, k, e');
    }
  }

  lemma StartedIsCreated(e: EngineState, i: nat, k: nat, e': EngineState)
    requires Valid(e) && StartsRun(e, i, k) && e' == RunnerStep(e, i)
    ensures e'.table == e.table[k := e.table[k].(task := Created)]
  {
  }

  lemma RunnerIsExact(r: SoundRobot, step: Step, k: nat)
    requires step.RunnerMoves? && k < |r.engine.table|
    ensures |Next(r, step).engine.table| == |r.engine.table| && AsMoved(r, step, k, Next(r, step).engine.table[k])
  {
    if step.runner < |r.engine.runners| { RunnerTable(r.engine, step.runner, k, Next(r, step).engine); }
  }

  lemma StoppedByOrder(r: SoundRobot, step: Step, k: nat, run': Run)
    requires Replaces(r, step) && k < |r.engine.table|
    requires run' == if k in r.runs.Values then CancelTask(r.engine.table[k]) else r.engine.table[k]
    ensures AsMoved(r, step, k, run')
  {
    StoppedRun(r.engine.table[k]);
  }

  lemma DeliveredIsExact(r: SoundRobot, step: Step, k: nat, e': EngineState)
    requires step.Delivered? && k < |r.engine.table| && e' == Next(r, step).engine
    ensures k < |e'.table| && AsMoved(r, step, k, e'.table[k])
  {
    if Replaces(r, step) {
      FreshTable(r, step, e');
      StoppedByOrder(r, step, k, e'.table[k]);
    } else if Accepts(r, step) {
      UpdateTable(r, step, e');
      assert e'.table[k] == r.engine.table[k];
    } else {
      DeliveredFields(r, step, Next(r, step));
    }
  }

  lemma TableUnchanged(r: SoundRobot, step: Step, k: nat, e': EngineState)
    requires k < |r.engine.table| && (step.InstantAsked? || step.SettingOff? || step.Rested? || step.Abandoned?)
    requires e' == Next(r, step).engine
    ensures k < |e'.table| && e'.table[k] == r.engine.table[k]
  {
    if step.InstantAsked? && step.action.id !in r.runs {
      NewInstant(r, step.action, step.supported, e');
      assert e'.table[k] == e'.table[..|r.engine.table|][k];
    } else if step.SettingOff? {
      SetOffTable(r, step.mayDrive);
    } else if step.Rested? || step.Abandoned? {
      PauseKeepsOrder(r);
    }
  }

  lemma SetOffTable(r: SoundRobot, mayDrive: bool)
    ensures SetOff(r, mayDrive).engine.table == r.engine.table
  {
  }

  lemma ElseUnchanged(r: SoundRobot, step: Step, k: nat)
    requires k < |r.engine.table| && (step.InstantAsked? || step.SettingOff? || step.Rested? || step.Abandoned?)
    ensures k < |Next(r, step).engine.table| && AsMoved(r, step, k, Next(r, step).engine.table[k])
  {
    TableUnchanged(r, step, k, Next(r, step).engine);
  }

  lemma MovingIsExact(r: SoundRobot, step: Step, k: nat)
    requires k < |r.engine.table|
    requires !step.CancelAsked? && !step.ManualAsked?
    requires !step.HandlerReports? && !step.HandlerEnds? && !step.RetrySkips?
    ensures k < |Next(r, step).engine.table| && AsMoved(r, step, k, Next(r, step).engine.table[k])
  {
    if step.Delivered? { DeliveredIsExact(r, step, k, Next(r, step).engine); }
    else if step.Arrived? { ArrivalIsExact(r, step, k); }
    else if step.RunnerMoves? { RunnerIsExact(r, step, k); }
    else { ElseUnchanged(r, step, k); }
  }

  /** A handler at work reports and ends as it likes; one that is being stopped can only fail, and a run
      without a task at work is out of reach. Only a run that waits for a retry can be skipped. */
  lemma HandlersDecide(r: SoundRobot, step: Step, k: nat)
    requires k < |r.engine.table| && (step.HandlerReports? || step.HandlerEnds? || step.RetrySkips?) && step.run == k
    ensures var run, run' := r.engine.table[k], Next(r, step).engine.table[k];
            var open := run.task == Created || (run.task == Live && run.status !in {Finished, Failed});
            match step
            case HandlerReports(_, to) =>
              if open && to in {Initializing, Running, Paused, Finished}
              then run'.status == to && run'.task == Live && run'.finished == run.finished
              else run' == run
            case HandlerEnds(_, to) =>
              if run.task == Cancelling || (run.task in {Created, Live} && to in {Finished, Failed, Retriable})
              then run'.task == Ended
                   && run'.status == (if open then to
                                      else if run.status in {Finished, Failed} then run.status else Failed)
                   && (run'.finished <==> run.finished || run'.status in {Finished, Failed})
              else run' == run
            case RetrySkips(_) =>
              if run.status == Retriable then run'.status == Failed && run'.finished && run'.task == run.task
              else run' == run
  {
    HandledOnly(r, step, k);
  }

  /** An instant action whose id is known is ignored; a new one starts at once, beside the queue, or is
      reported FAILED if the robot does not support it. */
  lemma InstantIsExact(r: SoundRobot, a: Action, supported: bool)
    ensures var r', k := Next(r, InstantAsked(a, supported)), |r.engine.table|;
            if a.id in r.runs then r' == r
            else
              && r'.runs == r.runs[a.id := k] && |r'.engine.table| == k + 1 && r'.engine.table[..k] == r.engine.table
              && r'.engine.table[k].action == a && r'.engine.table[k].origin == Instant
              && r'.engine.queue == r.engine.queue && r'.actionStates == r.actionStates
              && (if supported
                  then r'.engine.active == r.engine.active + [k] && r'.engine.table[k].task == Created
                       && r'.engine.table[k].status == Waiting
                  else r'.engine.active == r.engine.active && r'.engine.table[k].task == NoTask
                       && r'.engine.table[k].status == Failed)
  {
  }

  // -------------------------------------------------------------- the queue

  /** The runs registered for these actions that wait, in the order of the actions. */
  function Pending(r: Robot, actions: seq<Action>): seq<nat>
    requires RefsOk(r)
  {
    if actions == [] then []
    else
      var id := actions[0].id;
      (if id in r.runs && r.engine.table[r.runs[id]].status == Waiting then [r.runs[id]] else [])
      + Pending(r, actions[1..])
  }

  lemma {:induction false} PendingAppend(r: Robot, a: seq<Action>, b: seq<Action>)
    requires RefsOk(r)
    ensures Pending(r, a + b) == Pending(r, a) + Pending(r, b)
    decreases |a|
  {
    if a == [] {
      assert a + b == b;
    } else {
      PendingAppend(r, a[1..], b);
      assert (a + b)[1..] == a[1..] + b;
    }
  }

  lemma {:induction false} PendingIsExact(r: Robot, actions: seq<Action>)
    requires RefsOk(r)
    ensures PendingRuns(r.engine.table, r.runs, actions) == Pending(r, actions)
    decreases |actions|
  {
    if actions != [] {
      var init, last := actions[..|actions| - 1], actions[|actions| - 1];
      PendingIsExact(r, init);
      PendingAppend(r, init, [last]);
      assert init + [last] == actions && [last][1..] == [];
    }
  }

  /** Ids of actions on the part of the route an update replaces. */
  ghost predicate OnHorizon(r: Robot, stitch: int, id: string) {
    || (exists k, i :: k in r.nodes && k > stitch && 0 <= i < |r.nodes[k].actions| && r.nodes[k].actions[i].id == id)
    || (exists k, i :: k in r.edges && k > stitch && 0 <= i < |r.edges[k].edge.actions|
                       && r.edges[k].edge.actions[i].id == id)
  }

  lemma HorizonIdsExact(r: Robot, stitch: int, id: string)
    ensures id in HorizonIds(r, stitch) <==> OnHorizon(r, stitch, id)
  {
    if id in HorizonIds(r, stitch) {
      if k, a :| k in r.nodes && k > stitch && a in r.nodes[k].actions && a.id == id {
        var i :| 0 <= i < |r.nodes[k].actions| && r.nodes[k].actions[i] == a;
      } else {
        var k, a :| k in r.edges && k > stitch && a in r.edges[k].edge.actions && a.id == id;
        var i :| 0 <= i < |r.edges[k].edge.actions| && r.edges[k].edge.actions[i] == a;
      }
    }
  }

  /** The runs still registered once the ids in `gone` are forgotten, in order. */
  function Without(r: Robot, queue: seq<nat>, gone: set<string>): seq<nat>
    requires RefsOk(r) && forall i | 0 <= i < |queue| :: queue[i] < |r.engine.table|
  {
    if queue == [] then []
    else
      var id := r.engine.table[queue[0]].action.id;
      (if id in r.runs && id !in gone then [queue[0]] else []) + Without(r, queue[1..], gone)
  }

  lemma {:induction false} KeepIsWithout(r: Robot, queue: seq<nat>, gone: set<string>)
    requires RefsOk(r) && forall i | 0 <= i < |queue| :: queue[i] < |r.engine.table|
    ensures KeepIds(r.engine.table, queue, (r.runs - gone).Keys) == Without(r, queue, gone)
    decreases |queue|
  {
    if queue != [] { KeepIsWithout(r, queue[1..], gone); }
  }

  /** The queue after any step. Handing over appends, in the order of the actions; the runner takes from
      the front; what clears the order empties it, and an update takes out what its horizon drops. */
  ghost predicate QueueIs(r: SoundRobot, step: Step, r': SoundRobot) {
    var queue, queue' := r.engine.queue, r'.engine.queue;
    match step
    case Delivered(o, _) =>
      if !Accepts(r, step) then queue' == queue
      else if |o.nodes| < 1 then false
      else if Replaces(r, step) then queue' == Pending(r', o.nodes[0].actions)
      else
        var kept := Without(r, queue, set id | id in r.runs && OnHorizon(r, o.nodes[0].seqId, id));
        if r.lastSeq < o.nodes[0].seqId then queue' == kept
        else kept <= queue' && forall i | |kept| <= i < |queue'| :: queue'[i] == |r.engine.table| + i - |kept|
    case SettingOff(_) =>
      if r'.driver == r.driver then queue' == queue
      else r.lastSeq + 1 in r.edges && queue' == queue + Pending(r, r.edges[r.lastSeq + 1].edge.actions)
    case Arrived => queue' == if UnderWay(r) then queue + Pending(r', r.driver.target.actions) else queue
    case RunnerMoves(i) =>
      queue' == if i < |r.engine.runners| && r.engine.runners[i] == AtTop && queue != [] then queue[1..] else queue
    case _ => queue' == if TakesEffect(r, step) then [] else queue
  }

  lemma ForgottenIds(r: SoundRobot, stitch: int, gone: set<string>)
    requires gone == set id | id in r.runs && OnHorizon(r, stitch, id)
    ensures r.runs - gone == r.runs - HorizonIds(r, stitch)
  {
    forall id | id in r.runs ensures id in gone <==> id in HorizonIds(r, stitch) { HorizonIdsExact(r, stitch, id); }
  }

  lemma UpdateQueueIs(r: SoundRobot, o: Order, gone: set<string>, queue': seq<nat>)
    requires |o.nodes| >= 1 && gone == set id | id in r.runs && OnHorizon(r, o.nodes[0].seqId, id)
    requires queue' == UpdateEngine(r, o).queue
    ensures queue' == Without(r, r.engine.queue, gone)
                      + (if r.lastSeq >= o.nodes[0].seqId
                         then Range(|r.engine.table|, |StitchLedger(r, o).table|) else [])
  {
    ForgottenIds(r, o.nodes[0].seqId, gone);
    KeepIsWithout(r, r.engine.queue, gone);
  }

  lemma RangeCounts(from: nat, to: nat)
    ensures forall i | 0 <= i < |Range(from, to)| :: Range(from, to)[i] == from + i
  {
  }

  lemma UpdateQueue(r: SoundRobot, step: Step, r': SoundRobot)
    requires r' == Next(r, step) && Accepts(r, step) && !Replaces(r, step)
    ensures QueueIs(r, step, r')
  {
    var o := step.order;
    FieldsOfUpdate(r, o, step.around);
    var gone := set id | id in r.runs && OnHorizon(r, o.nodes[0].seqId, id);
    UpdateQueueIs(r, o, gone, r'.engine.queue);
    if r.lastSeq >= o.nodes[0].seqId {
      QueueGrows(Without(r, r.engine.queue, gone), |r.engine.table|, |StitchLedger(r, o).table|, r'.engine.queue);
    }
  }

  lemma QueueGrows(kept: seq<nat>, from: nat, to: nat, queue': seq<nat>)
    requires queue' == kept + Range(from, to)
    ensures kept <= queue' && forall i | |kept| <= i < |queue'| :: queue'[i] == from + i - |kept|
  {
    RangeCounts(from, to);
    assert forall i | |kept| <= i < |queue'| :: queue'[i] == Range(from, to)[i - |kept|];
  }

  lemma FreshQueue(r: SoundRobot, step: Step, r': SoundRobot)
    requires r' == Next(r, step) && Replaces(r, step)
    ensures QueueIs(r, step, r')
  {
    EngineOfFresh(r, step.order, step.around);
    PendingIsExact(r', step.order.nodes[0].actions);
  }

  lemma ArrivalQueue(r: SoundRobot, r': SoundRobot)
    requires r' == Next(r, Arrived)
    ensures QueueIs(r, Arrived, r')
  {
    UnderWayIsCurrent(r);
    if UnderWay(r) { PendingIsExact(r', r.driver.target.actions); }
  }

  lemma SettingOffQueue(r: SoundRobot, step: Step, r': SoundRobot)
    requires r' == Next(r, step) && step.SettingOff?
    ensures QueueIs(r, step, r')
  {
    if r'.driver != r.driver { PendingIsExact(r, r.edges[r.lastSeq + 1].edge.actions); }
  }

  lemma HandlerQueue(r: SoundRobot, step: Step, r': SoundRobot)
    requires r' == Next(r, step) && (step.HandlerReports? || step.HandlerEnds? || step.RetrySkips?)
    ensures QueueIs(r, step, r')
  {
    if |r.engine.table| > 0 { HandledOnly(r, step, 0); }
  }

  lemma OtherQueue(r: SoundRobot, step: Step, r': SoundRobot)
    requires r' == Next(r, step) && (step.RunnerMoves? || step.InstantAsked? || step.Rested? || step.Abandoned?)
    ensures QueueIs(r, step, r')
  {
  }

  lemma QueueIsExact(r: SoundRobot, step: Step, r': SoundRobot)
    requires r' == Next(r, step)
    ensures QueueIs(r, step, r')
  {
    if Replaces(r, step) { FreshQueue(r, step, r'); }
    else if Accepts(r, step) { UpdateQueue(r, step, r'); }
    else if step.Delivered? { DeliveredFields(r, step, r'); }
    else if step.Arrived? { ArrivalQueue(r, r'); }
    else if step.SettingOff? { SettingOffQueue(r, step, r'); }
    else if step.CancelAsked? || step.ManualAsked? { ClearedFields(r, step, r'); }
    else if step.HandlerReports? || step.HandlerEnds? || step.RetrySkips? { HandlerQueue(r, step, r'); }
    else { OtherQueue(r, step, r'); }
  }
}
