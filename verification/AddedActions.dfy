/** What becomes, over a whole run, of an action that an update adds to its stitch node: it is handed
    to the engine unless the robot was driving towards that node, and then it stays stranded. */
module AddedActions {
  import opened Vda5050
  import opened OrderAcceptance
  import opened Actions
  import opened RobotModel
  import opened RobotInvariants
  import opened RobotTheorems
  import opened OrderChain
  import opened OrderActions
  import opened OrderHandover

  predicate Mentions(actions: seq<Action>, id: string) {
    exists i | 0 <= i < |actions| :: actions[i].id == id
  }

  predicate NamedBy(o: Order, id: string) {
    || (exists i | 0 <= i < |o.nodes| :: Mentions(o.nodes[i].actions, id))
    || (exists i | 0 <= i < |o.edges| :: Mentions(o.edges[i].actions, id))
  }

  /** No element of the stored graph but node `at` carries an action of that id. */
  ghost predicate NamedOnlyAt(r: Robot, id: string, at: int) {
    && (forall k | k in r.nodes && k != at :: !Mentions(r.nodes[k].actions, id))
    && (forall k | k in r.edges :: !Mentions(r.edges[k].edge.actions, id))
  }

  /** A queue runner has taken the run out of the queue and not started it yet. */
  predicate Holds(p: Runner, k: nat) {
    match p
    case Checking(r, _) => r == k
    case WaitingFor(r, _) => r == k
    case _ => false
  }

  predicate HeldByRunner(e: EngineState, k: nat) { exists i | 0 <= i < |e.runners| :: Holds(e.runners[i], k) }

  /** The run is queued, in a runner's hands, or has been started. */
  predicate HandedOver(e: EngineState, k: nat)
    requires k < |e.table|
  {
    k in e.queue || HeldByRunner(e, k) || e.table[k].task != NoTask
  }

  /** The run is registered and waits, and nobody has handed it to the engine. */
  ghost predicate Unserved(r: Robot, k: nat, id: string) {
    && k < |r.engine.table| && !HandedOver(r.engine, k) && k !in r.engine.active
    && r.engine.table[k].status == Waiting
    && id in r.runs && r.runs[id] == k && k in r.actionStates
  }

  // ------------------------------------------------------- engine steps

  lemma NotPendingUnlessMentioned(r: Robot, table: seq<Run>, actions: seq<Action>, k: nat, id: string)
    requires RefsOk(r) && ListedOk(r) && id in r.runs && r.runs[id] == k && !Mentions(actions, id)
    requires forall other | other in r.runs :: r.runs[other] < |table|
    ensures k !in PendingRuns(table, r.runs, actions)
  {
    if k in PendingRuns(table, r.runs, actions) {
      PendingComesFrom(table, r.runs, actions, k);
    }
  }

  lemma UnservedByRunner(e: EngineState, i: nat, k: nat)
    requires Valid(e) && i < |e.runners| && k < |e.table| && !HandedOver(e, k) && k !in e.active
    ensures var e' := RunnerStep(e, i);
            k < |e'.table| && e'.table[k] == e.table[k] && !HandedOver(e', k) && k !in e'.active
  {
    assert !Holds(e.runners[i], k);
    var e' := RunnerStep(e, i);
    forall x | 0 <= x < |e'.runners| ensures !Holds(e'.runners[x], k) {
      if x != i { assert e'.runners[x] == e.runners[x]; }
    }
  }

  lemma UnservedKept(r: Robot, table: seq<Run>, k: nat, id: string)
    requires Unserved(r, k, id) && k < |table| && table[k] == r.engine.table[k]
    ensures Unserved(r.(engine := r.engine.(table := table)), k, id)
  {
    assert HeldByRunner(r.engine.(table := table), k) == HeldByRunner(r.engine, k);
  }

  /** A handler or a skipped retry passes it by. */
  lemma UnservedByHandlers(r: SoundRobot, step: Step, k: nat, id: string)
    requires Unserved(r, k, id) && (step.HandlerReports? || step.HandlerEnds? || step.RetrySkips?)
    ensures Unserved(Next(r, step), k, id)
  {
    HandledOnly(r, step, k);
    UnservedKept(r, Next(r, step).engine.table, k, id);
  }

  lemma UnservedByInstant(r: SoundRobot, a: Action, supported: bool, k: nat, id: string)
    requires Unserved(r, k, id)
    ensures Unserved(StartInstant(r, a, supported), k, id)
  {
    if a.id !in r.runs {
      var e' := StartInstant(r, a, supported).engine;
      assert e'.queue == r.engine.queue && e'.runners == r.engine.runners && e'.table[k] == r.engine.table[k];
      assert HeldByRunner(e', k) == HeldByRunner(r.engine, k);
    }
  }

  lemma UnservedByEngine(r: SoundRobot, step: Step, k: nat, id: string)
    requires Unserved(r, k, id)
    requires step.RunnerMoves? || step.HandlerReports? || step.HandlerEnds? || step.RetrySkips? || step.InstantAsked?
    ensures Unserved(Next(r, step), k, id)
  {
    if step.RunnerMoves? {
      if step.runner < |r.engine.runners| { UnservedByRunner(r.engine, step.runner, k); }
    } else if step.InstantAsked? {
      UnservedByInstant(r, step.action, step.supported, k, id);
    } else {
      UnservedByHandlers(r, step, k, id);
    }
  }

  lemma HandedOverByRunner(e: EngineState, i: nat, k: nat)
    requires Valid(e) && i < |e.runners| && k < |e.table| && HandedOver(e, k)
    ensures k < |RunnerStep(e, i).table| && HandedOver(RunnerStep(e, i), k)
  {
    var e' := RunnerStep(e, i);
    if HeldByRunner(e, k) && e.table[k].task == NoTask {
      var x :| 0 <= x < |e.runners| && Holds(e.runners[x], k);
      if x != i { assert e'.runners[x] == e.runners[x]; }
      assert Holds(e'.runners[x], k) || e'.table[k].task != NoTask;
    } else if k in e.queue && k !in e'.queue {
      assert k == e.queue[0];
      assert Holds(e'.runners[i], k) || e'.table[k].task != NoTask;
    }
  }

  lemma EnqueueLeavesHeld(e: EngineState, runs: seq<nat>, k: nat)
    ensures HeldByRunner(Enqueue(e, runs), k) == HeldByRunner(e, k)
  {
    var e' := Enqueue(e, runs);
    if i :| 0 <= i < |e.runners| && Holds(e.runners[i], k) { assert Holds(e'.runners[i], k); }
    if i :| 0 <= i < |e'.runners| && Holds(e'.runners[i], k) { assert Holds(e.runners[i], k); }
  }

  lemma UnservedBySetOff(r: SoundRobot, mayDrive: bool, k: nat, id: string)
    requires Unserved(r, k, id) && forall e | e in r.edges :: !Mentions(r.edges[e].edge.actions, id)
    ensures Unserved(SetOff(r, mayDrive), k, id)
  {
    if SetOff(r, mayDrive) != r {
      var pending := PendingRuns(r.engine.table, r.runs, NextEdge(r).value.edge.actions);
      NotPendingUnlessMentioned(r, r.engine.table, NextEdge(r).value.edge.actions, k, id);
      EnqueueLeavesHeld(r.engine, pending, k);
    }
  }

  lemma UnservedByArrival(r: SoundRobot, k: nat, id: string)
    requires Unserved(r, k, id) && (Current(r) ==> !Mentions(r.driver.target.actions, id))
    ensures Unserved(Arrive(r), k, id)
  {
    if Current(r) {
      var e := FinishEdgeActions(r.engine, r.driver.edge.edge.seqId);
      FieldsOfArrival(r);
      NotPendingUnlessMentioned(r, e.table, r.driver.target.actions, k, id);
      EnqueueLeavesHeld(e, PendingRuns(e.table, r.runs, r.driver.target.actions), k);
      assert HeldByRunner(e, k) == HeldByRunner(r.engine, k);
    }
  }

  /** Arriving at a node whose captured object names the action hands it over. */
  lemma ServedByArrival(r: SoundRobot, k: nat, id: string)
    requires Unserved(r, k, id) && Current(r) && Mentions(r.driver.target.actions, id)
    ensures k in Arrive(r).engine.queue
  {
    var e := FinishEdgeActions(r.engine, r.driver.edge.edge.seqId);
    FieldsOfArrival(r);
    var i :| 0 <= i < |r.driver.target.actions| && r.driver.target.actions[i].id == id;
    assert e.table[k] == r.engine.table[k];
    PendingIncludes(e.table, r.runs, r.driver.target.actions, r.driver.target.actions[i]);
  }

  // ---------------------------------------------------------------- updates

  lemma UnservedIsUpdate(r: SoundRobot, o: Order, s: Surroundings, k: nat, id: string)
    requires Unserved(r, k, id) && Decide(r, o, s).Accept?
    ensures Decide(r, o, s).isUpdate
  {
    AcceptanceIsExact(o, SituationOf(r, s));
    var j :| 0 <= j < |r.actionStates| && r.actionStates[j] == k;
    assert !r.engine.table[r.actionStates[j]].Settled();
  }

  /** What an update leaves of a run whose id it does not forget. */
  lemma RegisteredThroughUpdate(r: SoundRobot, o: Order, k: nat, id: string)
    requires |o.nodes| >= 1 && k < |r.engine.table| && id in r.runs && r.runs[id] == k
    requires id !in HorizonIds(r, o.nodes[0].seqId)
    ensures var l := UpdateLedger(r, o);
            && r.engine.table <= l.table && id in l.runs && l.runs[id] == k
            && (k in r.actionStates ==> k in l.listed)
  {
    UpdatedActions(r, o);
    var pruned := PrunedLedger(r, o.nodes[0].seqId);
    RegisterAllValid(pruned, Items(StitchActions(r, o), OnNode, o.nodes[0].seqId));
    RegisterAllValid(StitchLedger(r, o), NodeItems(o.nodes[1..]) + EdgeItems(o.edges));
  }

  lemma UpdateEngineHands(r: SoundRobot, o: Order, k: nat, id: string)
    requires |o.nodes| >= 1 && k < |r.engine.table| && id in r.runs && r.runs[id] == k
    requires id !in HorizonIds(r, o.nodes[0].seqId)
    ensures k in UpdateEngine(r, o).queue <==> k in r.engine.queue
    ensures HeldByRunner(UpdateEngine(r, o), k) == HeldByRunner(r.engine, k)
    ensures UpdateEngine(r, o).active == r.engine.active
  {
    var stitch := o.nodes[0].seqId;
    var pruned := DropHorizon(r.engine, PrunedLedger(r, stitch).runs.Keys);
    var added := Range(|r.engine.table|, |StitchLedger(r, o).table|);
    QueuedThroughDrop(r.engine.table, r.engine.queue, PrunedLedger(r, stitch).runs.Keys, k);
    EnqueueLeavesHeld(pruned, if r.lastSeq >= stitch then added else [], k);
    assert HeldByRunner(pruned, k) == HeldByRunner(r.engine, k);
    assert HeldByRunner(UpdateEngine(r, o), k)
        == HeldByRunner(Enqueue(pruned, if r.lastSeq >= stitch then added else []), k);
  }

  lemma {:induction false} QueuedThroughDrop(table: seq<Run>, queue: seq<nat>, kept: set<string>, k: nat)
    requires forall i | 0 <= i < |queue| :: queue[i] < |table|
    requires k < |table| && table[k].action.id in kept
    ensures k in KeepIds(table, queue, kept) <==> k in queue
  {
    if queue != [] { QueuedThroughDrop(table, queue[1..], kept, k); }
  }

  lemma {:induction false} IndexedNodeIsSent(nodes: seq<Node>)
    ensures forall k | k in IndexNodes(nodes) :: IndexNodes(nodes)[k] in nodes
  {
    if nodes != [] { IndexedNodeIsSent(nodes[..|nodes| - 1]); }
  }

  lemma {:induction false} IndexedEdgeIsSent(edges: seq<Edge>, tag: nat)
    ensures forall k | k in IndexEdges(edges, tag) :: IndexEdges(edges, tag)[k].edge in edges
  {
    if edges != [] { IndexedEdgeIsSent(edges[..|edges| - 1], tag); }
  }

  /** An update that does not name the action leaves it on its node alone. */
  lemma NamedOnlyAtAfter(r: Robot, r': Robot, o: Order, id: string, at: int, tag: nat)
    requires |o.nodes| >= 1 && NamedOnlyAt(r, id, at) && !NamedBy(o, id)
    requires r'.nodes == StitchNodes(r.nodes, o.nodes)
    requires r'.edges == StitchEdges(r.edges, o.edges, o.nodes[0].seqId, tag)
    ensures NamedOnlyAt(r', id, at)
  {
    IndexedNodeIsSent(o.nodes);
    IndexedEdgeIsSent(o.edges, tag);
  }

  lemma HorizonIsSilent(r: Robot, id: string, at: int, stitch: int)
    requires NamedOnlyAt(r, id, at) && stitch >= at
    ensures id !in HorizonIds(r, stitch)
  {
    forall k, a | k in r.nodes && k > stitch && a in r.nodes[k].actions ensures a.id != id {
      assert !Mentions(r.nodes[k].actions, id);
    }
    forall k, a | k in r.edges && k > stitch && a in r.edges[k].edge.actions ensures a.id != id {
      assert !Mentions(r.edges[k].edge.actions, id);
    }
  }

  lemma StitchesBeyond(nodes: map<int, Node>, stitch: Node, at: int)
    requires DecisionPoint(nodes) == Some((stitch.id, stitch.seqId)) && at in nodes && nodes[at].released
    ensures at <= stitch.seqId
  {
  }

  /** The robot holds the order of message `u`, and no older state of it. */
  ghost predicate HoldsSince(r: Robot, u: Order) { r.hasOrder && r.orderId == u.orderId && r.updateId >= u.updateId }

  /** A message of that order which is no newer than `u`, such as `u` once more. */
  predicate Outdated(o: Order, u: Order) { o.orderId == u.orderId && o.updateId <= u.updateId }

  lemma OutdatedIsNotAccepted(r: SoundRobot, o: Order, s: Surroundings, u: Order)
    requires HoldsSince(r, u) && Outdated(o, u)
    ensures !Decide(r, o, s).Accept?
  {
    AcceptanceIsExact(o, SituationOf(r, s));
  }

  lemma HoldsAfterUpdate(r: SoundRobot, o: Order, s: Surroundings, u: Order)
    requires HoldsSince(r, u) && Decide(r, o, s).Accept? && Decide(r, o, s).isUpdate
    ensures o.orderId == u.orderId && HoldsSince(OnOrder(r, o, s), u)
  {
    AcceptanceIsExact(o, SituationOf(r, s));
  }

  // ------------------------------------------------------------- stranded

  /** The run waits unserved, its node is behind the robot or just ahead in a version that does not
      name it, and nothing else names it. */
  ghost predicate Stranded(r: Robot, k: nat, id: string, at: int) {
    && Unserved(r, k, id) && NamedOnlyAt(r, id, at)
    && at in r.nodes && r.nodes[at].released
    && (r.driver.Driving? ==> !Mentions(r.driver.target.actions, id))
    && (r.lastSeq >= at || (Current(r) && r.driver.target.seqId == at))
  }

  lemma StrandedByUpdate(r: SoundRobot, o: Order, s: Surroundings, k: nat, id: string, at: int)
    requires Stranded(r, k, id, at) && Decide(r, o, s).Accept? && !NamedBy(o, id)
    ensures Stranded(OnOrder(r, o, s), k, id, at)
  {
    UnservedIsUpdate(r, o, s, k, id);
    UpdateLeavesBaseAlone(r, o, s);
    StitchesBeyond(r.nodes, o.nodes[0], at);
    HorizonIsSilent(r, id, at, o.nodes[0].seqId);
    UnservedByUpdate(r, o, s, k, id);
    UpdateGraph(r, o, s);
    NamedOnlyAtAfter(r, OnOrder(r, o, s), o, id, at, r.accepted);
  }

  lemma UpdateGraph(r: SoundRobot, o: Order, s: Surroundings)
    requires Decide(r, o, s).Accept? && Decide(r, o, s).isUpdate && |o.nodes| >= 1
    ensures var r' := OnOrder(r, o, s);
            && r'.nodes == StitchNodes(r.nodes, o.nodes)
            && r'.edges == StitchEdges(r.edges, o.edges, o.nodes[0].seqId, r.accepted)
            && r'.driver == r.driver && r'.lastSeq == r.lastSeq
  {
  }

  lemma UnservedByUpdate(r: SoundRobot, o: Order, s: Surroundings, k: nat, id: string)
    requires Decide(r, o, s).Accept? && Decide(r, o, s).isUpdate && |o.nodes| >= 1
    requires Unserved(r, k, id) && id !in HorizonIds(r, o.nodes[0].seqId)
    ensures Unserved(OnOrder(r, o, s), k, id)
  {
    UpdateFields(r, o, s);
    RegisteredThroughUpdate(r, o, k, id);
    UpdateEngineHands(r, o, k, id);
    assert UpdateEngine(r, o).table[k] == r.engine.table[k];
  }

  lemma StrandedBySetOff(r: SoundRobot, mayDrive: bool, k: nat, id: string, at: int)
    requires Stranded(r, k, id, at)
    ensures Stranded(SetOff(r, mayDrive), k, id, at)
  {
    UnservedBySetOff(r, mayDrive, k, id);
    if SetOff(r, mayDrive) != r {
      var lo, n, base, p :| Laid(r, lo, p, base, n);
      StoredNumbers(r.nodes, r.edges, lo, base, n);
      assert r.lastSeq + 1 in EdgeKeys(lo, n - 1) && EdgeNumber(lo, p) == r.lastSeq + 1;
    }
  }

  lemma StrandedByArrival(r: SoundRobot, k: nat, id: string, at: int)
    requires Stranded(r, k, id, at)
    ensures Stranded(Arrive(r), k, id, at)
  {
    UnservedByArrival(r, k, id);
  }

  /** No cancel, no mode switch and no newer message that names the action. */
  predicate Silent(step: Step, id: string, u: Order) {
    && !step.CancelAsked? && !step.ManualAsked?
    && (step.Delivered? ==> !NamedBy(step.order, id) || Outdated(step.order, u))
  }

  lemma StrandedByOrder(r: SoundRobot, o: Order, s: Surroundings, k: nat, id: string, at: int, u: Order)
    requires Stranded(r, k, id, at) && HoldsSince(r, u) && (!NamedBy(o, id) || Outdated(o, u))
    ensures Stranded(OnOrder(r, o, s), k, id, at) && HoldsSince(OnOrder(r, o, s), u)
  {
    if Outdated(o, u) {
      OutdatedIsNotAccepted(r, o, s, u);
    } else if Decide(r, o, s).Accept? {
      UnservedIsUpdate(r, o, s, k, id);
      StrandedByUpdate(r, o, s, k, id, at);
      HoldsAfterUpdate(r, o, s, u);
    }
  }

  lemma StrandedByDriving(r: SoundRobot, step: Step, k: nat, id: string, at: int)
    requires Stranded(r, k, id, at) && (step.Rested? || step.SettingOff? || step.Arrived? || step.Abandoned?)
    ensures Stranded(Next(r, step), k, id, at)
  {
    match step
    case SettingOff(mayDrive) => StrandedBySetOff(r, mayDrive, k, id, at);
    case Arrived => StrandedByArrival(r, k, id, at);
    case Rested =>
    case Abandoned =>
  }

  lemma StrandedByEngine(r: SoundRobot, step: Step, k: nat, id: string, at: int)
    requires Stranded(r, k, id, at)
    requires step.RunnerMoves? || step.HandlerReports? || step.HandlerEnds? || step.RetrySkips?
    ensures Stranded(Next(r, step), k, id, at)
  {
    UnservedByEngine(r, step, k, id);
    EngineKeepsOrder(r, step);
  }

  lemma StrandedByInstant(r: SoundRobot, a: Action, supported: bool, k: nat, id: string, at: int)
    requires Stranded(r, k, id, at)
    ensures Stranded(StartInstant(r, a, supported), k, id, at)
  {
    UnservedByInstant(r, a, supported, k, id);
    InstantKeepsOrder(r, a, supported);
  }

  /** Short of such steps the action is never handed over. */
  lemma StrandedStays(r: SoundRobot, step: Step, k: nat, id: string, at: int, u: Order)
    requires Stranded(r, k, id, at) && HoldsSince(r, u) && Silent(step, id, u)
    ensures RobotOk(Next(r, step)) && Stranded(Next(r, step), k, id, at) && HoldsSince(Next(r, step), u)
  {
    StepKeepsRobot(r, step);
    if step.Delivered? {
      StrandedByOrder(r, step.order, step.around, k, id, at, u);
    } else {
      OtherStepsKeepOrder(r, step);
      if step.Rested? || step.SettingOff? || step.Arrived? || step.Abandoned? {
        StrandedByDriving(r, step, k, id, at);
      } else if step.InstantAsked? {
        StrandedByInstant(r, step.action, step.supported, k, id, at);
      } else {
        StrandedByEngine(r, step, k, id, at);
      }
    }
  }

  // ----------------------------------------------------------- on its way

  /** The run is registered for node `at`, which this order has released, and nothing else names it. */
  ghost predicate Bound(r: Robot, k: nat, id: string, at: int, u: Order) {
    && k < |r.engine.table| && id in r.runs && r.runs[id] == k && k in r.actionStates
    && NamedOnlyAt(r, id, at) && at in r.nodes && r.nodes[at].released
    && HoldsSince(r, u)
  }

  /** The robot has yet to reach the node, and will find the action on it. */
  ghost predicate Expected(r: Robot, k: nat, id: string, at: int) {
    && Unserved(r, k, id) && r.lastSeq < at && at in r.nodes && Mentions(r.nodes[at].actions, id)
    && (Current(r) && r.driver.target.seqId == at ==> Mentions(r.driver.target.actions, id))
  }

  ghost predicate OnItsWay(r: Robot, k: nat, id: string, at: int, u: Order) {
    Bound(r, k, id, at, u) && (HandedOver(r.engine, k) || Expected(r, k, id, at))
  }

  /** A message of the same order that neither names the action nor sends its node again. */
  predicate LeavesAlone(o: Order, id: string, at: int, u: Order) {
    o.orderId == u.orderId && !NamedBy(o, id) && (o.nodes != [] ==> o.nodes[0].seqId != at)
  }

  /** No cancel and no mode switch, and such messages only. */
  predicate Undisturbing(step: Step, id: string, at: int, u: Order) {
    && !step.CancelAsked? && !step.ManualAsked?
    && (step.Delivered? ==> LeavesAlone(step.order, id, at, u) || Outdated(step.order, u))
  }

  lemma HandedOverKept(e: EngineState, table: seq<Run>, k: nat)
    requires k < |e.table| && HandedOver(e, k) && |table| == |e.table|
    requires table[k].task == NoTask ==> e.table[k].task == NoTask
    ensures HandedOver(e.(table := table), k)
  {
    assert HeldByRunner(e.(table := table), k) == HeldByRunner(e, k);
  }

  lemma HandedOverByEngine(r: SoundRobot, step: Step, k: nat)
    requires k < |r.engine.table| && HandedOver(r.engine, k)
    requires step.RunnerMoves? || step.HandlerReports? || step.HandlerEnds? || step.RetrySkips?
    ensures k < |Next(r, step).engine.table| && HandedOver(Next(r, step).engine, k)
  {
    var e := r.engine;
    if step.RunnerMoves? {
      if step.runner < |e.runners| { HandedOverByRunner(e, step.runner, k); }
    } else {
      HandledOnly(r, step, k);
      HandedOverKept(e, Next(r, step).engine.table, k);
    }
  }

  lemma HandedOverByInstant(r: SoundRobot, a: Action, supported: bool, k: nat)
    requires k < |r.engine.table| && HandedOver(r.engine, k)
    ensures k < |StartInstant(r, a, supported).engine.table| && HandedOver(StartInstant(r, a, supported).engine, k)
  {
    assert HeldByRunner(StartInstant(r, a, supported).engine, k) == HeldByRunner(r.engine, k);
  }

  lemma HandedOverByEnqueue(e: EngineState, e': EngineState, runs: seq<nat>, k: nat)
    requires k < |e.table| && HandedOver(e, k) && |e'.table| == |e.table|
    requires e'.queue == e.queue && e'.runners == e.runners
    requires e.table[k].task != NoTask ==> e'.table[k].task != NoTask
    ensures HandedOver(Enqueue(e', runs), k)
  {
    EnqueueLeavesHeld(e', runs, k);
    assert HeldByRunner(e', k) == HeldByRunner(e, k);
  }

  lemma HandedOverByDriving(r: SoundRobot, step: Step, k: nat)
    requires k < |r.engine.table| && HandedOver(r.engine, k)
    requires step.Rested? || step.SettingOff? || step.Arrived? || step.Abandoned?
    ensures k < |Next(r, step).engine.table| && HandedOver(Next(r, step).engine, k)
  {
    match step
    case SettingOff(mayDrive) =>
      if SetOff(r, mayDrive) != r {
        HandedOverByEnqueue(r.engine, r.engine, PendingRuns(r.engine.table, r.runs, NextEdge(r).value.edge.actions), k);
      }
    case Arrived =>
      if Current(r) {
        var e := FinishEdgeActions(r.engine, r.driver.edge.edge.seqId);
        FieldsOfArrival(r);
        HandedOverByEnqueue(r.engine, e, PendingRuns(e.table, r.runs, r.driver.target.actions), k);
      }
    case Rested =>
    case Abandoned =>
  }

  lemma HandedOverByUpdate(r: SoundRobot, o: Order, s: Surroundings, k: nat, id: string)
    requires Decide(r, o, s).Accept? && Decide(r, o, s).isUpdate && |o.nodes| >= 1
    requires k < |r.engine.table| && id in r.runs && r.runs[id] == k && HandedOver(r.engine, k)
    requires id !in HorizonIds(r, o.nodes[0].seqId)
    ensures k < |OnOrder(r, o, s).engine.table| && HandedOver(OnOrder(r, o, s).engine, k)
  {
    UpdateFields(r, o, s);
    RegisteredThroughUpdate(r, o, k, id);
    UpdateEngineHands(r, o, k, id);
    assert UpdateEngine(r, o).table[k] == r.engine.table[k];
  }

  // Registration and place.

  lemma BoundByUpdate(r: SoundRobot, o: Order, s: Surroundings, k: nat, id: string, at: int, u: Order)
    requires Bound(r, k, id, at, u) && LeavesAlone(o, id, at, u) && Decide(r, o, s).Accept?
    ensures Decide(r, o, s).isUpdate && |o.nodes| >= 1 && o.nodes[0].seqId > at
    ensures id !in HorizonIds(r, o.nodes[0].seqId)
    ensures Bound(OnOrder(r, o, s), k, id, at, u)
  {
    UpdateOutcome(r, o, s);
    AcceptanceIsExact(o, SituationOf(r, s));
    UpdateLeavesBaseAlone(r, o, s);
    StitchesBeyond(r.nodes, o.nodes[0], at);
    HorizonIsSilent(r, id, at, o.nodes[0].seqId);
    RegisteredThroughUpdate(r, o, k, id);
    UpdateFields(r, o, s);
    NamedOnlyAtAfter(r, OnOrder(r, o, s), o, id, at, r.accepted);
  }

  lemma BoundByOthers(r: SoundRobot, step: Step, k: nat, id: string, at: int, u: Order)
    requires Bound(r, k, id, at, u) && !step.Delivered? && !step.CancelAsked? && !step.ManualAsked?
    ensures RobotOk(Next(r, step)) && Bound(Next(r, step), k, id, at, u)
  {
    StepKeepsRobot(r, step);
    OtherStepsKeepOrder(r, step);
    StepKeepsActions(r, step);
    if step.InstantAsked? { InstantAppends(r, step.action, step.supported); } else { OtherStepsKeepRuns(r, step); }
  }

  // Still expected.

  /** A node before the stitch point stays as it is. */
  lemma NodeBeforeStitch(r: SoundRobot, o: Order, s: Surroundings, at: int)
    requires Decide(r, o, s).Accept? && Decide(r, o, s).isUpdate && |o.nodes| >= 1
    requires at in r.nodes && at < o.nodes[0].seqId
    ensures var r' := OnOrder(r, o, s);
            at in r'.nodes && r'.nodes[at] == r.nodes[at] && r'.driver == r.driver && r'.lastSeq == r.lastSeq
  {
    UpdateLeavesBaseAlone(r, o, s);
    UpdateGraph(r, o, s);
  }

  lemma UpdateKeepsCurrent(r: SoundRobot, o: Order, s: Surroundings)
    requires Decide(r, o, s).Accept? && Decide(r, o, s).isUpdate
    ensures Current(OnOrder(r, o, s)) ==> Current(r)
  {
    CurrentBefore(r, o, s);
  }

  lemma StillExpected(r: Robot, r': Robot, k: nat, id: string, at: int)
    requires Expected(r, k, id, at) && Unserved(r', k, id)
    requires at in r'.nodes && r'.nodes[at] == r.nodes[at] && r'.driver == r.driver && r'.lastSeq == r.lastSeq
    requires Current(r') ==> Current(r)
    ensures Expected(r', k, id, at)
  {
  }

  lemma ExpectedByUpdate(r: SoundRobot, o: Order, s: Surroundings, k: nat, id: string, at: int)
    requires Expected(r, k, id, at) && Decide(r, o, s).Accept? && Decide(r, o, s).isUpdate && |o.nodes| >= 1
    requires o.nodes[0].seqId > at && id !in HorizonIds(r, o.nodes[0].seqId)
    ensures Expected(OnOrder(r, o, s), k, id, at)
  {
    UnservedByUpdate(r, o, s, k, id);
    NodeBeforeStitch(r, o, s, at);
    UpdateKeepsCurrent(r, o, s);
    StillExpected(r, OnOrder(r, o, s), k, id, at);
  }

  lemma ExpectedBySetOff(r: SoundRobot, mayDrive: bool, k: nat, id: string, at: int)
    requires Expected(r, k, id, at) && NamedOnlyAt(r, id, at)
    ensures Expected(SetOff(r, mayDrive), k, id, at)
  {
    UnservedBySetOff(r, mayDrive, k, id);
    if SetOff(r, mayDrive) != r {
      var lo, n, base, p :| Laid(r, lo, p, base, n);
      StoredNumbers(r.nodes, r.edges, lo, base, n);
      assert r.lastSeq + 1 in EdgeKeys(lo, n - 1) && EdgeNumber(lo, p) == r.lastSeq + 1;
      assert NodeNumber(lo, p + 1) == r.lastSeq + 2;
    }
  }

  /** The nodes ahead are numbered in steps of two. */
  lemma NextNode(r: SoundRobot, at: int)
    requires at in r.nodes && r.lastSeq < at
    ensures r.lastSeq + 2 <= at
  {
    var lo, n, base, p :| Laid(r, lo, p, base, n);
    assert at in NodeKeys(lo, n);
  }

  lemma ExpectedByArrival(r: SoundRobot, k: nat, id: string, at: int)
    requires Expected(r, k, id, at)
    ensures k < |Arrive(r).engine.table|
    ensures HandedOver(Arrive(r).engine, k) || Expected(Arrive(r), k, id, at)
  {
    assert k < |Arrive(r).engine.table| by { ArriveKeepsActions(r); }
    if Current(r) && Mentions(r.driver.target.actions, id) {
      ServedByArrival(r, k, id);
    } else {
      UnservedByArrival(r, k, id);
      NextNode(r, at);
    }
  }

  lemma ExpectedByPause(r: SoundRobot, k: nat, id: string, at: int)
    requires Expected(r, k, id, at)
    ensures Expected(Rest(r), k, id, at) && Expected(Abandon(r), k, id, at)
  {
  }

  lemma ExpectedByInstant(r: SoundRobot, a: Action, supported: bool, k: nat, id: string, at: int)
    requires Expected(r, k, id, at)
    ensures Expected(StartInstant(r, a, supported), k, id, at)
  {
    UnservedByInstant(r, a, supported, k, id);
  }

  lemma ExpectedByEngine(r: SoundRobot, step: Step, k: nat, id: string, at: int)
    requires Expected(r, k, id, at)
    requires step.RunnerMoves? || step.HandlerReports? || step.HandlerEnds? || step.RetrySkips?
    ensures Expected(Next(r, step), k, id, at)
  {
    UnservedByEngine(r, step, k, id);
    EngineKeepsOrder(r, step);
  }

  lemma ExpectedStays(r: SoundRobot, step: Step, k: nat, id: string, at: int)
    requires Expected(r, k, id, at) && NamedOnlyAt(r, id, at)
    requires !step.Delivered? && !step.CancelAsked? && !step.ManualAsked?
    ensures k < |Next(r, step).engine.table|
    ensures HandedOver(Next(r, step).engine, k) || Expected(Next(r, step), k, id, at)
  {
    match step
    case SettingOff(mayDrive) => ExpectedBySetOff(r, mayDrive, k, id, at);
    case Arrived => ExpectedByArrival(r, k, id, at);
    case Rested => ExpectedByPause(r, k, id, at);
    case Abandoned => ExpectedByPause(r, k, id, at);
    case InstantAsked(a, supported) => ExpectedByInstant(r, a, supported, k, id, at);
    case _ => ExpectedByEngine(r, step, k, id, at);
  }

  lemma HandedOverStays(r: SoundRobot, step: Step, k: nat)
    requires k < |r.engine.table| && HandedOver(r.engine, k)
    requires !step.Delivered? && !step.CancelAsked? && !step.ManualAsked?
    ensures k < |Next(r, step).engine.table| && HandedOver(Next(r, step).engine, k)
  {
    if step.Rested? || step.SettingOff? || step.Arrived? || step.Abandoned? {
      HandedOverByDriving(r, step, k);
    } else if step.InstantAsked? {
      HandedOverByInstant(r, step.action, step.supported, k);
    } else {
      HandedOverByEngine(r, step, k);
    }
  }

  lemma OnItsWayByOrder(r: SoundRobot, o: Order, s: Surroundings, k: nat, id: string, at: int, u: Order)
    requires OnItsWay(r, k, id, at, u) && (LeavesAlone(o, id, at, u) || Outdated(o, u))
    ensures OnItsWay(OnOrder(r, o, s), k, id, at, u)
  {
    if Outdated(o, u) { OutdatedIsNotAccepted(r, o, s, u); }
    if Decide(r, o, s).Accept? {
      BoundByUpdate(r, o, s, k, id, at, u);
      if HandedOver(r.engine, k) { HandedOverByUpdate(r, o, s, k, id); } else { ExpectedByUpdate(r, o, s, k, id, at); }
    }
  }

  lemma OnItsWayGoesOn(r: SoundRobot, step: Step, k: nat, id: string, at: int, u: Order)
    requires OnItsWay(r, k, id, at, u) && Undisturbing(step, id, at, u)
    ensures RobotOk(Next(r, step)) && OnItsWay(Next(r, step), k, id, at, u)
  {
    StepKeepsRobot(r, step);
    if step.Delivered? {
      OnItsWayByOrder(r, step.order, step.around, k, id, at, u);
    } else {
      BoundByOthers(r, step, k, id, at, u);
      if HandedOver(r.engine, k) { HandedOverStays(r, step, k); } else { ExpectedStays(r, step, k, id, at); }
    }
  }

  // -------------------------------------------------------------- every run

  lemma {:induction false} StrandedThroughout(r: SoundRobot, steps: seq<Step>, k: nat, id: string, at: int, u: Order)
    requires Stranded(r, k, id, at) && HoldsSince(r, u)
    requires forall i | 0 <= i < |steps| :: Silent(steps[i], id, u)
    ensures Stranded(After(r, steps), k, id, at) && HoldsSince(After(r, steps), u)
    decreases |steps|
  {
    if steps != [] {
      StrandedThroughout(r, steps[..|steps| - 1], k, id, at, u);
      StrandedStays(After(r, steps[..|steps| - 1]), steps[|steps| - 1], k, id, at, u);
    }
  }

  lemma {:induction false} OnItsWayThroughout(r: SoundRobot, steps: seq<Step>, k: nat, id: string, at: int, u: Order)
    requires OnItsWay(r, k, id, at, u)
    requires forall i | 0 <= i < |steps| :: Undisturbing(steps[i], id, at, u)
    ensures OnItsWay(After(r, steps), k, id, at, u)
    decreases |steps|
  {
    if steps != [] {
      OnItsWayThroughout(r, steps[..|steps| - 1], k, id, at, u);
      OnItsWayGoesOn(After(r, steps[..|steps| - 1]), steps[|steps| - 1], k, id, at, u);
    }
  }

  // ---------------------------------------------------------- its beginning

  lemma {:induction false} AddedComesFrom(l: Ledger, actions: seq<Action>, origin: Origin, element: int, k: nat)
    requires |l.table| <= k < |RegisterAll(l, Items(actions, origin, element)).table|
    ensures RegisterAll(l, Items(actions, origin, element)).table[k].action in actions
    decreases |actions|
  {
    var n := |actions| - 1;
    var items := Items(actions, origin, element);
    assert items[..n] == Items(actions[..n], origin, element);
    if k < |RegisterAll(l, items[..n]).table| {
      AddedComesFrom(l, actions[..n], origin, element, k);
    } else {
      assert RegisterAll(l, items).table[k].action == actions[n];
    }
  }

  lemma {:induction false} UnknownComesFrom(actions: seq<Action>, known: set<string>)
    ensures forall a | a in Unknown(actions, known) :: a in actions
  {
    if actions != [] { UnknownComesFrom(actions[..|actions| - 1], known); }
  }

  /** The run that `k` becomes, and the node it is added to. */
  lemma AddedIsNamed(r: SoundRobot, o: Order, k: nat)
    requires |o.nodes| >= 1 && Added(r, o, k)
    ensures k < |UpdateLedger(r, o).table| && Mentions(o.nodes[0].actions, UpdateLedger(r, o).table[k].action.id)
  {
    var pruned, actions := PrunedLedger(r, o.nodes[0].seqId), StitchActions(r, o);
    RegisterAllValid(pruned, Items(actions, OnNode, o.nodes[0].seqId));
    RegisterAllValid(StitchLedger(r, o), NodeItems(o.nodes[1..]) + EdgeItems(o.edges));
    AddedComesFrom(pruned, actions, OnNode, o.nodes[0].seqId, k);
    UnknownComesFrom(o.nodes[0].actions,
                     if o.nodes[0].seqId in r.nodes
                     then set a | a in r.nodes[o.nodes[0].seqId].actions :: a.id else {});
    assert UpdateLedger(r, o).table[k].action in o.nodes[0].actions;
  }

  lemma AddedIsHeldByNobody(r: SoundRobot, o: Order, k: nat)
    requires |o.nodes| >= 1 && Added(r, o, k)
    ensures !HeldByRunner(UpdateEngine(r, o), k)
  {
    var stitch := o.nodes[0].seqId;
    var pruned := DropHorizon(r.engine, PrunedLedger(r, stitch).runs.Keys);
    var added := Range(|r.engine.table|, |StitchLedger(r, o).table|);
    var queued := Enqueue(pruned, if r.lastSeq >= stitch then added else []);
    assert forall i | 0 <= i < |r.engine.runners| :: RunnerValid(r.engine.runners[i], |r.engine.table|);
    assert !HeldByRunner(pruned, k);
    EnqueueLeavesHeld(pruned, if r.lastSeq >= stitch then added else [], k);
    assert HeldByRunner(UpdateEngine(r, o), k) == HeldByRunner(queued, k);
  }

  /** The id of the action that run `k` carries out. */
  ghost function AddedId(r: SoundRobot, o: Order, k: nat): string
    requires |o.nodes| >= 1 && Added(r, o, k)
  {
    AddedIsNamed(r, o, k);
    UpdateLedger(r, o).table[k].action.id
  }

  /** The robot is driving towards the stitch node, with a version of it that does not name the
      action. */
  ghost predicate Overlooks(r: Robot, o: Order, id: string)
    requires |o.nodes| >= 1
  {
    Current(r) && r.driver.target.seqId == o.nodes[0].seqId && !Mentions(r.driver.target.actions, id)
  }

  /** While the driver's target is the stored node, that is all there is to it. */
  lemma CapturedOverlooks(r: SoundRobot, o: Order, k: nat)
    requires |o.nodes| >= 1 && Added(r, o, k) && Captured(r)
    ensures Overlooks(r, o, AddedId(r, o, k)) <==> Current(r) && r.driver.target.seqId == o.nodes[0].seqId
  {
    if Current(r) && r.driver.target.seqId == o.nodes[0].seqId { AddedIdIsUnknown(r, o, k); }
  }

  lemma AddedIsUnserved(r: SoundRobot, o: Order, s: Surroundings, k: nat)
    requires Decide(r, o, s).Accept? && Decide(r, o, s).isUpdate && |o.nodes| >= 1 && Added(r, o, k)
    ensures var r' := OnOrder(r, o, s);
            && k < |r'.engine.table|
            && (k in r'.engine.queue <==> r.lastSeq >= o.nodes[0].seqId)
            && (r.lastSeq < o.nodes[0].seqId ==> Unserved(r', k, AddedId(r, o, k)))
            && AddedId(r, o, k) in r'.runs && r'.runs[AddedId(r, o, k)] == k && k in r'.actionStates
  {
    AddedActionIsQueued(r, o, s, k);
    UpdateFields(r, o, s);
    AddedIsHeldByNobody(r, o, k);
  }

  /** The stitch node is stored as it was sent. */
  lemma StitchIsSent(nodes: map<int, Node>, o: Order)
    requires Numbered(o)
    ensures o.nodes[0].seqId in StitchNodes(nodes, o.nodes)
    ensures StitchNodes(nodes, o.nodes)[o.nodes[0].seqId] == o.nodes[0]
  {
    IndexedNodes(o.nodes, o.nodes[0].seqId);
    assert o.nodes[0].seqId == NodeNumber(o.nodes[0].seqId, 0);
  }

  lemma AddedIsStranded(r: SoundRobot, o: Order, s: Surroundings, k: nat, r': Robot, id: string)
    requires Decide(r, o, s).Accept? && Decide(r, o, s).isUpdate && |o.nodes| >= 1 && Added(r, o, k)
    requires r' == OnOrder(r, o, s) && id == AddedId(r, o, k) && NamedOnlyAt(r', id, o.nodes[0].seqId)
    requires Overlooks(r, o, id)
    ensures Stranded(r', k, id, o.nodes[0].seqId)
  {
    UpdateLeavesBaseAlone(r, o, s);
    UpdateGraph(r, o, s);
    AddedIsUnserved(r, o, s, k);
  }

  lemma AddedIsExpected(r: SoundRobot, o: Order, s: Surroundings, k: nat, r': Robot, id: string)
    requires Decide(r, o, s).Accept? && Decide(r, o, s).isUpdate && |o.nodes| >= 1 && Added(r, o, k)
    requires r' == OnOrder(r, o, s) && id == AddedId(r, o, k)
    requires !Overlooks(r, o, id) && r.lastSeq < o.nodes[0].seqId
    ensures Expected(r', k, id, o.nodes[0].seqId)
  {
    AcceptedIsChain(r, o, s);
    UpdateGraph(r, o, s);
    AddedIsUnserved(r, o, s, k);
    AcceptanceIsExact(o, SituationOf(r, s));
    CurrentBefore(r, o, s);
    StitchIsSent(r.nodes, o);
    AddedIsNamed(r, o, k);
  }

  lemma AddedIsBound(r: SoundRobot, o: Order, s: Surroundings, k: nat, r': Robot, id: string)
    requires Decide(r, o, s).Accept? && Decide(r, o, s).isUpdate && |o.nodes| >= 1 && Added(r, o, k)
    requires r' == OnOrder(r, o, s) && id == AddedId(r, o, k) && NamedOnlyAt(r', id, o.nodes[0].seqId)
    ensures Bound(r', k, id, o.nodes[0].seqId, o)
    ensures r.lastSeq >= o.nodes[0].seqId ==> HandedOver(r'.engine, k)
  {
    assert o.nodes[0].seqId in r'.nodes && r'.nodes[o.nodes[0].seqId].released by { UpdateLeavesBaseAlone(r, o, s); }
    AddedIsUnserved(r, o, s, k);
    assert HoldsSince(r', o) by {
      AcceptanceIsExact(o, SituationOf(r, s));
      UpdateOutcome(r, o, s);
    }
  }

  lemma AddedBegins(r: SoundRobot, o: Order, s: Surroundings, k: nat)
    requires Decide(r, o, s).Accept? && Decide(r, o, s).isUpdate && |o.nodes| >= 1 && Added(r, o, k)
    requires NamedOnlyAt(OnOrder(r, o, s), AddedId(r, o, k), o.nodes[0].seqId)
    ensures RobotOk(OnOrder(r, o, s))
    ensures var r', id, at := OnOrder(r, o, s), AddedId(r, o, k), o.nodes[0].seqId;
            && HoldsSince(r', o)
            && (if Overlooks(r, o, id) then Stranded(r', k, id, at) else OnItsWay(r', k, id, at, o))
  {
    var r', id := OnOrder(r, o, s), AddedId(r, o, k);
    OrderKeeps(r, o, s);
    AddedIsBound(r, o, s, k, r', id);
    if Overlooks(r, o, id) {
      AddedIsStranded(r, o, s, k, r', id);
    } else if r.lastSeq < o.nodes[0].seqId {
      AddedIsExpected(r, o, s, k, r', id);
    }
  }

  /** Over every run without a cancel, a mode switch or a message that touches the action again: once
      the robot has reached the node, the action was handed over if and only if the robot was not on
      its way there, with a version of the node without it, when the update came. */
  lemma HandedOverExactlyUnlessOverlooked(r: SoundRobot, o: Order, s: Surroundings, k: nat, steps: seq<Step>)
    requires Decide(r, o, s).Accept? && Decide(r, o, s).isUpdate && |o.nodes| >= 1 && Added(r, o, k)
    requires NamedOnlyAt(OnOrder(r, o, s), AddedId(r, o, k), o.nodes[0].seqId)
    requires forall i | 0 <= i < |steps| :: Undisturbing(steps[i], AddedId(r, o, k), o.nodes[0].seqId, o)
    requires RobotOk(OnOrder(r, o, s)) && After(OnOrder(r, o, s), steps).lastSeq >= o.nodes[0].seqId
    ensures var there := After(OnOrder(r, o, s), steps);
            && k < |there.engine.table|
            && (HandedOver(there.engine, k) <==> !Overlooks(r, o, AddedId(r, o, k)))
  {
    AddedBegins(r, o, s, k);
    if Overlooks(r, o, AddedId(r, o, k)) {
      OverlookedStaysStranded(r, o, s, k, steps);
    } else {
      OnItsWayThroughout(OnOrder(r, o, s), steps, k, AddedId(r, o, k), o.nodes[0].seqId, o);
    }
  }

  /** The same while the driver's target is the stored node: it comes down to where the robot was. */
  lemma HandedOverExactlyUnlessUnderWay(r: SoundRobot, o: Order, s: Surroundings, k: nat, steps: seq<Step>)
    requires Decide(r, o, s).Accept? && Decide(r, o, s).isUpdate && |o.nodes| >= 1 && Added(r, o, k) && Captured(r)
    requires NamedOnlyAt(OnOrder(r, o, s), AddedId(r, o, k), o.nodes[0].seqId)
    requires forall i | 0 <= i < |steps| :: Undisturbing(steps[i], AddedId(r, o, k), o.nodes[0].seqId, o)
    requires RobotOk(OnOrder(r, o, s)) && After(OnOrder(r, o, s), steps).lastSeq >= o.nodes[0].seqId
    ensures var there := After(OnOrder(r, o, s), steps);
            && k < |there.engine.table|
            && (HandedOver(there.engine, k) <==> !(Current(r) && r.driver.target.seqId == o.nodes[0].seqId))
  {
    CapturedOverlooks(r, o, k);
    HandedOverExactlyUnlessOverlooked(r, o, s, k, steps);
  }

  /** An overlooked action is listed, waits unqueued, and keeps the robot from being idle through
      every step but a cancel, a mode switch or a message that names it. */
  lemma OverlookedStaysStranded(r: SoundRobot, o: Order, s: Surroundings, k: nat, steps: seq<Step>)
    requires Decide(r, o, s).Accept? && Decide(r, o, s).isUpdate && |o.nodes| >= 1 && Added(r, o, k)
    requires NamedOnlyAt(OnOrder(r, o, s), AddedId(r, o, k), o.nodes[0].seqId)
    requires Overlooks(r, o, AddedId(r, o, k))
    requires forall i | 0 <= i < |steps| :: Silent(steps[i], AddedId(r, o, k), o)
    ensures RobotOk(OnOrder(r, o, s))
    ensures var there := After(OnOrder(r, o, s), steps);
            && k in there.actionStates && k < |there.engine.table| && !IsIdle(there)
            && there.engine.table[k].status == Waiting && !HandedOver(there.engine, k)
  {
    AddedBegins(r, o, s, k);
    StrandedThroughout(OnOrder(r, o, s), steps, k, AddedId(r, o, k), o.nodes[0].seqId, o);
    StrandedIsNotIdle(After(OnOrder(r, o, s), steps), k, AddedId(r, o, k));
  }

  lemma StrandedIsNotIdle(r: SoundRobot, k: nat, id: string)
    requires Unserved(r, k, id)
    ensures !IsIdle(r)
  {
    var j :| 0 <= j < |r.actionStates| && r.actionStates[j] == k;
    assert !r.engine.table[r.actionStates[j]].Settled();
  }
}
