/** Every action of a mission is handed to the engine once: when the robot reaches its node. So the
    engine's discipline holds along the attempt until somebody cancels it or switches the mode. */
module OrderHandover {
  import opened Vda5050
  import opened OrderAcceptance
  import opened Missions
  import opened Actions
  import opened RobotModel
  import opened RobotInvariants
  import opened OrderChain
  import opened OrderActions
  import opened SettledActions

  /** A registered run nobody has touched: it waits, outside the queue and the runner's hands. */
  ghost predicate Untouched(e: EngineState, runs: map<string, nat>, id: string) {
    && id in runs && runs[id] < |e.table| && Scheduled(e.table[runs[id]])
    && runs[id] !in e.queue && Held(e) != Some(runs[id])
  }

  /** The actions of the waypoints from `from` on are untouched. */
  ghost predicate Ahead(e: EngineState, runs: map<string, nat>, p: Plan, from: nat)
    requires from <= p.Total()
  {
    forall id | id in WorkIds(p.mission, from, p.Total()) :: Untouched(e, runs, id)
  }

  /** Every run is registered under its own id. */
  ghost predicate Registry(e: EngineState, runs: map<string, nat>) {
    forall id | id in runs :: runs[id] < |e.table| && e.table[runs[id]].action.id == id
  }

  // ------------------------------------------------------------ handing over

  lemma NotPending(e: EngineState, runs: map<string, nat>, actions: seq<Action>, id: string)
    requires Registry(e, runs) && id in runs && id !in ActionIds(actions)
    ensures runs[id] !in PendingRuns(e.table, runs, actions)
  {
    assert forall i | 0 <= i < |actions| :: ActionIds(actions)[i] == actions[i].id;
    if runs[id] in PendingRuns(e.table, runs, actions) { PendingComesFrom(e.table, runs, actions, runs[id]); }
  }

  lemma {:induction false} PendingDistinct(e: EngineState, runs: map<string, nat>, actions: seq<Action>)
    requires Registry(e, runs) && DistinctIds(ActionIds(actions))
    ensures Distinct(PendingRuns(e.table, runs, actions))
  {
    if actions != [] {
      var init, last := actions[..|actions| - 1], actions[|actions| - 1];
      assert ActionIds(actions) == ActionIds(init) + [last.id];
      DistinctPrefix(ActionIds(init), last.id);
      PendingDistinct(e, runs, init);
      if last.id in runs { NotPending(e, runs, init, last.id); }
    }
  }

  /** Untouched runs may be enqueued. */
  lemma PendingIsFresh(e: EngineState, runs: map<string, nat>, actions: seq<Action>)
    requires Registry(e, runs) && DistinctIds(ActionIds(actions))
    requires forall i | 0 <= i < |actions| :: Untouched(e, runs, actions[i].id)
    ensures Fresh(e, PendingRuns(e.table, runs, actions))
  {
    var pending := PendingRuns(e.table, runs, actions);
    PendingDistinct(e, runs, actions);
    forall i | 0 <= i < |pending|
      ensures Scheduled(e.table[pending[i]]) && pending[i] !in e.queue && Held(e) != Some(pending[i])
    {
      PendingComesFrom(e.table, runs, actions, pending[i]);
      var j :| 0 <= j < |actions| && actions[j].id in runs && runs[actions[j].id] == pending[i];
      assert Untouched(e, runs, actions[j].id);
    }
  }

  /** The ids of one waypoint, and that no later waypoint uses them. */
  lemma WaypointIds(p: Plan, w: nat)
    requires w < p.Total() && DistinctIds(Work(p))
    ensures WorkIds(p.mission, w, p.Total())
              == ActionIds(p.mission.waypoints[w].actions) + WorkIds(p.mission, w + 1, p.Total())
    ensures DistinctIds(ActionIds(p.mission.waypoints[w].actions))
    ensures forall id | id in ActionIds(p.mission.waypoints[w].actions) :: id !in WorkIds(p.mission, w + 1, p.Total())
  {
    var here, later := ActionIds(p.mission.waypoints[w].actions), WorkIds(p.mission, w + 1, p.Total());
    WorkIdsSplit(p.mission, 0, w, p.Total());
    DistinctParts(WorkIds(p.mission, 0, w), here + later);
    DistinctParts(here, later);
    DistinctFront(here, later);
  }

  lemma DistinctFront(a: seq<string>, b: seq<string>)
    requires DistinctIds(a + b)
    ensures DistinctIds(a)
  {
    forall i, j | 0 <= i < j < |a| ensures a[i] != a[j] { assert (a + b)[i] != (a + b)[j]; }
  }

  /** Handing over the actions of waypoint `w` keeps the discipline and touches no later action. */
  lemma HandOver(e: EngineState, runs: map<string, nat>, p: Plan, w: nat)
    requires w < p.Total() && DistinctIds(Work(p)) && Disciplined(e) && Registry(e, runs) && Ahead(e, runs, p, w)
    ensures var e' := Enqueue(e, PendingRuns(e.table, runs, p.mission.waypoints[w].actions));
            Disciplined(e') && Ahead(e', runs, p, w + 1)
  {
    var actions := p.mission.waypoints[w].actions;
    WaypointIds(p, w);
    forall i | 0 <= i < |actions| ensures Untouched(e, runs, actions[i].id) {
      assert ActionIds(actions)[i] in WorkIds(p.mission, w, p.Total());
    }
    PendingIsFresh(e, runs, actions);
    var pending := PendingRuns(e.table, runs, actions);
    EnqueueKeepsDiscipline(e, pending);
    forall id | id in WorkIds(p.mission, w + 1, p.Total()) ensures Untouched(Enqueue(e, pending), runs, id) {
      assert Untouched(e, runs, id);
      NotPending(e, runs, actions, id);
    }
  }

  // ---------------------------------------------------------- registration

  /** New ids are registered on new runs. */
  lemma {:induction false} RegisteredAsNew(l: Ledger, items: seq<Item>, i: nat)
    requires LedgerOk(l) && i < |items| && items[i].action.id !in l.runs
    requires forall j | 0 <= j < |items| :: items[j].origin != Instant
    ensures items[i].action.id in RegisterAll(l, items).runs
    ensures |l.table| <= RegisterAll(l, items).runs[items[i].action.id] < |RegisterAll(l, items).table|
    decreases |items|
  {
    var n := |items| - 1;
    RegisterAllOk(l, items[..n]);
    RegisterAllOk(l, items);
    if i < n {
      assert items[..n][i] == items[i];
      RegisteredAsNew(l, items[..n], i);
    } else {
      RegisteredRange(l, items[..n], items[n].action.id);
    }
  }

  lemma {:induction false} RegisteredRange(l: Ledger, items: seq<Item>, id: string)
    requires LedgerOk(l) && id !in l.runs && forall j | 0 <= j < |items| :: items[j].origin != Instant
    ensures id in RegisterAll(l, items).runs ==> RegisterAll(l, items).runs[id] >= |l.table|
    decreases |items|
  {
    if items != [] {
      RegisterAllOk(l, items[..|items| - 1]);
      RegisteredRange(l, items[..|items| - 1], id);
    }
  }

  /** Appending scheduled runs keeps the discipline. */
  lemma ExtendKeepsDiscipline(e: EngineState, table: seq<Run>)
    requires Disciplined(e) && e.table <= table
    requires forall k | |e.table| <= k < |table| :: Scheduled(table[k])
    ensures Disciplined(e.(table := table))
  {
    assert LastRunner(e.(table := table)) == LastRunner(e);
  }

  // ------------------------------------------------------------- the robot

  /** Before the attempt: the engine has nothing to do. */
  ghost predicate Resting(e: EngineState) {
    && Disciplined(e) && e.queue == [] && Held(e) == None
    && forall k | 0 <= k < |e.table| && e.table[k].QueueStarted() :: e.table[k].Settled()
  }

  /** The robot stands on waypoint `at` or has left it; everything beyond is untouched, and a node it
      is driving to carries the actions of the next waypoint. */
  ghost predicate InHand(r: Robot, p: Plan, at: nat)
    requires at < p.Total()
  {
    && r.lastSeq == NodeNumber(0, at)
    && Disciplined(r.engine) && Registry(r.engine, r.runs) && Ahead(r.engine, r.runs, p, at + 1)
    && (Current(r) && at + 1 < p.Total() ==> r.driver.target.actions == p.mission.waypoints[at + 1].actions)
  }

  lemma {:induction false} WorkIsUntouched(p: Plan, reset: EngineState, start: Ledger, items: seq<Item>)
    requires ItemIds(items) == Work(p) && start.table == reset.table && reset.queue == []
    requires Valid(reset) && Held(reset) == None && LedgerOk(start)
    requires forall i | 0 <= i < |items| :: items[i].origin != Instant && items[i].action.id !in start.runs
    ensures Ahead(reset.(table := RegisterAll(start, items).table), RegisterAll(start, items).runs, p, 0)
  {
    var l := RegisterAll(start, items);
    RegisterAllOk(start, items);
    forall id | id in Work(p) ensures Untouched(reset.(table := l.table), l.runs, id) {
      var i :| 0 <= i < |items| && ItemIds(items)[i] == id;
      RegisteredAsNew(start, items, i);
    }
  }

  lemma FreshInHand(r: Robot, p: Plan)
    requires p.Valid() && RefsOk(r) && ListedOk(r) && Unclaimed(r, p) && DistinctIds(Work(p)) && Resting(r.engine)
    ensures var l := FreshLedger(r, Message(p, 0));
            var e := ResetForOrder(r.engine, r.runs.Values).(table := l.table);
            Disciplined(e) && Registry(e, l.runs) && Ahead(e, l.runs, p, 0)
  {
    var o := Message(p, 0);
    var items := NodeItems(o.nodes) + EdgeItems(o.edges);
    var reset := ResetForOrder(r.engine, r.runs.Values);
    var start := Ledger(reset.table, InstantRuns(r), []);
    SentItemIds(p.mission, p.v2, Released(p, 0), 0);
    SentOrigins(o, items);
    ItemsAreNew(r, p, items);
    ResetLedgerOk(r);
    RegisterAllOk(start, items);
    assert Disciplined(reset.(table := RegisterAll(start, items).table)) by {
      ResetKeepsDiscipline(r.engine, r.runs.Values);
      ExtendKeepsDiscipline(reset, RegisterAll(start, items).table);
    }
    WorkIsUntouched(p, reset, start, items);
  }

  lemma EngineOfFresh(r: Robot, o: Order, s: Surroundings)
    requires RefsOk(r) && Decide(r, o, s).Accept? && (!r.hasOrder || r.orderId != o.orderId)
    ensures |o.nodes| >= 1 && RefsOk(LaidOut(r, o))
    ensures var l, r' := FreshLedger(r, o), OnOrder(r, o, s);
            var e := ResetForOrder(r.engine, r.runs.Values).(table := l.table);
            && (forall id | id in l.runs :: l.runs[id] < |l.table|)
            && r'.engine == Enqueue(e, PendingRuns(l.table, l.runs, o.nodes[0].actions))
            && r'.runs == l.runs && r'.driver == r.driver
            && r'.lastSeq == o.nodes[0].seqId
  {
    FreshOutcome(r, o, s);
    AcceptedIsFresh(r, o, s);
    LaidOutRefs(r, o);
  }

  lemma InHandAfter(r': Robot, e: EngineState, p: Plan, w: nat)
    requires w < p.Total() && DistinctIds(Work(p)) && Disciplined(e) && Registry(e, r'.runs) && Ahead(e, r'.runs, p, w)
    requires r'.engine == Enqueue(e, PendingRuns(e.table, r'.runs, p.mission.waypoints[w].actions))
    requires r'.lastSeq == NodeNumber(0, w) && !Current(r')
    ensures InHand(r', p, w)
  {
    HandOver(e, r'.runs, p, w);
  }

  /** Taking up the first message: the actions of the first waypoint are handed over, the others
      are untouched. */
  lemma FreshOrderInHand(r: SoundRobot, p: Plan, o: Order, s: Surroundings)
    requires p.Valid() && Unclaimed(r, p) && DistinctIds(Work(p)) && Resting(r.engine) && !Current(r)
    requires Unadopted(r, p) && o == Message(p, 0) && Decide(r, o, s).Accept?
    ensures InHand(OnOrder(r, o, s), p, 0)
  {
    EngineOfFresh(r, o, s);
    FreshInHand(r, p);
    SentNode(p.mission, p.v2, Released(p, 0), 0, 0);
    StillNotCurrent(r, o, s);
    InHandAfter(OnOrder(r, o, s), ResetForOrder(r.engine, r.runs.Values).(table := FreshLedger(r, o).table), p, 0);
  }

  /** A robot that is not on its way is not after an order either: a new edge is a new object. */
  lemma StillNotCurrent(r: SoundRobot, o: Order, s: Surroundings)
    requires !Current(r) && Decide(r, o, s).Accept? && (!r.hasOrder || r.orderId != o.orderId)
    ensures !Current(OnOrder(r, o, s))
  {
    FreshOutcome(r, o, s);
    IndexedTags(o.edges, r.accepted);
    EngineOfFresh(r, o, s);
  }

  // ---------------------------------------------------------------- updates

  lemma {:induction false} KeptIds(table: seq<Run>, queue: seq<nat>, kept: set<string>, k: nat)
    requires forall i | 0 <= i < |queue| :: queue[i] < |table|
    requires k !in queue
    ensures k !in KeepIds(table, queue, kept)
  {
  }

  /** The ledger of an update, as seen by an action ahead of the robot: up to the stitch its run
      stays, beyond it there is a new one. */
  lemma UpdateRegisters(r: Robot, p: Plan, j: nat, i: nat, id: string)
    requires p.Valid() && RefsOk(r) && ListedOk(r) && Route(r.nodes, r.edges, p, Released(p, j)) && Follows(p, j, i)
    requires ListedIds(r) == Work(p) && DistinctIds(Work(p)) && id in Work(p) && id in r.runs
    ensures var l := UpdateLedger(r, Message(p, i));
            && LedgerOk(l) && r.engine.table <= l.table
            && (forall k | |r.engine.table| <= k < |l.table| :: Scheduled(l.table[k]))
            && id in l.runs && (l.runs[id] == r.runs[id] || l.runs[id] >= |r.engine.table|)
  {
    var o, start := Message(p, i), Start(p, i);
    var pruned, items := PrunedLedger(r, NodeNumber(0, start)), NodeItems(o.nodes[1..]);
    UpdateLedgerIs(r, p, j, i);
    UpdateItemIds(p, i);
    PrunedIds(r, p, Released(p, j), start);
    HorizonIsWork(r, p, Released(p, j), start);
    NodeItemsOrigin(o.nodes[1..]);
    RegisterAllOk(pruned, items);
    if id in WorkIds(p.mission, start + 1, p.Total()) {
      var x :| 0 <= x < |items| && ItemIds(items)[x] == id;
      RegisteredAsNew(pruned, items, x);
    } else {
      assert id in pruned.runs;
    }
  }

  lemma UpdateEngineIs(r: Robot, p: Plan, j: nat, i: nat)
    requires p.Valid() && RefsOk(r) && Route(r.nodes, r.edges, p, Released(p, j)) && Follows(p, j, i)
    ensures UpdateEngine(r, Message(p, i)) == UpdatedEngine(r, p, i)
  {
    var o, stitch := Message(p, i), NodeNumber(0, Start(p, i));
    NothingOnStitch(r, p, j, i);
    SentNode(p.mission, p.v2, Released(p, i), Start(p, i), Start(p, i));
    assert Items([], OnNode, stitch) == [];
    var pruned := DropHorizon(r.engine, PrunedLedger(r, stitch).runs.Keys);
    assert pruned.queue + [] == pruned.queue;
    assert Enqueue(pruned, []) == pruned;
  }

  lemma FieldsOfUpdate(r: Robot, o: Order, s: Surroundings)
    requires RefsOk(r) && Decide(r, o, s).Accept? && r.hasOrder && r.orderId == o.orderId
    ensures |o.nodes| >= 1
    ensures var r' := OnOrder(r, o, s);
            && r'.engine == UpdateEngine(r, o) && r'.runs == UpdateLedger(r, o).runs
            && r'.driver == r.driver && r'.lastSeq == r.lastSeq
  {
    UpdateOutcome(r, o, s);
  }

  lemma UntouchedByUpdate(e: EngineState, runs: map<string, nat>, kept: set<string>, table: seq<Run>,
                          runs': map<string, nat>, id: string)
    requires Valid(e) && Untouched(e, runs, id) && e.table <= table && (Held(e).Some? ==> Held(e).value < |e.table|)
    requires id in runs' && runs'[id] < |table|
    requires runs'[id] == runs[id] || (runs'[id] >= |e.table| && Scheduled(table[runs'[id]]))
    ensures Untouched(DropHorizon(e, kept).(table := table), runs', id)
  {
    KeptIds(e.table, e.queue, kept, runs'[id]);
  }

  lemma DropAndExtend(e: EngineState, kept: set<string>, table: seq<Run>)
    requires Disciplined(e) && e.table <= table
    requires forall k | |e.table| <= k < |table| :: Scheduled(table[k])
    ensures Disciplined(DropHorizon(e, kept).(table := table))
  {
    DropKeepsDiscipline(e, kept);
    ExtendKeepsDiscipline(DropHorizon(e, kept), table);
  }

  /** The engine an update leaves behind. */
  function UpdatedEngine(r: Robot, p: Plan, i: nat): EngineState
    requires p.Valid() && RefsOk(r)
  {
    DropHorizon(r.engine, PrunedLedger(r, NodeNumber(0, Start(p, i))).runs.Keys)
    .(table := UpdateLedger(r, Message(p, i)).table)
  }

  lemma IdAfterUpdate(r: Robot, p: Plan, j: nat, i: nat, id: string)
    requires p.Valid() && RefsOk(r) && ListedOk(r) && Route(r.nodes, r.edges, p, Released(p, j)) && Follows(p, j, i)
    requires ListedIds(r) == Work(p) && DistinctIds(Work(p)) && id in Work(p) && Untouched(r.engine, r.runs, id)
    ensures Untouched(UpdatedEngine(r, p, i), UpdateLedger(r, Message(p, i)).runs, id)
  {
    var l := UpdateLedger(r, Message(p, i));
    UpdateRegisters(r, p, j, i, id);
    HeldInTable(r.engine);
    UntouchedByUpdate(r.engine, r.runs, PrunedLedger(r, NodeNumber(0, Start(p, i))).runs.Keys, l.table, l.runs, id);
  }

  lemma HeldInTable(e: EngineState)
    requires Valid(e)
    ensures Held(e).Some? ==> Held(e).value < |e.table|
  {
  }

  lemma AheadAfterUpdate(r: Robot, p: Plan, j: nat, i: nat, from: nat)
    requires p.Valid() && RefsOk(r) && ListedOk(r) && Route(r.nodes, r.edges, p, Released(p, j)) && Follows(p, j, i)
    requires ListedIds(r) == Work(p) && DistinctIds(Work(p)) && from <= p.Total() && Ahead(r.engine, r.runs, p, from)
    ensures Ahead(UpdatedEngine(r, p, i), UpdateLedger(r, Message(p, i)).runs, p, from)
  {
    WorkIdsSplit(p.mission, 0, from, p.Total());
    forall id | id in WorkIds(p.mission, from, p.Total())
      ensures Untouched(UpdatedEngine(r, p, i), UpdateLedger(r, Message(p, i)).runs, id)
    {
      assert id in Work(p);
      IdAfterUpdate(r, p, j, i, id);
    }
  }

  lemma DisciplineAfterUpdate(r: Robot, p: Plan, j: nat, i: nat)
    requires p.Valid() && RefsOk(r) && ListedOk(r) && Route(r.nodes, r.edges, p, Released(p, j)) && Follows(p, j, i)
    requires ListedIds(r) == Work(p) && DistinctIds(Work(p)) && Disciplined(r.engine)
    ensures Disciplined(UpdatedEngine(r, p, i))
    ensures Registry(UpdatedEngine(r, p, i), UpdateLedger(r, Message(p, i)).runs)
  {
    UpdateLedgerIds(r, p, j, i);
    UpdateGrows(r, p, j, i);
    DropAndExtend(r.engine, PrunedLedger(r, NodeNumber(0, Start(p, i))).runs.Keys,
                  UpdateLedger(r, Message(p, i)).table);
  }

  lemma UpdateGrows(r: Robot, p: Plan, j: nat, i: nat)
    requires p.Valid() && RefsOk(r) && ListedOk(r) && Route(r.nodes, r.edges, p, Released(p, j)) && Follows(p, j, i)
    ensures var l := UpdateLedger(r, Message(p, i));
            r.engine.table <= l.table && forall k | |r.engine.table| <= k < |l.table| :: Scheduled(l.table[k])
  {
    UpdateLedgerIs(r, p, j, i);
    PrunedLedgerOk(r, NodeNumber(0, Start(p, i)));
    NodeItemsOrigin(Message(p, i).nodes[1..]);
    RegisterAllOk(PrunedLedger(r, NodeNumber(0, Start(p, i))), NodeItems(Message(p, i).nodes[1..]));
  }

  lemma InHandUpdated(r: SoundRobot, r': Robot, p: Plan, j: nat, i: nat, at: nat)
    requires p.Valid() && Route(r.nodes, r.edges, p, Released(p, j)) && Follows(p, j, i)
    requires ListedIds(r) == Work(p) && DistinctIds(Work(p)) && at < p.Total() && InHand(r, p, at)
    requires r'.engine == UpdatedEngine(r, p, i) && r'.runs == UpdateLedger(r, Message(p, i)).runs
    requires r'.driver == r.driver && r'.lastSeq == r.lastSeq && (Current(r') ==> Current(r))
    ensures InHand(r', p, at)
  {
    assert Ahead(r'.engine, r'.runs, p, at + 1) by { AheadAfterUpdate(r, p, j, i, at + 1); }
    assert Disciplined(r'.engine) && Registry(r'.engine, r'.runs) by { DisciplineAfterUpdate(r, p, j, i); }
  }

  /** An update touches nothing the robot has not reached. */
  lemma UpdateInHand(r: SoundRobot, p: Plan, o: Order, j: nat, i: nat, at: nat, s: Surroundings)
    requires p.Valid() && Carries(r, p, j) && !Cleared(r) && Follows(p, j, i) && o == Message(p, i)
    requires Decide(r, o, s).Accept? && ListedIds(r) == Work(p) && DistinctIds(Work(p))
    requires at < p.Total() && InHand(r, p, at)
    ensures InHand(OnOrder(r, o, s), p, at)
  {
    FieldsOfUpdate(r, o, s);
    UpdateEngineIs(r, p, j, i);
    CurrentBefore(r, o, s);
    InHandUpdated(r, OnOrder(r, o, s), p, j, i, at);
  }

  /** What is current after an update was so before. */
  lemma CurrentBefore(r: SoundRobot, o: Order, s: Surroundings)
    requires Decide(r, o, s).Accept? && r.hasOrder && r.orderId == o.orderId
    ensures Current(OnOrder(r, o, s)) ==> Current(r)
  {
    UpdateOutcome(r, o, s);
    FieldsOfUpdate(r, o, s);
    IndexedTags(o.edges, r.accepted);
  }

  // ------------------------------------------------------------ other steps

  lemma UntouchedByRunner(e: EngineState, i: nat, runs: map<string, nat>, id: string)
    requires Disciplined(e) && i < |e.runners| && Untouched(e, runs, id)
    ensures Untouched(RunnerStep(e, i), runs, id)
  {
  }

  /** A step of the engine alone: what waits untouched is left alone. */
  lemma EngineStepInHand(r: SoundRobot, p: Plan, at: nat, step: Step)
    requires p.Valid() && at < p.Total() && InHand(r, p, at)
    requires step.RunnerMoves? || step.HandlerReports? || step.HandlerEnds? || step.RetrySkips?
    ensures InHand(Next(r, step), p, at)
  {
    EngineKeepsOrder(r, step);
    var e, e' := r.engine, Next(r, step).engine;
    EngineStepDisciplined(r, step);
    forall id | id in WorkIds(p.mission, at + 1, p.Total()) ensures Untouched(e', r.runs, id) {
      assert Untouched(e, r.runs, id);
      EngineStepUntouched(r, step, id);
    }
    StepKeepsActions(r, step);
    InHandEngine(r, Next(r, step), p, at);
  }

  lemma InHandEngine(r: Robot, r': Robot, p: Plan, at: nat)
    requires at < p.Total() && InHand(r, p, at) && r' == r.(engine := r'.engine)
    requires Disciplined(r'.engine) && Ahead(r'.engine, r.runs, p, at + 1) && SameActions(r.engine, r'.engine)
    ensures InHand(r', p, at)
  {
  }

  lemma HandledEvolves(run: Run, step: Step)
    requires RunOk(run) && (step.HandlerReports? || step.HandlerEnds? || step.RetrySkips?)
    ensures Evolves(run, Handled(run, step))
  {
  }

  lemma EngineStepDisciplined(r: SoundRobot, step: Step)
    requires Disciplined(r.engine)
    requires step.RunnerMoves? || step.HandlerReports? || step.HandlerEnds? || step.RetrySkips?
    ensures Disciplined(Next(r, step).engine)
  {
    var e := r.engine;
    if step.RunnerMoves? {
      if step.runner < |e.runners| { RunnerKeepsDiscipline(e, step.runner); }
    } else if step.run < |e.table| {
      HandledEvolves(e.table[step.run], step);
      SingleEvolution(e, step.run, run => Handled(run, step));
    }
  }

  lemma UntouchedKept(e: EngineState, table: seq<Run>, runs: map<string, nat>, id: string)
    requires Untouched(e, runs, id) && |table| == |e.table| && table[runs[id]] == e.table[runs[id]]
    ensures Untouched(e.(table := table), runs, id)
  {
    assert LastRunner(e.(table := table)) == LastRunner(e);
  }

  lemma EngineStepUntouched(r: SoundRobot, step: Step, id: string)
    requires Disciplined(r.engine) && Untouched(r.engine, r.runs, id)
    requires step.RunnerMoves? || step.HandlerReports? || step.HandlerEnds? || step.RetrySkips?
    ensures Untouched(Next(r, step).engine, r.runs, id)
  {
    var e := r.engine;
    if step.RunnerMoves? {
      if step.runner < |e.runners| { UntouchedByRunner(e, step.runner, r.runs, id); }
    } else {
      HandledOnly(r, step, r.runs[id]);
      UntouchedKept(e, Next(r, step).engine.table, r.runs, id);
    }
  }

  /** Appending a run for an instant action, and perhaps starting it. */
  lemma UntouchedByInstant(e: EngineState, runs: map<string, nat>, a: Action, supported: bool, id: string)
    requires Untouched(e, runs, id) && id != a.id && (Held(e).Some? ==> Held(e).value < |e.table|) && Valid(e)
    ensures var registered := NewRun(e, FreshRun(a, Instant, -1));
            Untouched(if supported then StartTask(registered, |e.table|)
              else NewRun(e, FreshRun(a, Instant, -1).(status := Failed)),
                      runs[a.id := |e.table|], id)
  {
  }

  lemma AheadByInstant(r: SoundRobot, p: Plan, at: nat, a: Action, supported: bool)
    requires at < p.Total() && InHand(r, p, at) && a.id !in Work(p) && a.id !in r.runs
    ensures var r' := StartInstant(r, a, supported);
            Ahead(r'.engine, r'.runs, p, at + 1)
  {
    var r' := StartInstant(r, a, supported);
    WorkIdsSplit(p.mission, 0, at + 1, p.Total());
    forall id | id in WorkIds(p.mission, at + 1, p.Total()) ensures Untouched(r'.engine, r'.runs, id) {
      assert id in Work(p);
      UntouchedByInstant(r.engine, r.runs, a, supported, id);
    }
  }

  lemma InstantInHand(r: SoundRobot, p: Plan, at: nat, a: Action, supported: bool)
    requires p.Valid() && at < p.Total() && InHand(r, p, at) && a.id !in Work(p)
    ensures InHand(StartInstant(r, a, supported), p, at)
  {
    if a.id !in r.runs {
      InstantDisciplined(r.engine, a, supported);
      AheadByInstant(r, p, at, a, supported);
      RegistryAfterInstant(r, a, supported);
    }
  }

  lemma RegistryAfterInstant(r: Robot, a: Action, supported: bool)
    requires RefsOk(r) && Registry(r.engine, r.runs) && a.id !in r.runs
    ensures Registry(StartInstant(r, a, supported).engine, StartInstant(r, a, supported).runs)
  {
    InstantAppends(r, a, supported);
  }

  lemma InstantDisciplined(e: EngineState, a: Action, supported: bool)
    requires Disciplined(e)
    ensures var registered := NewRun(e, FreshRun(a, Instant, -1));
            Disciplined(if supported then StartTask(registered, |e.table|)
              else NewRun(e, FreshRun(a, Instant, -1).(status := Failed)))
  {
    RegisterKeepsDiscipline(e, FreshRun(a, Instant, -1));
    if supported {
      InstantKeepsDiscipline(NewRun(e, FreshRun(a, Instant, -1)), |e.table|);
    } else {
      assert LastRunner(NewRun(e, FreshRun(a, Instant, -1).(status := Failed))) == LastRunner(e);
    }
  }

  // ---------------------------------------------------------------- driving

  lemma RouteEdgesCarryNothing(r: Robot, p: Plan, release: int)
    requires Route(r.nodes, r.edges, p, release)
    ensures forall k | k in r.edges :: r.edges[k].edge.actions == []
    ensures forall w | 0 <= w < p.Total() ::
              NodeNumber(0, w) in r.nodes && r.nodes[NodeNumber(0, w)].actions == p.mission.waypoints[w].actions
  {
    forall k | k in r.edges ensures r.edges[k].edge.actions == [] {
      assert k in EdgeKeys(0, p.Total() - 1);
    }
    forall w | 0 <= w < p.Total()
      ensures NodeNumber(0, w) in r.nodes && r.nodes[NodeNumber(0, w)].actions == p.mission.waypoints[w].actions
    {
      assert r.nodes[NodeNumber(0, w)] == NodeAt(p.mission, p.v2, release, w);
    }
  }

  lemma SetOffEngine(r: Robot, mayDrive: bool)
    requires RefsOk(r) && forall k | k in r.edges :: r.edges[k].edge.actions == []
    ensures SetOff(r, mayDrive) == r.(driver := SetOff(r, mayDrive).driver)
    ensures SetOff(r, mayDrive) != r ==>
              && NextEdge(r).Some? && NextEdge(r).value.edge.seqId + 1 in r.nodes
              && SetOff(r, mayDrive).driver == Driving(NextEdge(r).value, r.nodes[NextEdge(r).value.edge.seqId + 1])
  {
    assert r.engine.queue + [] == r.engine.queue;
    assert Enqueue(r.engine, []) == r.engine;
  }

  /** The stored edge ahead leads to the next waypoint. */
  lemma RouteAhead(nodes: map<int, Node>, edges: map<int, RxEdge>, p: Plan, release: int, at: nat)
    requires Route(nodes, edges, p, release) && at < p.Total() && EdgeNumber(0, at) in edges
    ensures at + 1 < p.Total() && edges[EdgeNumber(0, at)].edge.seqId + 1 == NodeNumber(0, at + 1)
    ensures NodeNumber(0, at + 1) in nodes
    ensures nodes[NodeNumber(0, at + 1)].actions == p.mission.waypoints[at + 1].actions
  {
    assert EdgeNumber(0, at) in EdgeKeys(0, p.Total() - 1);
    assert edges[EdgeNumber(0, at)].edge == EdgeAt(p.mission, p.v2, release, at);
    assert nodes[NodeNumber(0, at + 1)] == NodeAt(p.mission, p.v2, release, at + 1);
  }

  lemma SetOffTarget(r: SoundRobot, p: Plan, release: int, at: nat, mayDrive: bool)
    requires p.Valid() && at < p.Total() && Route(r.nodes, r.edges, p, release)
    requires r.lastSeq == NodeNumber(0, at) && SetOff(r, mayDrive) != r
    ensures at + 1 < p.Total()
    ensures SetOff(r, mayDrive).driver.target.actions == p.mission.waypoints[at + 1].actions
  {
    assert r.lastSeq + 1 == EdgeNumber(0, at);
    RouteAhead(r.nodes, r.edges, p, release, at);
  }

  lemma DrivenHands(r: Robot, r': Robot, p: Plan, at: nat)
    requires at < p.Total() && InHand(r, p, at)
    requires r'.engine == r.engine && r'.runs == r.runs && r'.lastSeq == r.lastSeq && r'.driver.Driving?
    requires at + 1 < p.Total() ==> r'.driver.target.actions == p.mission.waypoints[at + 1].actions
    ensures InHand(r', p, at)
  {
  }

  lemma SetOffInHand(r: SoundRobot, p: Plan, release: int, at: nat, mayDrive: bool)
    requires p.Valid() && at < p.Total() && InHand(r, p, at) && Route(r.nodes, r.edges, p, release)
    requires 1 <= release <= p.Total()
    ensures InHand(SetOff(r, mayDrive), p, at)
  {
    if SetOff(r, mayDrive) != r {
      RouteEdgesCarryNothing(r, p, release);
      SetOffEngine(r, mayDrive);
      SetOffKeepsOrder(r, mayDrive);
      SetOffTarget(r, p, release, at, mayDrive);
      DrivenHands(r, SetOff(r, mayDrive), p, at);
    }
  }

  lemma UntouchedOnArrival(e: EngineState, edge: int, runs: map<string, nat>, id: string)
    requires Disciplined(e) && Untouched(e, runs, id)
    ensures Untouched(FinishEdgeActions(e, edge), runs, id)
  {
  }

  lemma AheadOnArrival(e: EngineState, edge: int, runs: map<string, nat>, p: Plan, from: nat)
    requires from <= p.Total() && Disciplined(e) && Registry(e, runs) && Ahead(e, runs, p, from)
    ensures var e' := FinishEdgeActions(e, edge);
            Disciplined(e') && Registry(e', runs) && Ahead(e', runs, p, from)
  {
    EdgeKeepsDiscipline(e, edge);
    forall id | id in WorkIds(p.mission, from, p.Total()) ensures Untouched(FinishEdgeActions(e, edge), runs, id) {
      UntouchedOnArrival(e, edge, runs, id);
    }
  }

  lemma FieldsOfArrival(r: Robot)
    requires RefsOk(r) && Current(r)
    ensures var e, r' := FinishEdgeActions(r.engine, r.driver.edge.edge.seqId), Arrive(r);
            && (forall id | id in r.runs :: r.runs[id] < |e.table|)
            && r'.engine == Enqueue(e, PendingRuns(e.table, r.runs, r.driver.target.actions))
            && r'.runs == r.runs && r'.lastSeq == r.driver.target.seqId && !Current(r')
  {
  }

  /** Arriving hands over the actions of the node arrived at. */
  lemma ArriveInHand(r: SoundRobot, p: Plan, at: nat)
    requires p.Valid() && at < p.Total() && InHand(r, p, at) && r.nodes.Keys == NodeKeys(0, p.Total())
    requires Current(r) && DistinctIds(Work(p))
    ensures at + 1 < p.Total() && InHand(Arrive(r), p, at + 1)
  {
    assert r.lastSeq + 2 in NodeKeys(0, p.Total()) && r.lastSeq + 2 == NodeNumber(0, at + 1);
    var e := FinishEdgeActions(r.engine, r.driver.edge.edge.seqId);
    AheadOnArrival(r.engine, r.driver.edge.edge.seqId, r.runs, p, at + 1);
    FieldsOfArrival(r);
    InHandAfter(Arrive(r), e, p, at + 1);
  }

  lemma SameHands(r: Robot, r': Robot, p: Plan, at: nat)
    requires at < p.Total() && InHand(r, p, at)
    requires r'.engine == r.engine && r'.runs == r.runs && r'.lastSeq == r.lastSeq && r'.edges == r.edges
    requires r'.driver == r.driver || r'.driver == Stopped
    ensures InHand(r', p, at)
  {
  }

  // --------------------------------------------------------------- at rest

  /** Nothing to do and nowhere to go. */
  ghost predicate AtRest(r: Robot) {
    Resting(r.engine) && NextEdge(r).None? && !Current(r)
  }

  lemma HandlerRests(e: EngineState, k: nat, f: Run -> Run)
    requires Resting(e) && k < |e.table| && Evolves(e.table[k], f(e.table[k]))
    ensures Resting(OnRun(e, k, f))
  {
    SingleEvolution(e, k, f);
  }

  lemma RunnerRests(e: EngineState, i: nat)
    requires Resting(e) && i < |e.runners|
    ensures Resting(RunnerStep(e, i))
  {
    RunnerKeepsDiscipline(e, i);
  }

  lemma EngineStepRests(r: SoundRobot, step: Step)
    requires Resting(r.engine)
    requires step.RunnerMoves? || step.HandlerReports? || step.HandlerEnds? || step.RetrySkips?
    ensures Resting(Next(r, step).engine)
  {
    var e := r.engine;
    if step.RunnerMoves? {
      if step.runner < |e.runners| { RunnerRests(e, step.runner); }
    } else if step.run < |e.table| {
      HandledEvolves(e.table[step.run], step);
      HandlerRests(e, step.run, run => Handled(run, step));
    }
  }

  lemma InstantRests(e: EngineState, a: Action, supported: bool)
    requires Resting(e)
    ensures var registered := NewRun(e, FreshRun(a, Instant, -1));
            Resting(if supported then StartTask(registered, |e.table|)
              else NewRun(e, FreshRun(a, Instant, -1).(status := Failed)))
  {
    InstantDisciplined(e, a, supported);
  }

  lemma EngineAtRest(r: SoundRobot, step: Step)
    requires AtRest(r) && (step.RunnerMoves? || step.HandlerReports? || step.HandlerEnds? || step.RetrySkips?)
    ensures AtRest(Next(r, step))
  {
    EngineStepRests(r, step);
    EngineKeepsOrder(r, step);
  }

  lemma InstantAtRest(r: SoundRobot, a: Action, supported: bool)
    requires AtRest(r)
    ensures AtRest(StartInstant(r, a, supported))
  {
    InstantRests(r.engine, a, supported);
  }

  lemma StaysAtRest(r: SoundRobot, step: Step)
    requires AtRest(r) && !step.Delivered? && !step.CancelAsked? && !step.ManualAsked?
    ensures AtRest(Next(r, step))
  {
    match step
    case InstantAsked(a, supported) => InstantAtRest(r, a, supported);
    case Rested =>
    case SettingOff(_) =>
    case Arrived =>
    case Abandoned =>
    case _ => EngineAtRest(r, step);
  }

  // --------------------------------------------------------------- every run

  /** Every mission action beyond the robot is untouched, wherever it is. */
  ghost predicate InHandSomewhere(r: Robot, p: Plan) {
    exists at: nat :: at < p.Total() && InHand(r, p, at)
  }

  /** Before the attempt the robot rests; afterwards the actions ahead of it are in hand. */
  ghost predicate Working(r: SoundRobot, p: Plan, k: nat) {
    if k == 0 then AtRest(r) else InHandSomewhere(r, p)
  }

  lemma ArrivalInHand(r: SoundRobot, p: Plan, release: int, at: nat)
    requires p.Valid() && at < p.Total() && InHand(r, p, at) && Route(r.nodes, r.edges, p, release)
    requires DistinctIds(Work(p))
    ensures InHandSomewhere(Arrive(r), p)
  {
    if Current(r) { ArriveInHand(r, p, at); } else { assert Arrive(r) == r; }
  }

  lemma PauseInHand(r: Robot, p: Plan, at: nat)
    requires at < p.Total() && InHand(r, p, at)
    ensures InHand(Rest(r), p, at) && InHand(Abandon(r), p, at)
  {
    PauseKeepsOrder(r);
    SameHands(r, Rest(r), p, at);
    SameHands(r, Abandon(r), p, at);
  }

  lemma DrivingInHand(r: SoundRobot, p: Plan, release: int, at: nat, step: Step)
    requires p.Valid() && at < p.Total() && InHand(r, p, at) && Route(r.nodes, r.edges, p, release)
    requires 1 <= release <= p.Total()
    requires DistinctIds(Work(p)) && (step.Rested? || step.SettingOff? || step.Arrived? || step.Abandoned?)
    ensures InHandSomewhere(Next(r, step), p)
  {
    match step
    case SettingOff(mayDrive) => SetOffInHand(r, p, release, at, mayDrive);
    case Arrived => ArrivalInHand(r, p, release, at);
    case _ => PauseInHand(r, p, at);
  }

  lemma DueInHand(r: SoundRobot, p: Plan, k: nat, i: nat, at: nat, o: Order, s: Surroundings)
    requires p.Valid() && Underway(r, p, k) && ListedIds(r) == Work(p) && DistinctIds(Work(p))
    requires at < p.Total() && InHand(r, p, at)
    requires CanFollow(p, k, i) && o == Message(p, i) && Decide(r, o, s).Accept?
    ensures InHand(OnOrder(r, o, s), p, at)
  {
    assert Carries(r, p, k - 1) && Follows(p, k - 1, i);
    UpdateInHand(r, p, o, k - 1, i, at, s);
  }

  lemma DeliveryInHand(r: SoundRobot, p: Plan, k: nat, at: nat, step: Step)
    requires p.Valid() && Underway(r, p, k) && ListedIds(r) == Work(p) && DistinctIds(Work(p))
    requires at < p.Total() && InHand(r, p, at) && OnChannel(r, p, step) && step.Delivered?
    ensures InHandSomewhere(Next(r, step), p)
  {
    if Accepts(r, step) {
      var i: nat :| Sendable(p, i) && step.order == Message(p, i);
      AcceptedIsDue(r, p, k, i, step.around);
      DueInHand(r, p, k, i, at, step.order, step.around);
    } else {
      assert Next(r, step) == r;
    }
  }

  lemma InHandGoesOn(r: SoundRobot, p: Plan, k: nat, step: Step)
    requires p.Valid() && Underway(r, p, k) && ListedIds(r) == Work(p) && DistinctIds(Work(p)) && InHandSomewhere(r, p)
    requires OnChannel(r, p, step) && OwnIds(p, step) && !step.CancelAsked? && !step.ManualAsked?
    ensures InHandSomewhere(Next(r, step), p)
  {
    var at: nat :| at < p.Total() && InHand(r, p, at);
    if step.Rested? || step.SettingOff? || step.Arrived? || step.Abandoned? {
      DrivingInHand(r, p, Released(p, k - 1), at, step);
    } else if step.InstantAsked? {
      InstantInHand(r, p, at, step.action, step.supported);
    } else if step.Delivered? {
      DeliveryInHand(r, p, k, at, step);
    } else {
      EngineStepInHand(r, p, at, step);
    }
  }

  lemma StartsInHand(r: SoundRobot, p: Plan, step: Step)
    requires p.Valid() && Unadopted(r, p) && Unclaimed(r, p) && AtRest(r) && DistinctIds(Work(p))
    requires OnChannel(r, p, step) && Accepts(r, step)
    ensures InHandSomewhere(Next(r, step), p)
  {
    var k := StepTakesUp(r, p, 0, step);
    FreshOrderInHand(r, p, step.order, step.around);
  }

  // -------------------------------------------------------- lossless, from rest

  lemma InstantKeepsPlace(r: Robot, a: Action, supported: bool)
    requires RefsOk(r)
    ensures var r' := StartInstant(r, a, supported); r' == r.(engine := r'.engine, runs := r'.runs)
  {
  }

  lemma OtherStepsKeepPlace(r: Robot, step: Step)
    requires RefsOk(r) && !step.Delivered? && !step.CancelAsked? && !step.ManualAsked? && !Current(r)
    ensures var r' := Next(r, step);
            r' == r.(engine := r'.engine, runs := r'.runs, driver := r'.driver, newBaseRequest := r'.newBaseRequest)
  {
    if step.InstantAsked? {
      InstantKeepsPlace(r, step.action, step.supported);
    } else if step.Rested? || step.SettingOff? || step.Abandoned? {
      if step.SettingOff? { SetOffKeepsOrder(r, step.mayDrive); } else { PauseKeepsOrder(r); }
    } else if !step.Arrived? {
      EngineKeepsOrder(r, step);
    }
  }

  /** A resting robot that is idle stays so until a message comes. */
  lemma StaysIdle(r: SoundRobot, step: Step)
    requires AtRest(r) && IsIdle(r) && !step.Delivered? && !step.CancelAsked? && !step.ManualAsked?
    ensures RobotOk(Next(r, step)) && AtRest(Next(r, step)) && IsIdle(Next(r, step))
    ensures Next(r, step).lastNodeId == r.lastNodeId
  {
    StepKeepsRobot(r, step);
    StaysAtRest(r, step);
    OtherStepsKeepPlace(r, step);
    forall i | 0 <= i < |r.actionStates| ensures Next(r, step).engine.table[r.actionStates[i]].Settled() {
      SettledStays(r, step, r.actionStates[i]);
    }
  }

  /** `o` starts where the robot is. */
  ghost predicate InReach(r: SoundRobot, o: Order, s: Surroundings) {
    |o.nodes| >= 1 && AtStart(o, SituationOf(r, s))
  }

  ghost predicate StillIdle(r: SoundRobot, r': SoundRobot) {
    AtRest(r') && IsIdle(r') && r'.lastNodeId == r.lastNodeId
  }

  /** Until the first message it waits, and is ready for it. */
  lemma {:induction false} RestFindsReady(r: SoundRobot, p: Plan, steps: seq<Step>, k: nat)
    requires p.Valid() && AtRest(r) && IsIdle(r) && InOrder(p, steps, k)
    requires forall i | 0 <= i < |steps| :: Calm(p, steps[i])
    requires forall i | 0 <= i < |steps| && Due(p, 0, steps[i]) :: InReach(r, steps[i].order, steps[i].around)
    ensures FoundReady(r, p, steps) && (k == 0 ==> StillIdle(r, After(r, steps)))
    decreases |steps|
  {
    if steps != [] {
      var init, last := steps[..|steps| - 1], steps[|steps| - 1];
      assert Calm(p, last) && forall i | 0 <= i < |init| :: init[i] == steps[i];
      RestFindsReady(r, p, init, if last.Delivered? then k - 1 else k);
      if !last.Delivered? && k == 0 { StaysIdle(After(r, init), last); }
    }
  }

  /** From rest: delivered in order and without loss, every message is accepted. */
  lemma LosslessFromRest(r: SoundRobot, p: Plan, steps: seq<Step>, k: nat)
    requires p.Valid() && Unadopted(r, p) && AtRest(r) && IsIdle(r) && InOrder(p, steps, k)
    requires forall i | 0 <= i < |steps| :: Calm(p, steps[i])
    requires forall i | 0 <= i < |steps| && Due(p, 0, steps[i]) :: InReach(r, steps[i].order, steps[i].around)
    ensures AllTakenUp(r, p, steps, k)
  {
    RestFindsReady(r, p, steps, k);
    LosslessFifo(r, p, steps, k);
  }
}
