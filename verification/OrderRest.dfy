/** Along an attempt the engine works on nothing but the mission's actions, so that a robot which has
    finished them rests again. */
module OrderRest {
  import opened Vda5050
  import opened Missions
  import opened Actions
  import opened RobotModel
  import opened RobotInvariants
  import opened RobotTheorems
  import opened OrderChain
  import opened OrderActions
  import opened OrderHandover

  /** The engine has the run on its hands. */
  ghost predicate Busy(e: EngineState, k: nat)
    requires k < |e.table|
  {
    k in e.queue || Held(e) == Some(k) || (e.table[k].QueueStarted() && !e.table[k].Settled())
  }

  ghost predicate BusyAmong(e: EngineState, listed: seq<nat>) {
    forall k | 0 <= k < |e.table| && Busy(e, k) :: k in listed
  }

  /** Every run the engine has on its hands is one of the order. */
  ghost predicate OnlyOrderBusy(r: Robot) { BusyAmong(r.engine, r.actionStates) }

  lemma RestsWhenFinished(r: SoundRobot)
    requires Disciplined(r.engine) && OnlyOrderBusy(r)
    requires forall i | 0 <= i < |r.actionStates| :: r.engine.table[r.actionStates[i]].Settled()
    ensures Resting(r.engine)
  {
    var e := r.engine;
    forall k | 0 <= k < |e.table| && Busy(e, k) ensures e.table[k].Settled() {
      var i :| 0 <= i < |r.actionStates| && r.actionStates[i] == k;
    }
    if e.queue != [] { assert Busy(e, e.queue[0]); }
    if Held(e).Some? { assert Busy(e, Held(e).value); }
  }

  /** Every mission action is listed under the run it is registered with. */
  lemma WorkIsListed(r: Robot, p: Plan, id: string)
    requires RefsOk(r) && ListedOk(r) && ListedIds(r) == Work(p) && id in Work(p)
    ensures id in r.runs && r.runs[id] in r.actionStates
  {
    var i :| 0 <= i < |Work(p)| && Work(p)[i] == id;
    assert ListedIds(r)[i] == id && ListedRunOk(r, r.actionStates[i]);
  }

  lemma PendingIsListed(r: Robot, table: seq<Run>, p: Plan, w: nat, k: nat)
    requires RefsOk(r) && ListedOk(r) && ListedIds(r) == Work(p) && w < p.Total()
    requires forall id | id in r.runs :: r.runs[id] < |table|
    requires k in PendingRuns(table, r.runs, p.mission.waypoints[w].actions)
    ensures k in r.actionStates
  {
    var actions := p.mission.waypoints[w].actions;
    PendingComesFrom(table, r.runs, actions, k);
    var i :| 0 <= i < |actions| && actions[i].id in r.runs && r.runs[actions[i].id] == k;
    WorkIdOf(p.mission, 0, p.Total(), w, actions[i]);
    WorkIsListed(r, p, actions[i].id);
  }

  /** Handing over the actions of a waypoint. */
  lemma EnqueueBusy(r: Robot, e: EngineState, p: Plan, w: nat)
    requires RefsOk(r) && ListedOk(r) && ListedIds(r) == Work(p) && w < p.Total()
    requires forall id | id in r.runs :: r.runs[id] < |e.table|
    requires BusyAmong(e, r.actionStates)
    requires r.engine == Enqueue(e, PendingRuns(e.table, r.runs, p.mission.waypoints[w].actions))
    ensures OnlyOrderBusy(r)
  {
    var pending := PendingRuns(e.table, r.runs, p.mission.waypoints[w].actions);
    assert Held(r.engine) == Held(e);
    forall k | 0 <= k < |r.engine.table| && Busy(r.engine, k) ensures k in r.actionStates {
      if k in pending { PendingIsListed(r, e.table, p, w, k); } else { assert Busy(e, k); }
    }
  }

  // --------------------------------------------------------- the first order

  lemma NothingBusyAfterReset(e: EngineState, registered: set<nat>, table: seq<Run>)
    requires Resting(e) && ResetForOrder(e, registered).table <= table
    requires forall k | |e.table| <= k < |table| :: Scheduled(table[k])
    ensures BusyAmong(ResetForOrder(e, registered).(table := table), [])
  {
    var reset := ResetForOrder(e, registered);
    assert LastRunner(reset.(table := table)) == LastRunner(e);
    forall k | 0 <= k < |table| ensures !Busy(reset.(table := table), k) {
      if k < |e.table| { assert table[k] == reset.table[k]; }
    }
  }

  lemma StartsOrderBusy(r: SoundRobot, p: Plan, o: Order, s: Surroundings)
    requires p.Valid() && Unadopted(r, p) && Unclaimed(r, p) && DistinctIds(Work(p)) && AtRest(r)
    requires o == Message(p, 0) && Decide(r, o, s).Accept?
    ensures OnlyOrderBusy(OnOrder(r, o, s))
  {
    var r' := OnOrder(r, o, s);
    OrderKeeps(r, o, s);
    FreshOrderLists(r, p, o, s);
    EngineOfFresh(r, o, s);
    FreshTable(r, o);
    SentNode(p.mission, p.v2, Released(p, 0), 0, 0);
    var e := ResetForOrder(r.engine, r.runs.Values).(table := FreshLedger(r, o).table);
    NothingBusyAfterReset(r.engine, r.runs.Values, FreshLedger(r, o).table);
    assert BusyAmong(e, r'.actionStates);
    EnqueueBusy(r', e, p, 0);
  }

  lemma FreshTable(r: SoundRobot, o: Order)
    requires |o.nodes| >= 1
    ensures ResetForOrder(r.engine, r.runs.Values).table <= FreshLedger(r, o).table
    ensures forall k | |r.engine.table| <= k < |FreshLedger(r, o).table| :: Scheduled(FreshLedger(r, o).table[k])
  {
    ResetLedgerOk(r);
    var items := NodeItems(o.nodes) + EdgeItems(o.edges);
    NodeItemsOrigin(o.nodes);
    EdgeItemsOrigin(o.edges);
    RegisterAllOk(Ledger(ResetForOrder(r.engine, r.runs.Values).table, InstantRuns(r), []), items);
  }

  // ---------------------------------------------------------------- updates

  lemma BusyByDrop(e: EngineState, kept: set<string>, table: seq<Run>, k: nat)
    requires Valid(e) && e.table <= table && forall x | |e.table| <= x < |table| :: Scheduled(table[x])
    requires k < |table| && Busy(DropHorizon(e, kept).(table := table), k)
    ensures k < |e.table| && Busy(e, k)
  {
    assert LastRunner(DropHorizon(e, kept).(table := table)) == LastRunner(e);
    HeldInTable(e);
  }

  lemma UpdateBusy(r: SoundRobot, p: Plan, j: nat, i: nat, k: nat)
    requires p.Valid() && Route(r.nodes, r.edges, p, Released(p, j)) && Follows(p, j, i)
    requires k < |UpdatedEngine(r, p, i).table| && Busy(UpdatedEngine(r, p, i), k)
    ensures k < |r.engine.table| && Busy(r.engine, k)
  {
    UpdateGrows(r, p, j, i);
    BusyByDrop(r.engine, PrunedLedger(r, NodeNumber(0, Start(p, i))).runs.Keys,
               UpdateLedger(r, Message(p, i)).table, k);
  }

  lemma BusyIsNotAhead(r: SoundRobot, p: Plan, at: nat, k: nat)
    requires at < p.Total() && InHand(r, p, at) && k < |r.engine.table| && Busy(r.engine, k)
    requires r.engine.table[k].action.id in r.runs && r.runs[r.engine.table[k].action.id] == k
    ensures r.engine.table[k].action.id !in WorkIds(p.mission, at + 1, p.Total())
  {
  }

  lemma HorizonIsAhead(r: Robot, p: Plan, release: int, start: nat, at: nat, id: string)
    requires Route(r.nodes, r.edges, p, release) && at <= start < p.Total() && id in HorizonIds(r, NodeNumber(0, start))
    ensures id in WorkIds(p.mission, at + 1, p.Total())
  {
    HorizonIsWork(r, p, release, start);
    WorkIdsSplit(p.mission, at + 1, start + 1, p.Total());
  }

  /** What an update forgets is ahead of the robot, where nothing has been handed over. */
  lemma BusyIsNotForgotten(r: SoundRobot, p: Plan, release: int, start: nat, at: nat, k: nat)
    requires p.Valid() && Route(r.nodes, r.edges, p, release) && at <= start < p.Total()
    requires at < p.Total() && InHand(r, p, at) && k in r.actionStates && k < |r.engine.table| && Busy(r.engine, k)
    ensures r.engine.table[k].action.id !in HorizonIds(r, NodeNumber(0, start))
  {
    var x :| 0 <= x < |r.actionStates| && r.actionStates[x] == k;
    assert ListedRunOk(r, r.actionStates[x]);
    BusyIsNotAhead(r, p, at, k);
    var id := r.engine.table[k].action.id;
    if id in HorizonIds(r, NodeNumber(0, start)) { HorizonIsAhead(r, p, release, start, at, id); }
  }

  lemma BusyIsKept(r: SoundRobot, p: Plan, j: nat, i: nat, at: nat, k: nat)
    requires p.Valid() && Route(r.nodes, r.edges, p, Released(p, j)) && Follows(p, j, i) && !Cleared(r)
    requires at < p.Total() && InHand(r, p, at) && k in r.actionStates && k < |r.engine.table| && Busy(r.engine, k)
    ensures k in UpdateLedger(r, Message(p, i)).listed
  {
    FirstSent(p, i);
    PlaceOnRoute(r, p, Released(p, j), at);
    BusyIsNotForgotten(r, p, Released(p, j), Start(p, i), at, k);
    UpdatedActions(r, Message(p, i));
  }

  /** The robot has not passed the last released waypoint. */
  lemma PlaceOnRoute(r: SoundRobot, p: Plan, release: int, at: nat)
    requires RouteNodes(r.nodes, p, release) && 1 <= release <= p.Total() && r.lastSeq == NodeNumber(0, at)
    requires !Cleared(r)
    ensures at < release
  {
    var lo, place, base, n :| Laid(r, lo, place, base, n);
    RouteIsLaid(r, p, release, lo, place, base, n);
  }

  lemma UpdatedOrderBusy(r: SoundRobot, p: Plan, j: nat, i: nat, at: nat, o: Order, s: Surroundings)
    requires p.Valid() && Carries(r, p, j) && !Cleared(r) && Follows(p, j, i) && o == Message(p, i)
    requires Decide(r, o, s).Accept?
    requires OnlyOrderBusy(r) && at < p.Total() && InHand(r, p, at)
    ensures OnlyOrderBusy(OnOrder(r, o, s))
  {
    var r' := OnOrder(r, o, s);
    LedgerOfUpdate(r, o, s);
    FieldsOfUpdate(r, o, s);
    UpdateEngineIs(r, p, j, i);
    forall k | 0 <= k < |r'.engine.table| && Busy(r'.engine, k) ensures k in r'.actionStates {
      UpdateBusy(r, p, j, i, k);
      BusyIsKept(r, p, j, i, at, k);
    }
  }

  // ------------------------------------------------------------ other steps

  lemma BusyByRunner(e: EngineState, i: nat, k: nat)
    requires Disciplined(e) && i < |e.runners| && k < |e.table| && Busy(RunnerStep(e, i), k)
    ensures Busy(e, k)
  {
  }

  lemma BusyByHandler(e: EngineState, x: nat, f: Run -> Run, k: nat)
    requires Valid(e) && x < |e.table| && k < |e.table| && Evolves(e.table[x], f(e.table[x])) && Busy(OnRun(e, x, f), k)
    ensures Busy(e, k)
  {
    assert LastRunner(OnRun(e, x, f)) == LastRunner(e);
  }

  lemma BusyByEngine(r: SoundRobot, step: Step, k: nat)
    requires Disciplined(r.engine) && k < |r.engine.table|
    requires step.RunnerMoves? || step.HandlerReports? || step.HandlerEnds? || step.RetrySkips?
    requires k < |Next(r, step).engine.table| && Busy(Next(r, step).engine, k)
    ensures Busy(r.engine, k)
  {
    var e := r.engine;
    if step.RunnerMoves? {
      if step.runner < |e.runners| { BusyByRunner(e, step.runner, k); }
    } else if step.run < |e.table| {
      HandledEvolves(e.table[step.run], step);
      BusyByHandler(e, step.run, run => Handled(run, step), k);
    }
  }

  lemma EngineOrderBusy(r: SoundRobot, step: Step)
    requires Disciplined(r.engine) && OnlyOrderBusy(r)
    requires step.RunnerMoves? || step.HandlerReports? || step.HandlerEnds? || step.RetrySkips?
    ensures OnlyOrderBusy(Next(r, step))
  {
    EngineKeepsOrder(r, step);
    SameTableSize(r, step);
    forall k | 0 <= k < |Next(r, step).engine.table| && Busy(Next(r, step).engine, k) ensures k in r.actionStates {
      BusyByEngine(r, step, k);
    }
  }

  lemma SameTableSize(r: SoundRobot, step: Step)
    requires step.RunnerMoves? || step.HandlerReports? || step.HandlerEnds? || step.RetrySkips?
    ensures |Next(r, step).engine.table| == |r.engine.table|
  {
  }

  lemma BusyByInstant(e: EngineState, e': EngineState, listed: seq<nat>)
    requires Valid(e) && BusyAmong(e, listed) && e'.queue == e.queue && e'.runners == e.runners
    requires |e.table| <= |e'.table| && forall k | 0 <= k < |e.table| :: e'.table[k] == e.table[k]
    requires forall k | |e.table| <= k < |e'.table| :: e'.table[k].origin == Instant
    ensures BusyAmong(e', listed)
  {
    assert Held(e') == Held(e) by { assert LastRunner(e') == LastRunner(e); }
    HeldInTable(e);
    forall k | 0 <= k < |e'.table| && Busy(e', k) ensures k in listed {
      if k < |e.table| { assert Busy(e, k); }
    }
  }

  lemma InstantOrderBusy(r: SoundRobot, a: Action, supported: bool)
    requires OnlyOrderBusy(r)
    ensures OnlyOrderBusy(StartInstant(r, a, supported))
  {
    BusyByInstant(r.engine, StartInstant(r, a, supported).engine, r.actionStates);
  }

  lemma EdgeLeftBusy(r: SoundRobot, edge: int)
    requires OnlyOrderBusy(r)
    ensures BusyAmong(FinishEdgeActions(r.engine, edge), r.actionStates)
  {
    var e := FinishEdgeActions(r.engine, edge);
    assert LastRunner(e) == LastRunner(r.engine);
    forall k | 0 <= k < |e.table| && Busy(e, k) ensures k in r.actionStates { assert Busy(r.engine, k); }
  }

  lemma ArrivalOrderBusy(r: SoundRobot, p: Plan, at: nat)
    requires p.Valid() && at < p.Total() && InHand(r, p, at) && r.nodes.Keys == NodeKeys(0, p.Total())
    requires OnlyOrderBusy(r) && ListedIds(r) == Work(p) && Current(r)
    ensures OnlyOrderBusy(Arrive(r))
  {
    assert r.lastSeq + 2 in NodeKeys(0, p.Total()) && r.lastSeq + 2 == NodeNumber(0, at + 1);
    var e, r' := FinishEdgeActions(r.engine, r.driver.edge.edge.seqId), Arrive(r);
    FieldsOfArrival(r);
    ArriveKeeps(r);
    ArriveKeepsOrder(r);
    assert ListedIds(r') == ListedIds(r) by { ArriveKeepsActions(r); }
    EdgeLeftBusy(r, r.driver.edge.edge.seqId);
    EnqueueBusy(r', e, p, at + 1);
  }

  lemma DrivingOrderBusy(r: SoundRobot, p: Plan, release: int, at: nat, step: Step)
    requires p.Valid() && at < p.Total() && InHand(r, p, at) && Route(r.nodes, r.edges, p, release)
    requires OnlyOrderBusy(r) && ListedIds(r) == Work(p)
    requires step.Rested? || step.SettingOff? || step.Arrived? || step.Abandoned?
    ensures OnlyOrderBusy(Next(r, step))
  {
    match step
    case Rested =>
    case SettingOff(mayDrive) =>
      RouteEdgesCarryNothing(r, p, release);
      SetOffEngine(r, mayDrive);
    case Arrived => if Current(r) { ArrivalOrderBusy(r, p, at); }
    case Abandoned =>
  }

  /** Through every step of an attempt the engine works on the mission's actions only. */
  lemma OrderBusyGoesOn(r: SoundRobot, p: Plan, k: nat, step: Step)
    requires p.Valid() && Underway(r, p, k) && ListedIds(r) == Work(p) && DistinctIds(Work(p))
    requires InHandSomewhere(r, p) && OnlyOrderBusy(r)
    requires OnChannel(r, p, step) && !step.CancelAsked? && !step.ManualAsked?
    ensures OnlyOrderBusy(Next(r, step))
  {
    var at: nat :| at < p.Total() && InHand(r, p, at);
    if Accepts(r, step) {
      var i := AcceptedIsTakenUp(r, p, k, step.order, step.around);
      UpdatedOrderBusy(r, p, k - 1, i, at, step.order, step.around);
    } else if step.Delivered? {
      assert Next(r, step) == r;
    } else if step.Rested? || step.SettingOff? || step.Arrived? || step.Abandoned? {
      DrivingOrderBusy(r, p, Released(p, k - 1), at, step);
    } else if step.InstantAsked? {
      InstantOrderBusy(r, step.action, step.supported);
    } else {
      EngineOrderBusy(r, step);
    }
  }

  // ------------------------------------------------------------- the attempt

  /** The robot holds the messages of the attempt before `k`, nothing has cleared its order, the actions
      beyond the robot are untouched, and the engine works on those of the order only. */
  ghost predicate Job(r: SoundRobot, p: Plan, k: nat)
    requires p.Valid()
  {
    OnTrack(r, p, k) && Lists(r, p, k) && Working(r, p, k) && (k > 0 ==> OnlyOrderBusy(r))
  }

  lemma JobGoesOn(r: SoundRobot, p: Plan, k: nat, step: Step) returns (k': nat)
    requires p.Valid() && Job(r, p, k) && DistinctIds(Work(p))
    requires OnChannel(r, p, step) && OwnIds(p, step) && !step.CancelAsked? && !step.ManualAsked?
    ensures RobotOk(Next(r, step)) && Takes(r, p, k, step, k') && Job(Next(r, step), p, k')
  {
    k' := StaysOnTrack(r, p, k, step);
    StepLists(r, p, k, step, k');
    if k > 0 {
      InHandGoesOn(r, p, k, step);
      OrderBusyGoesOn(r, p, k, step);
    } else if Accepts(r, step) {
      StartsInHand(r, p, step);
      StartsOrderBusy(r, p, step.order, step.around);
    } else if !step.Delivered? {
      StaysAtRest(r, step);
    }
  }
}
