/** When the robot sets off, and beside which actions: the driving side of the blocking types. */
module SettingOff {
  import opened Vda5050
  import opened OrderAcceptance
  import opened Actions
  import opened RobotModel
  import opened RobotInvariants
  import opened OrderChain
  import opened OrderActions
  import opened OrderHandover

  /** A SOFT or HARD action that is scheduled, or active and neither finished nor failed. */
  ghost predicate HoldsBack(e: EngineState, k: nat) {
    && k < |e.table| && e.table[k].action.blocking in {Soft, Hard}
    && (k in e.queue || (k in e.active && e.table[k].status !in {Finished, Failed}))
  }

  ghost predicate NothingHoldsBack(e: EngineState) { forall k :: !HoldsBack(e, k) }

  /** A released edge leads on from where the robot is. */
  predicate MayGoOn(r: Robot) { r.lastSeq + 1 in r.edges && r.edges[r.lastSeq + 1].edge.released }

  lemma BlockedExactly(e: EngineState)
    requires Valid(e)
    ensures BlocksDriving(e) <==> !NothingHoldsBack(e)
  {
    if BlocksDriving(e) {
      if i :| 0 <= i < |e.queue| && e.table[e.queue[i]].StopsDriving() {
        assert HoldsBack(e, e.queue[i]);
      } else {
        var i :| 0 <= i < |e.active| && e.table[e.active[i]].StopsDriving() && !e.table[e.active[i]].Settled();
        assert HoldsBack(e, e.active[i]);
      }
    }
    if k: nat :| HoldsBack(e, k) {
      if k in e.queue {
        var i :| 0 <= i < |e.queue| && e.queue[i] == k;
        assert e.table[e.queue[i]].StopsDriving();
      } else {
        var i :| 0 <= i < |e.active| && e.active[i] == k;
        assert e.table[e.active[i]].StopsDriving() && !e.table[e.active[i]].Settled();
      }
    }
  }

  /** The next edge carries the number it is stored under, and its target is stored. */
  lemma LeadsOn(r: SoundRobot)
    requires MayGoOn(r)
    ensures r.edges[r.lastSeq + 1].edge.seqId == r.lastSeq + 1 && r.lastSeq + 2 in r.nodes
  {
    var lo, at, base, n :| Laid(r, lo, at, base, n);
    assert r.lastSeq + 1 in EdgeKeys(lo, n - 1);
    StoredNumbers(r.nodes, r.edges, lo, base, n);
    assert EdgeNumber(lo, at) == r.lastSeq + 1 && NodeNumber(lo, at + 1) == r.lastSeq + 2;
  }

  lemma DeliveryKeepsDriver(r: SoundRobot, o: Order, s: Surroundings)
    ensures OnOrder(r, o, s).driver == r.driver
  {
    if Decide(r, o, s).Accept? {
      if r.hasOrder && r.orderId == o.orderId { FieldsOfUpdate(r, o, s); } else { EngineOfFresh(r, o, s); }
    }
  }

  lemma OnlySettingOff(r: SoundRobot, step: Step)
    requires r.driver.Stopped? && !step.SettingOff?
    ensures Next(r, step).driver == Stopped
  {
    if step.Delivered? { DeliveryKeepsDriver(r, step.order, step.around); }
  }

  /** A robot that stands sets off in a step if and only if nothing outside the order keeps it, a released
      edge leads on, and no SOFT or HARD action is scheduled or at work. It takes that edge, to the node at
      its end. */
  lemma SetsOffExactly(r: SoundRobot, step: Step)
    requires r.driver.Stopped?
    ensures Next(r, step).driver.Driving? <==> step == SettingOff(true) && MayGoOn(r) && NothingHoldsBack(r.engine)
    ensures Next(r, step).driver.Driving? ==>
              && r.lastSeq + 2 in r.nodes
              && Next(r, step).driver == Driving(r.edges[r.lastSeq + 1], r.nodes[r.lastSeq + 2])
  {
    if step.SettingOff? {
      BlockedExactly(r.engine);
      if MayGoOn(r) { LeadsOn(r); }
    } else {
      OnlySettingOff(r, step);
    }
  }

  // ------------------------------------------------- which actions are active

  /** Runner `i` starts run `k` in its next move: the queue's next run if it may run beside others, or the
      one popped before once nothing is left to wait for. */
  ghost predicate StartsRun(e: EngineState, i: nat, k: nat) {
    && i < |e.runners| && k < |e.table|
    && (e.runners[i] == Checking(k, [])
        || (e.runners[i] == AtTop && e.queue != [] && e.queue[0] == k
            && e.table[k].action.blocking in {NonBlocking, Soft}))
  }

  /** The step creates the task of run `k`, that of a queued run or of an instant action. */
  ghost predicate Begins(r: Robot, step: Step, k: nat) {
    match step
    case RunnerMoves(i) => StartsRun(r.engine, i, k)
    case InstantAsked(a, supported) => supported && a.id !in r.runs && k == |r.engine.table|
    case _ => false
  }

  /** A fresh order replaces what there was. */
  ghost predicate Replaces(r: SoundRobot, step: Step) {
    Accepts(r, step) && (!r.hasOrder || r.orderId != step.order.orderId)
  }

  /** What a step does to the active list, and to the tasks that have been created. */
  ghost predicate ActiveIs(r: SoundRobot, step: Step, e': EngineState, k: nat) {
    && (k in e'.active <==>
          || Begins(r, step, k)
          || (k < |r.engine.table| && k in r.engine.active
              && (Replaces(r, step) ==> r.engine.table[k].origin == Instant)))
    && (k < |e'.table| && e'.table[k].task != NoTask ==>
          Begins(r, step, k) || (k < |r.engine.table| && r.engine.table[k].task != NoTask))
  }

  lemma {:induction false} InstantsAre(table: seq<Run>, active: seq<nat>, k: nat)
    requires forall i | 0 <= i < |active| :: active[i] < |table|
    ensures k in Instants(table, active) <==> k in active && table[k].origin == Instant
  {
    if active != [] { InstantsAre(table, active[1..], k); }
  }

  /** A fresh order cancels the tasks of the registered runs and lists its own actions, none started. */
  lemma FreshTable(r: SoundRobot, step: Step, e': EngineState)
    requires Replaces(r, step) && e' == Next(r, step).engine
    ensures e'.active == Instants(r.engine.table, r.engine.active) && |r.engine.table| <= |e'.table|
    ensures forall k | 0 <= k < |r.engine.table| ::
              e'.table[k] == if k in r.runs.Values then CancelTask(r.engine.table[k]) else r.engine.table[k]
    ensures forall k | |r.engine.table| <= k < |e'.table| :: Scheduled(e'.table[k])
  {
    var o, reset := step.order, ResetForOrder(r.engine, r.runs.Values);
    EngineOfFresh(r, o, step.around);
    ResetLedgerOk(r);
    SentOrigins(o, NodeItems(o.nodes) + EdgeItems(o.edges));
    RegisterAllOk(Ledger(reset.table, InstantRuns(r), []), NodeItems(o.nodes) + EdgeItems(o.edges));
    assert e'.table == FreshLedger(r, o).table && reset.table <= e'.table;
    assert forall k | 0 <= k < |reset.table| :: e'.table[k] == reset.table[k];
  }

  /** An update changes no run that exists and lists new ones, none started. */
  lemma UpdateTable(r: SoundRobot, step: Step, e': EngineState)
    requires Accepts(r, step) && !Replaces(r, step) && e' == Next(r, step).engine
    ensures e'.active == r.engine.active && r.engine.table <= e'.table
    ensures forall k | |r.engine.table| <= k < |e'.table| :: Scheduled(e'.table[k])
  {
    var o := step.order;
    FieldsOfUpdate(r, o, step.around);
    UpdateTables(r, o);
  }

  lemma UpdateTables(r: SoundRobot, o: Order)
    requires |o.nodes| >= 1
    ensures r.engine.table <= UpdateLedger(r, o).table
    ensures forall k | |r.engine.table| <= k < |UpdateLedger(r, o).table| :: Scheduled(UpdateLedger(r, o).table[k])
  {
    var pruned, stitched := PrunedLedger(r, o.nodes[0].seqId), StitchLedger(r, o);
    PrunedLedgerOk(r, o.nodes[0].seqId);
    RegisterAllOk(pruned, Items(StitchActions(r, o), OnNode, o.nodes[0].seqId));
    NodeItemsOrigin(o.nodes[1..]);
    EdgeItemsOrigin(o.edges);
    RegisterAllOk(stitched, NodeItems(o.nodes[1..]) + EdgeItems(o.edges));
    NewInTwoSteps(r.engine.table, stitched.table, UpdateLedger(r, o).table);
  }

  lemma NewInTwoSteps(a: seq<Run>, b: seq<Run>, c: seq<Run>)
    requires a <= b <= c
    requires forall k | |a| <= k < |b| :: Scheduled(b[k])
    requires forall k | |b| <= k < |c| :: Scheduled(c[k])
    ensures a <= c && forall k | |a| <= k < |c| :: Scheduled(c[k])
  {
    forall k | |a| <= k < |c| ensures Scheduled(c[k]) {
      if k < |b| { assert c[k] == b[k]; }
    }
  }

  lemma FreshActive(r: SoundRobot, step: Step, e': EngineState, k: nat)
    requires Replaces(r, step) && e' == Next(r, step).engine
    ensures ActiveIs(r, step, e', k)
  {
    FreshTable(r, step, e');
    InstantsAre(r.engine.table, r.engine.active, k);
  }

  lemma UpdateActive(r: SoundRobot, step: Step, e': EngineState, k: nat)
    requires Accepts(r, step) && !Replaces(r, step) && e' == Next(r, step).engine
    ensures ActiveIs(r, step, e', k)
  {
    UpdateTable(r, step, e');
  }

  /** What a move of a queue runner makes of table and active list. */
  lemma RunnerStarts(e: EngineState, i: nat, e': EngineState)
    requires Valid(e) && i < |e.runners| && e' == RunnerStep(e, i)
    ensures e' == e.(queue := e'.queue, runners := e'.runners)
         || exists k: nat :: k < |e.table| && StartsRun(e, i, k)
                             && e'.active == e.active + [k] && e'.table == e.table[k := e.table[k].(task := Created)]
    ensures forall k: nat :: StartsRun(e, i, k) ==> k < |e.table| && k in e'.active
  {
    if e.runners[i].AtTop? && e.queue != [] {
      assert e.table[e.queue[0]].Exclusive() <==> e.table[e.queue[0]].action.blocking !in {NonBlocking, Soft};
    }
  }

  lemma RunnerActive(r: SoundRobot, step: Step, k: nat)
    requires step.RunnerMoves?
    ensures ActiveIs(r, step, Next(r, step).engine, k)
  {
    var e, i := r.engine, step.runner;
    if i < |e.runners| { RunnerStarts(e, i, RunnerStep(e, i)); }
  }

  lemma KnownInstantActive(r: SoundRobot, step: Step, k: nat)
    requires step.InstantAsked? && step.action.id in r.runs
    ensures ActiveIs(r, step, Next(r, step).engine, k)
  {
    assert Next(r, step) == r;
  }

  lemma NewInstant(r: SoundRobot, a: Action, supported: bool, e': EngineState)
    requires a.id !in r.runs && e' == StartInstant(r, a, supported).engine
    ensures |e'.table| == |r.engine.table| + 1 && e'.table[..|r.engine.table|] == r.engine.table
    ensures e'.active == (if supported then r.engine.active + [|r.engine.table|] else r.engine.active)
    ensures !supported ==> e'.table[|r.engine.table|].task == NoTask
  {
  }

  lemma InstantActive(r: SoundRobot, step: Step, k: nat)
    requires step.InstantAsked?
    ensures ActiveIs(r, step, Next(r, step).engine, k)
  {
    if step.action.id in r.runs {
      KnownInstantActive(r, step, k);
    } else {
      var e' := Next(r, step).engine;
      NewInstant(r, step.action, step.supported, e');
      if k < |r.engine.table| { assert e'.table[k] == e'.table[..|r.engine.table|][k]; }
    }
  }

  lemma HandlerActive(r: SoundRobot, step: Step, k: nat)
    requires step.HandlerReports? || step.HandlerEnds? || step.RetrySkips?
    ensures ActiveIs(r, step, Next(r, step).engine, k)
  {
    if k < |r.engine.table| { HandledOnly(r, step, k); } else if |r.engine.table| > 0 { HandledOnly(r, step, 0); }
  }

  lemma ClearingActive(r: SoundRobot, step: Step, k: nat)
    requires step.CancelAsked? || step.ManualAsked?
    ensures ActiveIs(r, step, Next(r, step).engine, k)
  {
    if step.ManualAsked? { ManualActive(r, k); } else { CancelActive(r, step.requested, k); }
  }

  lemma CancelActive(r: SoundRobot, requested: Option<string>, k: nat)
    ensures var e' := Cancel(r, requested).engine;
            && e'.active == r.engine.active && |e'.table| == |r.engine.table|
            && (k < |r.engine.table| ==> (e'.table[k].task != NoTask <==> r.engine.table[k].task != NoTask))
  {
  }

  lemma ManualActive(r: SoundRobot, k: nat)
    ensures var e' := SwitchToManual(r).engine;
            && e'.active == r.engine.active && |e'.table| == |r.engine.table|
            && (k < |r.engine.table| ==> (e'.table[k].task != NoTask <==> r.engine.table[k].task != NoTask))
  {
  }

  lemma DrivingActive(r: SoundRobot, step: Step, k: nat)
    requires step.SettingOff? || step.Arrived? || step.Rested? || step.Abandoned?
    ensures ActiveIs(r, step, Next(r, step).engine, k)
  {
  }

  /** The active list after any step: what the step starts, and what was active before, of which a fresh
      order keeps the instant actions only. */
  lemma ActiveExactly(r: SoundRobot, step: Step, k: nat)
    ensures ActiveIs(r, step, Next(r, step).engine, k)
  {
    if Replaces(r, step) { FreshActive(r, step, Next(r, step).engine, k); }
    else if Accepts(r, step) { UpdateActive(r, step, Next(r, step).engine, k); }
    else if step.RunnerMoves? { RunnerActive(r, step, k); }
    else if step.InstantAsked? { InstantActive(r, step, k); }
    else if step.HandlerReports? || step.HandlerEnds? || step.RetrySkips? { HandlerActive(r, step, k); }
    else if step.CancelAsked? || step.ManualAsked? { ClearingActive(r, step, k); }
    else if !step.Delivered? { DrivingActive(r, step, k); }
  }

  // ------------------------------------------------------------- every run

  /** Run `k` has been started since the last fresh order; instant actions outlast those. */
  ghost predicate StartedLately(steps: seq<Step>, k: nat) {
    if steps == [] then false
    else
      var before, last := After(Idle, steps[..|steps| - 1]), steps[|steps| - 1];
      || Begins(before, last, k)
      || (StartedLately(steps[..|steps| - 1], k)
          && (Replaces(before, last) ==> k < |before.engine.table| && before.engine.table[k].origin == Instant))
  }

  /** Over every run from power-on the active list holds what has been started since the last fresh
      order, and the instant actions started ever. */
  lemma {:induction false} ActiveIsStartedLately(steps: seq<Step>, k: nat)
    ensures k in After(Idle, steps).engine.active <==> StartedLately(steps, k)
    decreases |steps|
  {
    if steps != [] {
      var init, last := steps[..|steps| - 1], steps[|steps| - 1];
      ActiveIsStartedLately(init, k);
      ActiveExactly(After(Idle, init), last, k);
    }
  }

  /** Nothing that blocks driving is scheduled, and whatever was started since the last fresh order and
      does is finished or failed. */
  ghost predicate ClearToGo(r: SoundRobot, steps: seq<Step>) {
    && (forall i | 0 <= i < |r.engine.queue| :: r.engine.table[r.engine.queue[i]].action.blocking !in {Soft, Hard})
    && (forall k: nat | StartedLately(steps, k) && k < |r.engine.table| ::
          r.engine.table[k].action.blocking in {Soft, Hard} ==> r.engine.table[k].status in {Finished, Failed})
  }

  /** The same, told from the whole run: a robot that stands sets off if and only if a released edge leads
      on and nothing stands against it. */
  lemma SetsOffOnRun(r: SoundRobot, steps: seq<Step>)
    requires r == After(Idle, steps) && r.driver.Stopped?
    ensures Next(r, SettingOff(true)).driver.Driving? <==> MayGoOn(r) && ClearToGo(r, steps)
  {
    SetsOffExactly(r, SettingOff(true));
    forall k: nat ensures k in r.engine.active <==> StartedLately(steps, k) { ActiveIsStartedLately(steps, k); }
    if ClearToGo(r, steps) {
      forall k: nat ensures !HoldsBack(r.engine, k) {}
    }
    if NothingHoldsBack(r.engine) {
      forall i | 0 <= i < |r.engine.queue|
        ensures r.engine.table[r.engine.queue[i]].action.blocking !in {Soft, Hard}
      {
        assert !HoldsBack(r.engine, r.engine.queue[i]);
      }
      forall k: nat | StartedLately(steps, k) && k < |r.engine.table|
        ensures r.engine.table[k].action.blocking in {Soft, Hard} ==> r.engine.table[k].status in {Finished, Failed}
      {
        assert !HoldsBack(r.engine, k);
      }
    }
  }

  ghost predicate InstantsActive(r: SoundRobot) {
    forall k | 0 <= k < |r.engine.table| && r.engine.table[k].origin == Instant && r.engine.table[k].task != NoTask ::
      k in r.engine.active
  }

  lemma OriginsStay(r: SoundRobot, step: Step, r': SoundRobot, k: nat)
    requires r' == Next(r, step) && k < |r.engine.table|
    ensures k < |r'.engine.table| && r'.engine.table[k].origin == r.engine.table[k].origin
  {
    if Replaces(r, step) { FreshTable(r, step, r'.engine); }
    else if Accepts(r, step) { UpdateTable(r, step, r'.engine); }
    else if !step.Delivered? { StepKeepsActions(r, step); }
  }

  lemma InstantsStayActive(r: SoundRobot, step: Step, r': SoundRobot)
    requires InstantsActive(r) && r' == Next(r, step)
    ensures InstantsActive(r')
  {
    forall k | 0 <= k < |r'.engine.table| && r'.engine.table[k].origin == Instant && r'.engine.table[k].task != NoTask
      ensures k in r'.engine.active
    {
      ActiveExactly(r, step, k);
      if k < |r.engine.table| { OriginsStay(r, step, r', k); }
    }
  }

  lemma {:induction false} InstantsAreActive(steps: seq<Step>)
    ensures InstantsActive(After(Idle, steps))
    decreases |steps|
  {
    if steps != [] {
      InstantsAreActive(steps[..|steps| - 1]);
      InstantsStayActive(After(Idle, steps[..|steps| - 1]), steps[|steps| - 1], After(Idle, steps));
    }
  }

  /** Over every run from power-on: the robot never sets off beside a SOFT or HARD action that has been
      started and is neither finished nor failed, if the state message lists that action or it is an
      instant action. */
  lemma NeverBesideOwn(r: SoundRobot, steps: seq<Step>, step: Step, k: nat)
    requires r == After(Idle, steps) && r.driver.Stopped? && Next(r, step).driver.Driving?
    requires k < |r.engine.table| && (k in r.actionStates || r.engine.table[k].origin == Instant)
    requires r.engine.table[k].task != NoTask && r.engine.table[k].status !in {Finished, Failed}
    ensures r.engine.table[k].action.blocking in {NonBlocking, Single}
  {
    assert k in r.engine.active by {
      InstantsAreActive(steps);
      if k in r.actionStates {
        var i :| 0 <= i < |r.actionStates| && r.actionStates[i] == k;
        assert ListedRunOk(r, r.actionStates[i]);
      }
    }
    SetsOffExactly(r, step);
    assert !HoldsBack(r.engine, k);
  }
}
