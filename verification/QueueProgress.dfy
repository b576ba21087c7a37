/** The action queue does not get stuck: it is always served, and its runner stops only to wait for an
    action that has not finished. */
module QueueProgress {
  import opened Vda5050
  import opened Actions
  import opened RobotModel
  import opened RobotInvariants
  import opened OrderChain
  import opened OrderActions
  import opened OrderHandover
  import opened SettingOff

  // ---------------------------------------------------------- the one runner

  /** The run the runner is waiting for, if any. */
  function WaitsFor(p: Runner): Option<nat> {
    match p
    case WaitingFor(_, batch) => if batch != [] then Some(batch[0]) else None
    case Awaiting(r) => Some(r)
    case _ => None
  }

  /** How much the runner has before it: first by what is left to start, then by what is left to look at
      before the run it holds may start. */
  function Ahead(e: EngineState): (nat, nat) {
    match LastRunner(e)
    case AtTop => (3 * |e.queue| + 1, 0)
    case Checking(_, batch) => (3 * |e.queue| + 3, 2 * |batch| + 1)
    case WaitingFor(_, batch) => (3 * |e.queue| + 3, 2 * |batch|)
    case Awaiting(_) => (3 * |e.queue| + 2, 0)
    case Done => (0, 0)
  }

  predicate Less(a: (nat, nat), b: (nat, nat)) { a.0 < b.0 || (a.0 == b.0 && a.1 < b.1) }

  /** The runner stands still exactly where it waits for an action that has not finished, or is done;
      every other move brings it nearer to the end. */
  lemma RunnerAdvances(e: EngineState, i: nat)
    requires Valid(e) && i + 1 == |e.runners|
    ensures RunnerStep(e, i) == e <==>
              || LastRunner(e) == Done
              || (WaitsFor(LastRunner(e)).Some? && !e.table[WaitsFor(LastRunner(e)).value].finished)
    ensures RunnerStep(e, i) != e ==> Less(Ahead(RunnerStep(e, i)), Ahead(e))
  {
    var e' := RunnerStep(e, i);
    assert LastRunner(e') == e'.runners[i];
  }

  // -------------------------------------------------------- always a runner

  /** Nothing is queued without a runner to serve it, and no runner but the last is alive. */
  ghost predicate Served(e: EngineState) {
    && (e.queue != [] ==> !LastRunner(e).Done?)
    && forall i | 0 <= i < |e.runners| - 1 :: e.runners[i].Done?
  }

  lemma EnqueueServes(e: EngineState, runs: seq<nat>)
    requires Served(e)
    ensures Served(Enqueue(e, runs))
  {
    var e' := Enqueue(e, runs);
    assert e'.runners == e.runners || e'.runners == e.runners + [AtTop];
  }

  lemma RunnerServes(e: EngineState, i: nat)
    requires Valid(e) && Served(e) && i < |e.runners|
    ensures Served(RunnerStep(e, i))
  {
    if i < |e.runners| - 1 { assert RunnerStep(e, i) == e; }
  }

  /** The queue is no longer than before, or not at all. */
  lemma ShrunkServes(e: EngineState, e': EngineState)
    requires Served(e) && e'.runners == e.runners && (e.queue == [] ==> e'.queue == [])
    ensures Served(e')
  {
  }

  lemma {:induction false} KeptFromNothing(table: seq<Run>, queue: seq<nat>, kept: set<string>)
    requires forall i | 0 <= i < |queue| :: queue[i] < |table|
    ensures queue == [] ==> KeepIds(table, queue, kept) == []
  {
  }

  lemma FreshServes(r: SoundRobot, step: Step, e': EngineState)
    requires Replaces(r, step) && Served(r.engine) && e' == Next(r, step).engine
    ensures Served(e')
  {
    var o := step.order;
    EngineOfFresh(r, o, step.around);
    var reset := ResetForOrder(r.engine, r.runs.Values).(table := FreshLedger(r, o).table);
    ShrunkServes(r.engine, reset);
    EnqueueServes(reset, PendingRuns(reset.table, FreshLedger(r, o).runs, o.nodes[0].actions));
  }

  lemma UpdateServes(r: SoundRobot, o: Order)
    requires |o.nodes| >= 1 && Served(r.engine)
    ensures Served(UpdateEngine(r, o))
  {
    var stitch := o.nodes[0].seqId;
    var pruned := DropHorizon(r.engine, PrunedLedger(r, stitch).runs.Keys);
    var added := if r.lastSeq >= stitch then Range(|r.engine.table|, |StitchLedger(r, o).table|) else [];
    ShrunkServes(r.engine, pruned);
    EnqueueServes(pruned, added);
    SameLists(Enqueue(pruned, added), UpdateEngine(r, o));
  }

  lemma SameLists(e: EngineState, e': EngineState)
    requires Served(e) && e'.queue == e.queue && e'.runners == e.runners
    ensures Served(e')
  {
  }

  lemma DeliveryServes(r: SoundRobot, step: Step, e': EngineState)
    requires Served(r.engine) && step.Delivered? && e' == Next(r, step).engine
    ensures Served(e')
  {
    if Replaces(r, step) {
      FreshServes(r, step, e');
    } else if Accepts(r, step) {
      FieldsOfUpdate(r, step.order, step.around);
      UpdateServes(r, step.order);
    }
  }

  lemma DrivingServes(r: SoundRobot, step: Step)
    requires Served(r.engine) && (step.SettingOff? || step.Arrived? || step.Rested? || step.Abandoned?)
    ensures Served(Next(r, step).engine)
  {
    if step.SettingOff? && SetOff(r, step.mayDrive) != r {
      EnqueueServes(r.engine, PendingRuns(r.engine.table, r.runs, NextEdge(r).value.edge.actions));
    } else if step.Arrived? && Current(r) {
      var left := FinishEdgeActions(r.engine, r.driver.edge.edge.seqId);
      assert Served(left);
      EnqueueServes(left, PendingRuns(left.table, r.runs, r.driver.target.actions));
    }
  }

  lemma ClearingEmpties(r: SoundRobot, step: Step, e': EngineState)
    requires e' == Next(r, step).engine && (step.CancelAsked? || step.ManualAsked?)
    ensures e'.runners == r.engine.runners && (e'.queue == r.engine.queue || e'.queue == [])
  {
  }

  lemma OthersKeepLists(r: SoundRobot, step: Step, e': EngineState)
    requires e' == Next(r, step).engine
    requires step.InstantAsked? || step.HandlerReports? || step.HandlerEnds? || step.RetrySkips?
    ensures e'.runners == r.engine.runners && e'.queue == r.engine.queue
  {
    if !step.InstantAsked? && |r.engine.table| > 0 { HandledOnly(r, step, 0); }
  }

  lemma OtherServes(r: SoundRobot, step: Step)
    requires Served(r.engine) && !step.Delivered?
    requires !step.SettingOff? && !step.Arrived? && !step.Rested? && !step.Abandoned?
    ensures Served(Next(r, step).engine)
  {
    if step.RunnerMoves? {
      if step.runner < |r.engine.runners| { RunnerServes(r.engine, step.runner); }
    } else {
      var e' := Next(r, step).engine;
      if step.CancelAsked? || step.ManualAsked? { ClearingEmpties(r, step, e'); } else { OthersKeepLists(r, step, e'); }
      ShrunkServes(r.engine, Next(r, step).engine);
    }
  }

  /** Over every run from power-on: whatever is queued has a runner, and there is only one. */
  lemma {:induction false} AlwaysServed(steps: seq<Step>)
    ensures Served(After(Idle, steps).engine)
    decreases |steps|
  {
    if steps != [] {
      var before, last := After(Idle, steps[..|steps| - 1]), steps[|steps| - 1];
      AlwaysServed(steps[..|steps| - 1]);
      if last.Delivered? { DeliveryServes(before, last, Next(before, last).engine); }
      else if last.SettingOff? || last.Arrived? || last.Rested? || last.Abandoned? { DrivingServes(before, last); }
      else { OtherServes(before, last); }
    }
  }
}
