/** What can still happen to an action that has settled. */
module SettledActions {
  import opened Vda5050
  import opened Actions
  import opened RobotModel
  import opened RobotInvariants

  /** The handler of run `k` reports or ends with another status than `status`. */
  predicate ReportsAnew(step: Step, k: nat, status: Status) {
    match step
    case HandlerReports(run, to) =>
      run == k && to != status && (to == Initializing || to == Running || to == Paused || to == Finished)
    case HandlerEnds(run, to) => run == k && to != status && (to == Finished || to == Failed || to == Retriable)
    case _ => false
  }

  /** A cancel or mode switch that takes effect. */
  predicate Clears(r: Robot, step: Step)
    requires RefsOk(r)
  {
    step.ManualAsked? || (step.CancelAsked? && CancelMatches(r, step.requested))
  }

  ghost predicate StatusKept(r: Robot, step: Step, k: nat)
    requires RefsOk(r) && k < |r.engine.table|
  {
    k < |Next(r, step).engine.table| && Next(r, step).engine.table[k].status == r.engine.table[k].status
  }

  lemma HandledStatus(run: Run, step: Step)
    requires run.Settled() && (step.HandlerReports? || step.HandlerEnds? || step.RetrySkips?)
    ensures Handled(run, step).status != run.status
       <==> run.task == Created && ReportsAnew(step, step.run, run.status)
  {
  }

  lemma ChangesByHandler(r: Robot, step: Step, k: nat)
    requires RefsOk(r) && k < |r.engine.table| && r.engine.table[k].Settled()
    requires step.HandlerReports? || step.HandlerEnds? || step.RetrySkips?
    ensures StatusKept(r, step, k)
       <==> !(r.engine.table[k].task == Created && ReportsAnew(step, k, r.engine.table[k].status))
  {
    HandledOnly(r, step, k);
    HandledStatus(r.engine.table[k], step);
  }

  lemma KeptByRunner(r: Robot, i: nat, k: nat)
    requires RefsOk(r) && k < |r.engine.table|
    ensures StatusKept(r, RunnerMoves(i), k)
  {
  }

  lemma KeptByInstant(r: Robot, a: Action, supported: bool, k: nat)
    requires RefsOk(r) && k < |r.engine.table|
    ensures StatusKept(r, InstantAsked(a, supported), k)
  {
  }

  lemma KeptByDriving(r: Robot, step: Step, k: nat)
    requires RefsOk(r) && k < |r.engine.table| && r.engine.table[k].Settled()
    requires step.Rested? || step.SettingOff? || step.Arrived? || step.Abandoned?
    ensures StatusKept(r, step, k)
  {
  }

  lemma KeptByFresh(r: Robot, o: Order, k: nat)
    requires RefsOk(r) && |o.nodes| >= 1 && k < |r.engine.table|
    ensures k < |FreshLedger(r, o).table| && FreshLedger(r, o).table[k].status == r.engine.table[k].status
  {
    var reset := ResetForOrder(r.engine, r.runs.Values);
    RegisterAllValid(Ledger(reset.table, InstantRuns(r), []), NodeItems(o.nodes) + EdgeItems(o.edges));
    assert FreshLedger(r, o).table[k] == reset.table[k];
  }

  /** An order message appends to the table; a fresh one cancels tasks, but changes no status. */
  lemma KeptByOrder(r: SoundRobot, o: Order, s: Surroundings, k: nat)
    requires k < |r.engine.table|
    ensures StatusKept(r, Delivered(o, s), k)
  {
    if Decide(r, o, s).Accept? {
      assert |o.nodes| >= 1 by { AcceptedIsChain(r, o, s); }
      LaidOutRefs(r, o);
      if Decide(r, o, s).isUpdate { UpdatedRefs(r, o); } else { KeptByFresh(r, o, k); }
    }
  }

  lemma ChangesByClearing(r: Robot, step: Step, k: nat)
    requires RefsOk(r) && k < |r.engine.table| && r.engine.table[k].Settled()
    requires step.CancelAsked? || step.ManualAsked?
    ensures k < |Next(r, step).engine.table|
    ensures StatusKept(r, step, k)
       <==> !(Clears(r, step) && k in r.engine.queue && r.engine.table[k].status == Finished)
  {
  }

  /** In any state whatever, the status of a settled run changes exactly if its handler had not begun
      and reports now, or if it is queued although it has finished and a cancel empties the queue. */
  lemma ChangesExactly(r: SoundRobot, step: Step, k: nat)
    requires k < |r.engine.table| && r.engine.table[k].Settled()
    ensures k < |Next(r, step).engine.table|
    ensures Next(r, step).engine.table[k].status != r.engine.table[k].status
       <==> || (r.engine.table[k].task == Created && ReportsAnew(step, k, r.engine.table[k].status))
            || (Clears(r, step) && k in r.engine.queue && r.engine.table[k].status == Finished)
  {
    match step
    case Delivered(o, s) => KeptByOrder(r, o, s, k);
    case CancelAsked(_) => ChangesByClearing(r, step, k);
    case ManualAsked => ChangesByClearing(r, step, k);
    case InstantAsked(a, supported) => KeptByInstant(r, a, supported, k);
    case RunnerMoves(i) => KeptByRunner(r, i, k);
    case Rested => KeptByDriving(r, step, k);
    case SettingOff(_) => KeptByDriving(r, step, k);
    case Arrived => KeptByDriving(r, step, k);
    case Abandoned => KeptByDriving(r, step, k);
    case _ =>
      HandledOnly(r, step, k);
      ChangesByHandler(r, step, k);
  }

  /** So while the engine is disciplined what has settled stays settled, whatever the step. */
  lemma SettledStays(r: SoundRobot, step: Step, k: nat)
    requires Disciplined(r.engine) && k < |r.engine.table| && r.engine.table[k].Settled()
    ensures k < |Next(r, step).engine.table| && Next(r, step).engine.table[k].status == r.engine.table[k].status
  {
    ChangesExactly(r, step, k);
    assert RunOk(r.engine.table[k]) && k !in r.engine.queue;
  }
}
