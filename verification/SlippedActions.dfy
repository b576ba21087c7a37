/** Cancels and mode switches during an attempt, and the settled actions that are executed all the same. */
module SlippedActions {
  import opened Vda5050
  import opened Missions
  import opened Actions
  import opened RobotModel
  import opened RobotInvariants
  import opened OrderChain
  import opened OrderActions
  import opened OrderHandover
  import opened OrderRest
  import opened SettledActions

  /** A cancel or mode switch overlooks the run: the queue runner holds it, popped and unstarted, or no
      cancel stops it and its handler has yet to begin. */
  ghost predicate Slips(r: SoundRobot, step: Step, k: nat) {
    && Clears(r, step) && k < |r.engine.table|
    && (Held(r.engine) == Some(k) || (step.CancelAsked? && Unstoppable(r.engine.table[k])))
  }

  predicate Unstoppable(run: Run) { run.origin != Instant && run.task == Created && !run.CancelAllowed() }

  /** At some point of the run a cancel or mode switch overlooked it. */
  ghost predicate Slipped(r: SoundRobot, steps: seq<Step>, k: nat) {
    if steps == [] then false
    else
      var init, last := steps[..|steps| - 1], steps[|steps| - 1];
      Slipped(r, init, k) || Slips(After(r, init), last, k)
  }

  // ---------------------------------------------------- before the first message

  /** No action of an earlier order is open. */
  ghost predicate Tidy(r: Robot)
    requires RefsOk(r)
  {
    forall id | id in r.runs :: r.engine.table[r.runs[id]].origin == Instant || r.engine.table[r.runs[id]].Settled()
  }

  lemma NothingToFail(e: EngineState, registered: set<nat>)
    requires Resting(e)
    requires forall k | k in registered && k < |e.table| :: e.table[k].origin == Instant || e.table[k].Settled()
    ensures FailWaitingRuns(e.table, registered) == e.table && StopRuns(e.table, registered) == e.table
    ensures CancelOrderActions(e) == e
  {
    forall k | 0 <= k < |e.table| ensures CancelledRun(e, k) == e.table[k] {
      if k in e.active { assert e.table[k].task != NoTask; }
    }
    assert CancelOrderActions(e).table == e.table;
  }

  lemma EngineAtRestKept(r: SoundRobot, step: Step)
    requires Resting(r.engine) && Tidy(r) && (step.CancelAsked? || step.ManualAsked?)
    ensures Next(r, step).engine == r.engine && Next(r, step).runs == r.runs
  {
    NothingToFail(r.engine, r.runs.Values);
  }

  /** A robot at rest has nothing to clear but the rest of a graph. */
  lemma ClearingAtRest(r: SoundRobot, p: Plan, step: Step)
    requires p.Valid() && Job(r, p, 0) && Tidy(r) && (step.CancelAsked? || step.ManualAsked?)
    ensures RobotOk(Next(r, step)) && Job(Next(r, step), p, 0) && Tidy(Next(r, step))
  {
    StepKeepsRobot(r, step);
    ClearingKeepsOrder(r, step);
    EngineAtRestKept(r, step);
  }

  lemma TidyByInstant(r: SoundRobot, a: Action, supported: bool, r': SoundRobot)
    requires Tidy(r) && r' == StartInstant(r, a, supported)
    ensures Tidy(r')
  {
  }

  lemma TidyGoesOn(r: SoundRobot, p: Plan, step: Step)
    requires p.Valid() && Job(r, p, 0) && Tidy(r) && !Accepts(r, step) && !step.CancelAsked? && !step.ManualAsked?
    ensures RobotOk(Next(r, step)) && Tidy(Next(r, step))
  {
    StepKeepsRobot(r, step);
    if step.InstantAsked? {
      TidyByInstant(r, step.action, step.supported, Next(r, step));
    } else if !step.Delivered? {
      OtherStepsKeepRuns(r, step);
      StepKeepsActions(r, step);
      forall id | id in r.runs && r.engine.table[r.runs[id]].Settled()
        ensures Next(r, step).engine.table[r.runs[id]].Settled()
      {
        SettledStays(r, step, r.runs[id]);
      }
    }
  }

  // -------------------------------------------------------------- the clearing

  /** Nothing is queued, and but for the runs in `s` no action of the order is begun any more. */
  ghost predicate Quenched(e: EngineState, s: set<nat>) {
    && Valid(e) && e.queue == []
    && (forall i | 0 <= i < |e.runners| - 1 :: e.runners[i].Done?)
    && (Held(e).Some? ==> Held(e).value in s)
    && forall k | 0 <= k < |e.table| && k !in s && e.table[k].task == Created ::
         e.table[k].origin == Instant && e.table[k].status == Waiting
  }

  ghost function Overlooked(r: SoundRobot, step: Step): set<nat> {
    set k | 0 <= k < |r.engine.table| && Slips(r, step, k)
  }

  /** What a cancel makes of the task of an action it is to stop. */
  lemma CancelLeavesTask(r: SoundRobot, k: nat)
    requires Disciplined(r.engine) && k < |r.engine.table| && CancelledRun(r.engine, k).task == Created
    ensures r.engine.table[k].task == Created
    ensures r.engine.table[k].origin == Instant || !r.engine.table[k].CancelAllowed()
  {
    assert RunOk(r.engine.table[k]);
    if r.engine.table[k].origin != Instant { assert k in r.engine.active; }
  }

  lemma ClearedByCancel(r: SoundRobot, requested: Option<string>)
    requires Disciplined(r.engine) && CancelMatches(r, requested)
    ensures Quenched(Cancel(r, requested).engine, Overlooked(r, CancelAsked(requested)))
  {
    var step, e' := CancelAsked(requested), Cancel(r, requested).engine;
    assert LastRunner(e') == LastRunner(r.engine);
    HeldInTable(r.engine);
    forall k | 0 <= k < |e'.table| && k !in Overlooked(r, step) && e'.table[k].task == Created
      ensures e'.table[k].origin == Instant && e'.table[k].status == Waiting
    {
      CancelLeavesTask(r, k);
      assert !Slips(r, step, k);
    }
  }

  lemma SwitchStops(r: SoundRobot, k: nat)
    requires Disciplined(r.engine) && OnlyOrderBusy(r) && k < |r.engine.table|
    requires r.engine.table[k].task == Created && r.engine.table[k].origin != Instant
    ensures SwitchToManual(r).engine.table[k].task == Ended
  {
    assert RunOk(r.engine.table[k]);
    assert Busy(r.engine, k);
    var i :| 0 <= i < |r.actionStates| && r.actionStates[i] == k;
    assert ListedRunOk(r, r.actionStates[i]);
    assert k in r.runs.Values;
  }

  lemma SwitchLeavesTask(r: SoundRobot, k: nat)
    requires Disciplined(r.engine) && OnlyOrderBusy(r) && k < |r.engine.table|
    requires SwitchToManual(r).engine.table[k].task == Created
    ensures r.engine.table[k].origin == Instant && SwitchToManual(r).engine.table[k] == r.engine.table[k]
  {
    if r.engine.table[k].task == Created && r.engine.table[k].origin != Instant { SwitchStops(r, k); }
  }

  lemma ClearedBySwitch(r: SoundRobot)
    requires Disciplined(r.engine) && OnlyOrderBusy(r)
    ensures Quenched(SwitchToManual(r).engine, Overlooked(r, ManualAsked))
  {
    var e' := SwitchToManual(r).engine;
    assert LastRunner(e') == LastRunner(r.engine);
    HeldInTable(r.engine);
    forall k | 0 <= k < |e'.table| && k !in Overlooked(r, ManualAsked) && e'.table[k].task == Created
      ensures e'.table[k].origin == Instant && e'.table[k].status == Waiting
    {
      SwitchLeavesTask(r, k);
      assert RunOk(r.engine.table[k]);
    }
  }

  /** The order is gone and nothing but the runs in `s` is left of it. */
  ghost predicate Aftermath(r: SoundRobot, p: Plan, k: nat, s: set<nat>)
    requires p.Valid()
  {
    k > 0 && TookUp(r, p, k) && Cleared(r) && Quenched(r.engine, s)
  }

  lemma ClearingUnderway(r: SoundRobot, p: Plan, k: nat, step: Step)
    requires p.Valid() && Job(r, p, k) && k > 0 && Clears(r, step)
    ensures RobotOk(Next(r, step)) && Aftermath(Next(r, step), p, k, Overlooked(r, step))
  {
    StepKeepsRobot(r, step);
    ClearingKeepsOrder(r, step);
    assert Quenched(Next(r, step).engine, Overlooked(r, step)) by {
      var at: nat :| at < p.Total() && InHand(r, p, at);
      if step.CancelAsked? { ClearedByCancel(r, step.requested); } else { ClearedBySwitch(r); }
    }
  }

  /** What is overlooked fails at once. */
  lemma OverlookedFails(r: SoundRobot, p: Plan, k: nat, step: Step, x: nat)
    requires p.Valid() && Job(r, p, k) && k > 0 && Slips(r, step, x)
    ensures x < |Next(r, step).engine.table| && Next(r, step).engine.table[x].status == Failed
  {
    var at: nat :| at < p.Total() && InHand(r, p, at);
    assert RunOk(r.engine.table[x]);
    assert Busy(r.engine, x);
    var i :| 0 <= i < |r.actionStates| && r.actionStates[i] == x;
    assert ListedRunOk(r, r.actionStates[i]);
    WaitingFails(r, step, x);
  }

  lemma WaitingFails(r: SoundRobot, step: Step, x: nat)
    requires Clears(r, step) && x < |r.engine.table| && x in r.runs.Values && r.engine.table[x].status == Waiting
    requires r.engine.table[x].origin != Instant && (step.ManualAsked? ==> r.engine.table[x].task == NoTask)
    ensures x < |Next(r, step).engine.table| && Next(r, step).engine.table[x].status == Failed
  {
  }

  // --------------------------------------------------------------- afterwards

  /** The order is not taken up again. */
  lemma NothingFitsAnyMore(r: SoundRobot, p: Plan, k: nat, s: set<nat>, step: Step)
    requires p.Valid() && Aftermath(r, p, k, s) && OnChannel(r, p, step)
    ensures !Accepts(r, step)
  {
    if Accepts(r, step) {
      var i: nat :| Sendable(p, i) && step.order == Message(p, i);
      AcceptedIsNext(r, p, k - 1, i, step.around);
    }
  }

  lemma QuenchedByRunner(e: EngineState, i: nat, s: set<nat>)
    requires Quenched(e, s) && i < |e.runners|
    ensures Valid(RunnerStep(e, i)) && Quenched(RunnerStep(e, i), s)
  {
  }

  lemma QuenchedByHandler(e: EngineState, x: nat, step: Step, s: set<nat>)
    requires Quenched(e, s) && x < |e.table| && (step.HandlerReports? || step.HandlerEnds? || step.RetrySkips?)
    ensures Quenched(OnRun(e, x, run => Handled(run, step)), s)
  {
    assert LastRunner(OnRun(e, x, run => Handled(run, step))) == LastRunner(e);
  }

  lemma QuenchedByInstant(r: SoundRobot, a: Action, supported: bool, s: set<nat>)
    requires Quenched(r.engine, s)
    ensures Quenched(StartInstant(r, a, supported).engine, s)
  {
    if a.id !in r.runs {
      var e' := StartInstant(r, a, supported).engine;
      assert LastRunner(e') == LastRunner(r.engine);
      assert forall k | 0 <= k < |r.engine.table| :: e'.table[k] == r.engine.table[k];
    }
  }

  /** A task may be stopped, and the run may fail unless it is an instant action's. */
  predicate Dwindles(run: Run, run': Run) {
    run'.origin == run.origin && (run.origin == Instant ==> run' == run)
      && (run'.task == Created ==> run.task == Created)
  }

  lemma DwindlesByCancel(e: EngineState, registered: set<nat>, k: nat)
    requires k < |e.table| && e.queue == []
    ensures Dwindles(e.table[k], FailWaitingRuns(CancelOrderActions(e).table, registered)[k])
  {
  }

  lemma DwindlesBySwitch(e: EngineState, registered: set<nat>, k: nat)
    requires k < |e.table| && e.queue == []
    ensures var stopped := e.(table := StopRuns(e.table, registered));
            Dwindles(e.table[k], FailWaitingRuns(CancelOrderActions(stopped).table, registered)[k])
  {
    var stopped := e.(table := StopRuns(e.table, registered));
    assert Dwindles(e.table[k], stopped.table[k]);
    DwindlesByCancel(stopped, registered, k);
  }

  lemma QuenchedByDwindling(e: EngineState, e': EngineState, s: set<nat>)
    requires Quenched(e, s) && e' == e.(table := e'.table) && |e'.table| == |e.table|
    requires forall k | 0 <= k < |e.table| :: Dwindles(e.table[k], e'.table[k])
    ensures Quenched(e', s)
  {
    assert LastRunner(e') == LastRunner(e);
  }

  lemma QuenchedByCancel(r: SoundRobot, requested: Option<string>, s: set<nat>)
    requires Quenched(r.engine, s)
    ensures Quenched(Cancel(r, requested).engine, s)
  {
    if CancelMatches(r, requested) {
      forall k | 0 <= k < |r.engine.table| ensures Dwindles(r.engine.table[k], Cancel(r, requested).engine.table[k]) {
        DwindlesByCancel(r.engine, r.runs.Values, k);
      }
      QuenchedByDwindling(r.engine, Cancel(r, requested).engine, s);
    }
  }

  lemma QuenchedBySwitch(r: SoundRobot, s: set<nat>)
    requires Quenched(r.engine, s)
    ensures Quenched(SwitchToManual(r).engine, s)
  {
    forall k | 0 <= k < |r.engine.table| ensures Dwindles(r.engine.table[k], SwitchToManual(r).engine.table[k]) {
      DwindlesBySwitch(r.engine, r.runs.Values, k);
    }
    QuenchedByDwindling(r.engine, SwitchToManual(r).engine, s);
  }

  lemma QuenchedByDriving(r: SoundRobot, step: Step, s: set<nat>)
    requires Cleared(r) && Quenched(r.engine, s)
    requires step.Rested? || step.SettingOff? || step.Arrived? || step.Abandoned?
    ensures Next(r, step).engine == r.engine
  {
  }

  lemma StaysQuenched(r: SoundRobot, step: Step, s: set<nat>)
    requires Cleared(r) && Quenched(r.engine, s) && !Accepts(r, step)
    ensures RobotOk(Next(r, step)) && Quenched(Next(r, step).engine, s)
  {
    StepKeepsRobot(r, step);
    match step
    case Delivered(_, _) => assert Next(r, step) == r;
    case CancelAsked(requested) => QuenchedByCancel(r, requested, s);
    case ManualAsked => QuenchedBySwitch(r, s);
    case InstantAsked(a, supported) => QuenchedByInstant(r, a, supported, s);
    case RunnerMoves(i) => if i < |r.engine.runners| { QuenchedByRunner(r.engine, i, s); }
    case HandlerReports(x, _) => if x < |r.engine.table| { QuenchedByHandler(r.engine, x, step, s); }
    case HandlerEnds(x, _) => if x < |r.engine.table| { QuenchedByHandler(r.engine, x, step, s); }
    case RetrySkips(x) => if x < |r.engine.table| { QuenchedByHandler(r.engine, x, step, s); }
    case _ => QuenchedByDriving(r, step, s);
  }

  lemma AftermathGoesOn(r: SoundRobot, p: Plan, k: nat, s: set<nat>, step: Step)
    requires p.Valid() && Aftermath(r, p, k, s) && OnChannel(r, p, step)
    ensures RobotOk(Next(r, step)) && Aftermath(Next(r, step), p, k, s)
  {
    NothingFitsAnyMore(r, p, k, s, step);
    StaysQuenched(r, step, s);
    if !step.Delivered? { OtherStepsKeepOrder(r, step); }
  }

  // ----------------------------------------------------------------- every run

  /** The attempt is under way, or a cancel or mode switch has ended it. */
  ghost predicate Phase(r: SoundRobot, p: Plan, k: nat, s: set<nat>)
    requires p.Valid()
  {
    (Job(r, p, k) && s == {} && (k == 0 ==> Tidy(r))) || Aftermath(r, p, k, s)
  }

  lemma JobStep(r: SoundRobot, p: Plan, k: nat, step: Step) returns (k': nat, s': set<nat>)
    requires p.Valid() && Job(r, p, k) && (k == 0 ==> Tidy(r)) && DistinctIds(Work(p))
    requires OnChannel(r, p, step) && OwnIds(p, step)
    ensures RobotOk(Next(r, step)) && Phase(Next(r, step), p, k', s')
    ensures forall x | x in s' :: Slips(r, step, x)
  {
    k', s' := k, {};
    if Clears(r, step) && k > 0 {
      ClearingUnderway(r, p, k, step);
      s' := Overlooked(r, step);
    } else if step.CancelAsked? || step.ManualAsked? {
      if k == 0 { ClearingAtRest(r, p, step); } else { assert Next(r, step) == r; }
    } else {
      k' := JobGoesOn(r, p, k, step);
      if k' == 0 { TidyGoesOn(r, p, step); }
    }
  }

  lemma PhaseStep(r: SoundRobot, p: Plan, k: nat, s: set<nat>, step: Step) returns (k': nat, s': set<nat>)
    requires p.Valid() && Phase(r, p, k, s) && DistinctIds(Work(p)) && OnChannel(r, p, step) && OwnIds(p, step)
    ensures RobotOk(Next(r, step)) && Phase(Next(r, step), p, k', s')
    ensures forall x | x in s' :: x in s || Slips(r, step, x)
  {
    if Aftermath(r, p, k, s) {
      AftermathGoesOn(r, p, k, s, step);
      k', s' := k, s;
    } else {
      k', s' := JobStep(r, p, k, step);
    }
  }

  /** The robot rests, with nothing open, and has neither the order nor its actions. */
  ghost predicate Starts(r: SoundRobot, p: Plan)
    requires p.Valid()
  {
    Unadopted(r, p) && Unclaimed(r, p) && AtRest(r) && Tidy(r)
  }

  lemma {:induction false} PhaseOf(r: SoundRobot, p: Plan, steps: seq<Step>) returns (k: nat, s: set<nat>)
    requires p.Valid() && Starts(r, p) && DistinctIds(Work(p)) && OnAttempt(r, p, steps)
    requires forall i | 0 <= i < |steps| :: OwnIds(p, steps[i])
    ensures Phase(After(r, steps), p, k, s) && forall x | x in s :: Slipped(r, steps, x)
    decreases |steps|
  {
    if steps == [] {
      k, s := 0, {};
      assert Job(r, p, 0);
    } else {
      var init, last := steps[..|steps| - 1], steps[|steps| - 1];
      k, s := PhaseOf(r, p, init);
      k, s := PhaseStep(After(r, init), p, k, s, last);
    }
  }

  /** In the phases of an attempt only an overlooked run can settle before its handler begins. */
  lemma UnbegunIsOverlooked(r: SoundRobot, p: Plan, k: nat, s: set<nat>, x: nat)
    requires p.Valid() && Phase(r, p, k, s) && x < |r.engine.table| && r.engine.table[x].Settled()
    ensures x !in r.engine.queue && (r.engine.table[x].task == Created ==> x in s)
  {
    if !Aftermath(r, p, k, s) {
      assert Disciplined(r.engine) by {
        if k > 0 { var at: nat :| at < p.Total() && InHand(r, p, at); }
      }
      assert RunOk(r.engine.table[x]);
    }
  }

  /** Along an attempt with cancels and mode switches: the status of a settled run changes if and only
      if a cancel or switch overlooked the run, it has been started, and its handler now reports for
      the first time. */
  lemma SettledChangesExactly(r: SoundRobot, p: Plan, steps: seq<Step>, last: Step, x: nat)
    requires p.Valid() && Starts(r, p) && DistinctIds(Work(p)) && OnAttempt(r, p, steps)
    requires forall i | 0 <= i < |steps| :: OwnIds(p, steps[i])
    requires x < |After(r, steps).engine.table| && After(r, steps).engine.table[x].Settled()
    ensures var there := After(r, steps);
            && x < |Next(there, last).engine.table|
            && (Next(there, last).engine.table[x].status != there.engine.table[x].status
                <==> && Slipped(r, steps, x) && there.engine.table[x].task == Created
                     && ReportsAnew(last, x, there.engine.table[x].status))
  {
    var k, s := PhaseOf(r, p, steps);
    UnbegunIsOverlooked(After(r, steps), p, k, s, x);
    ChangesExactly(After(r, steps), last, x);
  }

  ghost predicate SettledAs(r: SoundRobot, x: nat, status: Status) {
    x < |r.engine.table| && r.engine.table[x].status == status && r.engine.table[x].Settled()
  }

  lemma SettledOneMore(r: SoundRobot, p: Plan, steps: seq<Step>, last: Step, x: nat, status: Status, after: SoundRobot)
    requires p.Valid() && Starts(r, p) && DistinctIds(Work(p)) && OnAttempt(r, p, steps)
    requires forall i | 0 <= i < |steps| :: OwnIds(p, steps[i])
    requires SettledAs(After(r, steps), x, status) && !Slipped(r, steps, x) && after == Next(After(r, steps), last)
    ensures SettledAs(after, x, status)
  {
    SettledChangesExactly(r, p, steps, last, x);
  }

  /** So what no cancel and no mode switch overlooks stays as it settled. */
  lemma {:induction false} SettledForGood(r: SoundRobot, p: Plan, steps: seq<Step>, n: nat, x: nat, status: Status)
    requires p.Valid() && Starts(r, p) && DistinctIds(Work(p)) && OnAttempt(r, p, steps)
    requires forall i | 0 <= i < |steps| :: OwnIds(p, steps[i])
    requires n <= |steps| && SettledAs(After(r, steps[..n]), x, status) && !Slipped(r, steps, x)
    ensures SettledAs(After(r, steps), x, status)
    decreases |steps|
  {
    if n == |steps| {
      assert steps[..n] == steps;
    } else {
      var init, last := steps[..|steps| - 1], steps[|steps| - 1];
      assert init[..n] == steps[..n];
      assert forall i | 0 <= i < |init| :: OwnIds(p, init[i]) by {
        assert forall i | 0 <= i < |init| :: init[i] == steps[i];
      }
      SettledForGood(r, p, init, n, x, status);
      SettledOneMore(r, p, init, last, x, status, After(r, steps));
    }
  }
}
