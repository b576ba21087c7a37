/** Whatever updates follow: a waiting action is handed to the engine exactly when the robot comes to
    an element whose captured object names it. */
module ServedActions {
  import opened Vda5050
  import opened OrderAcceptance
  import opened Actions
  import opened RobotModel
  import opened RobotInvariants
  import opened RobotTheorems
  import opened OrderChain
  import opened OrderActions
  import opened OrderHandover
  import opened AddedActions

  /** The robot arrives at a node, or sets off along an edge, that names the action. */
  ghost predicate Serves(r: SoundRobot, step: Step, id: string) {
    match step
    case Arrived => Current(r) && Mentions(r.driver.target.actions, id)
    case SettingOff(mayDrive) => SetOff(r, mayDrive) != r && Mentions(NextEdge(r).value.edge.actions, id)
    case _ => false
  }

  ghost predicate Served(r: SoundRobot, steps: seq<Step>, id: string) {
    if steps == [] then false
    else
      var init, last := steps[..|steps| - 1], steps[|steps| - 1];
      Served(r, init, id) || Serves(After(r, init), last, id)
  }

  /** The robot takes up a message that replaces an element naming the action, and forgets its run. */
  ghost predicate Forgets(r: SoundRobot, step: Step, id: string) {
    Accepts(r, step) && |step.order.nodes| >= 1 && id in HorizonIds(r, step.order.nodes[0].seqId)
  }

  /** No cancel, no mode switch, and nothing that makes the robot forget the run. */
  ghost predicate Keeps(r: SoundRobot, step: Step, id: string) {
    !step.CancelAsked? && !step.ManualAsked? && !Forgets(r, step, id)
  }

  ghost predicate KeptThroughout(r: SoundRobot, steps: seq<Step>, id: string) {
    if steps == [] then true
    else
      var init, last := steps[..|steps| - 1], steps[|steps| - 1];
      KeptThroughout(r, init, id) && Keeps(After(r, init), last, id)
  }

  ghost predicate Started(e: EngineState, k: nat) { k < |e.table| && e.table[k].task != NoTask }

  /** Registered and waiting, whether handed over or not. */
  ghost predicate Waits(r: Robot, k: nat, id: string) {
    && k < |r.engine.table| && r.engine.table[k].task == NoTask && r.engine.table[k].status == Waiting
    && k !in r.engine.active && id in r.runs && r.runs[id] == k && k in r.actionStates
  }

  ghost predicate Followed(r: Robot, k: nat, id: string) { Started(r.engine, k) || Waits(r, k, id) }

  // ---------------------------------------------------------------- started

  lemma StartedByOrder(r: SoundRobot, o: Order, s: Surroundings, k: nat)
    requires Started(r.engine, k)
    ensures Started(OnOrder(r, o, s).engine, k)
  {
    if Decide(r, o, s).Accept? {
      assert |o.nodes| >= 1 by { AcceptedIsChain(r, o, s); }
      LaidOutRefs(r, o);
      if Decide(r, o, s).isUpdate { UpdatedRefs(r, o); } else { StartedByFresh(r, o, k); }
    }
  }

  lemma StartedByFresh(r: Robot, o: Order, k: nat)
    requires RefsOk(r) && |o.nodes| >= 1 && Started(r.engine, k)
    ensures k < |FreshLedger(r, o).table| && FreshLedger(r, o).table[k].task != NoTask
  {
    var reset := ResetForOrder(r.engine, r.runs.Values);
    RegisterAllValid(Ledger(reset.table, InstantRuns(r), []), NodeItems(o.nodes) + EdgeItems(o.edges));
    assert FreshLedger(r, o).table[k] == reset.table[k];
  }

  lemma StartedByRunner(e: EngineState, i: nat, k: nat)
    requires Valid(e) && i < |e.runners| && Started(e, k)
    ensures Started(RunnerStep(e, i), k)
  {
  }

  lemma StartedByDriving(r: SoundRobot, step: Step, k: nat)
    requires Started(r.engine, k) && (step.Rested? || step.SettingOff? || step.Arrived? || step.Abandoned?)
    ensures Started(Next(r, step).engine, k)
  {
  }

  lemma StartedByInstant(r: SoundRobot, a: Action, supported: bool, k: nat)
    requires Started(r.engine, k)
    ensures Started(StartInstant(r, a, supported).engine, k)
  {
  }

  lemma StartedStays(r: SoundRobot, step: Step, k: nat)
    requires Started(r.engine, k) && !step.CancelAsked? && !step.ManualAsked?
    ensures Started(Next(r, step).engine, k)
  {
    match step
    case Delivered(o, s) => StartedByOrder(r, o, s, k);
    case InstantAsked(a, supported) => StartedByInstant(r, a, supported, k);
    case RunnerMoves(i) => if i < |r.engine.runners| { StartedByRunner(r.engine, i, k); }
    case Rested => StartedByDriving(r, step, k);
    case SettingOff(_) => StartedByDriving(r, step, k);
    case Arrived => StartedByDriving(r, step, k);
    case Abandoned => StartedByDriving(r, step, k);
    case _ => HandledOnly(r, step, k);
  }

  // ---------------------------------------------------------------- waiting

  /** Where a run waits only an update is accepted, and it keeps what it does not forget. */
  lemma WaitsThroughOrder(r: SoundRobot, o: Order, s: Surroundings, k: nat, id: string)
    requires Waits(r, k, id) && Decide(r, o, s).Accept?
    requires |o.nodes| >= 1 ==> id !in HorizonIds(r, o.nodes[0].seqId)
    ensures Waits(OnOrder(r, o, s), k, id)
    ensures HandedOver(OnOrder(r, o, s).engine, k) <==> HandedOver(r.engine, k)
  {
    AcceptedIsChain(r, o, s);
    assert Decide(r, o, s).isUpdate by {
      AcceptanceIsExact(o, SituationOf(r, s));
      var j :| 0 <= j < |r.actionStates| && r.actionStates[j] == k;
      assert !r.engine.table[r.actionStates[j]].Settled();
    }
    UpdateFields(r, o, s);
    RegisteredThroughUpdate(r, o, k, id);
    UpdateEngineHands(r, o, k, id);
    assert UpdateEngine(r, o).table[k] == r.engine.table[k];
  }

  lemma WaitsByRunner(e: EngineState, i: nat, k: nat)
    requires Valid(e) && i < |e.runners| && k < |e.table| && e.table[k].task == NoTask && k !in e.active
    ensures var e' := RunnerStep(e, i);
            Started(e', k) || (k < |e'.table| && e'.table[k] == e.table[k] && k !in e'.active)
  {
  }

  lemma WaitsByHandler(r: SoundRobot, step: Step, k: nat, id: string)
    requires Waits(r, k, id) && (step.HandlerReports? || step.HandlerEnds? || step.RetrySkips?)
    ensures Waits(Next(r, step), k, id)
  {
    HandledOnly(r, step, k);
  }

  lemma WaitsByInstant(r: SoundRobot, a: Action, supported: bool, k: nat, id: string)
    requires Waits(r, k, id)
    ensures Waits(StartInstant(r, a, supported), k, id)
  {
  }

  lemma WaitsByArrival(r: SoundRobot, k: nat, id: string)
    requires Waits(r, k, id)
    ensures Waits(Arrive(r), k, id)
  {
    if Current(r) { FieldsOfArrival(r); }
  }

  lemma FollowedByOthers(r: SoundRobot, step: Step, k: nat, id: string)
    requires Waits(r, k, id) && !step.Delivered? && !step.CancelAsked? && !step.ManualAsked?
    ensures Followed(Next(r, step), k, id)
  {
    match step
    case Rested => PauseKeepsOrder(r);
    case Abandoned => PauseKeepsOrder(r);
    case SettingOff(mayDrive) => SetOffKeepsOrder(r, mayDrive);
    case Arrived => WaitsByArrival(r, k, id);
    case InstantAsked(a, supported) => WaitsByInstant(r, a, supported, k, id);
    case RunnerMoves(i) => if i < |r.engine.runners| { WaitsByRunner(r.engine, i, k); }
    case _ => WaitsByHandler(r, step, k, id);
  }

  lemma FollowedStays(r: SoundRobot, step: Step, k: nat, id: string)
    requires Followed(r, k, id) && Keeps(r, step, id)
    ensures Followed(Next(r, step), k, id)
  {
    if Started(r.engine, k) {
      StartedStays(r, step, k);
    } else if Accepts(r, step) {
      WaitsThroughOrder(r, step.order, step.around, k, id);
    } else if !step.Delivered? {
      FollowedByOthers(r, step, k, id);
    }
  }

  // ------------------------------------------------------------ handed over

  lemma StillHandedOver(r: SoundRobot, step: Step, k: nat, id: string)
    requires Followed(r, k, id) && Keeps(r, step, id) && HandedOver(r.engine, k)
    ensures k < |Next(r, step).engine.table| && HandedOver(Next(r, step).engine, k)
  {
    if Started(r.engine, k) {
      StartedStays(r, step, k);
    } else if Accepts(r, step) {
      WaitsThroughOrder(r, step.order, step.around, k, id);
    } else if !step.Delivered? {
      HandedOverStays(r, step, k);
    }
  }

  lemma ServedBySetOff(r: SoundRobot, mayDrive: bool, k: nat, id: string)
    requires Unserved(r, k, id) && Serves(r, SettingOff(mayDrive), id)
    ensures k in SetOff(r, mayDrive).engine.queue
  {
    var actions := NextEdge(r).value.edge.actions;
    var i :| 0 <= i < |actions| && actions[i].id == id;
    PendingIncludes(r.engine.table, r.runs, actions, actions[i]);
  }

  lemma NotServedBySetOff(r: SoundRobot, mayDrive: bool, k: nat, id: string)
    requires Unserved(r, k, id) && !Serves(r, SettingOff(mayDrive), id)
    ensures Unserved(SetOff(r, mayDrive), k, id)
  {
    if SetOff(r, mayDrive) != r {
      var actions := NextEdge(r).value.edge.actions;
      NotPendingUnlessMentioned(r, r.engine.table, actions, k, id);
      EnqueueLeavesHeld(r.engine, PendingRuns(r.engine.table, r.runs, actions), k);
    }
  }

  lemma ArrivalServes(r: SoundRobot, k: nat, id: string)
    requires Unserved(r, k, id)
    ensures k < |Arrive(r).engine.table| && (HandedOver(Arrive(r).engine, k) <==> Serves(r, Arrived, id))
  {
    assert k < |Arrive(r).engine.table| by { ArriveKeepsActions(r); }
    if Serves(r, Arrived, id) { ServedByArrival(r, k, id); } else { UnservedByArrival(r, k, id); }
  }

  lemma SetOffServes(r: SoundRobot, mayDrive: bool, k: nat, id: string)
    requires Unserved(r, k, id)
    ensures k < |SetOff(r, mayDrive).engine.table|
    ensures HandedOver(SetOff(r, mayDrive).engine, k) <==> Serves(r, SettingOff(mayDrive), id)
  {
    assert k < |SetOff(r, mayDrive).engine.table| by { SetOffKeepsActions(r, mayDrive); }
    if Serves(r, SettingOff(mayDrive), id) {
      ServedBySetOff(r, mayDrive, k, id);
    } else {
      NotServedBySetOff(r, mayDrive, k, id);
    }
  }

  lemma OthersDoNotServe(r: SoundRobot, step: Step, k: nat, id: string)
    requires Unserved(r, k, id) && !step.Delivered? && !step.CancelAsked? && !step.ManualAsked?
    requires !step.SettingOff? && !step.Arrived?
    ensures k < |Next(r, step).engine.table| && !HandedOver(Next(r, step).engine, k)
  {
    if step.Rested? || step.Abandoned? { PauseKeepsOrder(r); } else { UnservedByEngine(r, step, k, id); }
  }

  /** One step hands over a run nobody has handed over exactly if it serves it. */
  lemma ServedExactly(r: SoundRobot, step: Step, k: nat, id: string)
    requires Unserved(r, k, id) && Keeps(r, step, id)
    ensures k < |Next(r, step).engine.table|
    ensures HandedOver(Next(r, step).engine, k) <==> Serves(r, step, id)
  {
    if step.Arrived? {
      ArrivalServes(r, k, id);
    } else if step.SettingOff? {
      SetOffServes(r, step.mayDrive, k, id);
    } else if Accepts(r, step) {
      WaitsThroughOrder(r, step.order, step.around, k, id);
    } else if !step.Delivered? {
      OthersDoNotServe(r, step, k, id);
    }
  }

  // -------------------------------------------------------------- every run

  ghost predicate FollowedTo(r: SoundRobot, k: nat, id: string, served: bool) {
    k < |r.engine.table| && Followed(r, k, id) && (HandedOver(r.engine, k) <==> served)
  }

  lemma FollowedOneMore(r: SoundRobot, step: Step, k: nat, id: string, served: bool, r': SoundRobot)
    requires FollowedTo(r, k, id, served) && Keeps(r, step, id) && r' == Next(r, step)
    ensures FollowedTo(r', k, id, served || Serves(r, step, id))
  {
    FollowedStays(r, step, k, id);
    if served { StillHandedOver(r, step, k, id); } else { ServedExactly(r, step, k, id); }
  }

  lemma {:induction false} FollowedThroughout(r: SoundRobot, steps: seq<Step>, k: nat, id: string, served: bool)
    requires FollowedTo(r, k, id, served) && KeptThroughout(r, steps, id)
    ensures FollowedTo(After(r, steps), k, id, served || Served(r, steps, id))
    decreases |steps|
  {
    if steps != [] {
      var init, last := steps[..|steps| - 1], steps[|steps| - 1];
      FollowedThroughout(r, init, k, id, served);
      FollowedOneMore(After(r, init), last, k, id, served || Served(r, init, id), After(r, steps));
    }
  }

  /** An action an update adds has been handed to the engine if and only if the robot had reached the
      stitch node when the update came, or has since come to an element that names it: through any
      later updates, whether they send that node again or name the action elsewhere, as long as none
      of them makes the robot forget the run. */
  lemma AddedIsHandedOverExactly(r: SoundRobot, o: Order, s: Surroundings, k: nat, r': SoundRobot, steps: seq<Step>)
    requires Decide(r, o, s).Accept? && Decide(r, o, s).isUpdate && |o.nodes| >= 1 && Added(r, o, k)
    requires r' == OnOrder(r, o, s) && KeptThroughout(r', steps, AddedId(r, o, k))
    ensures k < |After(r', steps).engine.table|
    ensures HandedOver(After(r', steps).engine, k)
       <==> r.lastSeq >= o.nodes[0].seqId || Served(r', steps, AddedId(r, o, k))
  {
    AddedIsFollowed(r, o, s, k, r');
    FollowedThroughout(r', steps, k, AddedId(r, o, k), r.lastSeq >= o.nodes[0].seqId);
  }

  lemma AddedIsFollowed(r: SoundRobot, o: Order, s: Surroundings, k: nat, r': SoundRobot)
    requires Decide(r, o, s).Accept? && Decide(r, o, s).isUpdate && |o.nodes| >= 1 && Added(r, o, k)
    requires r' == OnOrder(r, o, s)
    ensures FollowedTo(r', k, AddedId(r, o, k), r.lastSeq >= o.nodes[0].seqId)
  {
    AddedIsUnserved(r, o, s, k);
    AddedActionIsQueued(r, o, s, k);
    UpdateFields(r, o, s);
  }
}
