/** A run from power-on in which a cancel overlooks the action the queue runner holds: it is reported
    FAILED, and executed afterwards. */
module SlippingRun {
  import opened Vda5050
  import opened Missions
  import opened Actions
  import opened RobotModel
  import opened RobotInvariants
  import opened OrderChain
  import opened OrderActions
  import opened OrderHandover
  import opened OrderRest
  import opened SettledActions
  import opened SlippedActions

  /** A mission of one waypoint with one action that must run alone. */
  predicate OneStop(p: Plan, a: Action) {
    && p.Valid() && p.Total() == 1 && p.mission.waypoints[0].actions == [a] && p.orderId != ""
    && (a.blocking == Single || a.blocking == Hard)
  }

  lemma OnlyMessage(p: Plan, a: Action) returns (n: Node)
    requires OneStop(p, a)
    ensures Message(p, 0) == Order(p.orderId, 0, [n], []) && n.actions == [a] && Released(p, 0) == 1
  {
    n := NodeAt(p.mission, p.v2, 1, 0);
    assert Released(p, 0) == 1;
    assert NodesFrom(p.mission, p.v2, 1, 0) == [n] && EdgesFrom(p.mission, p.v2, 1, 0) == [];
  }

  // ------------------------------------------------------------ the first order

  lemma OneItem(n: Node, a: Action)
    requires n.actions == [a]
    ensures NodeItems([n]) + EdgeItems([]) == [Item(a, OnNode, n.seqId)]
  {
    assert [n][..0] == [] && Items([a], OnNode, n.seqId) == [Item(a, OnNode, n.seqId)];
  }

  lemma OneRegistered(item: Item)
    ensures RegisterAll(Ledger([], map[], []), [item])
         == Ledger([FreshRun(item.action, item.origin, item.element)], map[item.action.id := 0], [0])
  {
    assert [item][..0] == [];
  }

  lemma OnePending(run: Run, a: Action)
    requires run.status == Waiting
    ensures PendingRuns([run], map[a.id := 0], [a]) == [0]
  {
    assert [a][..0] == [];
  }

  /** The robot holds the order, and the engine of its one action is as given. */
  ghost predicate Holds(r: Robot, p: Plan, e: EngineState) {
    && r.hasOrder && r.orderId == p.orderId && r.engine == e && r.actionStates == [0] && r.runs.Values == {0}
  }

  lemma Ordered(r: SoundRobot, p: Plan, a: Action, s: Surroundings, o: Order, n: Node) returns (r': SoundRobot)
    requires r == Idle && OneStop(p, a) && o == Message(p, 0) == Order(p.orderId, 0, [n], []) && n.actions == [a]
    requires Decide(r, o, s).Accept?
    ensures r' == OnOrder(r, o, s) && !r'.cancelled
    ensures Holds(r', p, EngineState([FreshRun(a, OnNode, n.seqId)], [0], [], [AtTop]))
  {
    OneItem(n, a);
    OneRegistered(Item(a, OnNode, n.seqId));
    OnePending(FreshRun(a, OnNode, n.seqId), a);
    assert InstantRuns(r) == map[] && ResetForOrder(r.engine, r.runs.Values) == EngineState([], [], [], []);
    assert FreshLedger(r, o) == Ledger([FreshRun(a, OnNode, n.seqId)], map[a.id := 0], [0]);
    EngineOfFresh(r, o, s);
    LedgerOfFresh(r, o, s);
    FreshOutcome(r, o, s);
    NotCleared(r, o, s);
    OrderKeeps(r, o, s);
    r' := OnOrder(r, o, s);
  }

  lemma Admitted(p: Plan, a: Action, s: Surroundings, o: Order, n: Node)
    requires OneStop(p, a) && o == Message(p, 0) == Order(p.orderId, 0, [n], []) && Welcome(p, o, s) && !s.localized
    ensures Decide(Idle, o, s).Accept?
  {
    FirstIsAccepted(Idle, p, o, s);
  }

  // --------------------------------------------------------------- the action

  lemma Popped(r: SoundRobot, p: Plan, run: Run) returns (r': SoundRobot)
    requires Holds(r, p, EngineState([run], [0], [], [AtTop])) && run.Exclusive()
    ensures r' == Next(r, RunnerMoves(0)) && Holds(r', p, EngineState([run], [], [], [Checking(0, [])]))
    ensures r'.cancelled == r.cancelled
  {
    StepKeepsRobot(r, RunnerMoves(0));
    r' := Next(r, RunnerMoves(0));
  }

  lemma Canceled(r: SoundRobot, p: Plan, run: Run) returns (r': SoundRobot)
    requires Holds(r, p, EngineState([run], [], [], [Checking(0, [])])) && !r.cancelled
    requires run.origin != Instant && run.status == Waiting
    ensures Slips(r, CancelAsked(None), 0) && r' == Next(r, CancelAsked(None))
    ensures Holds(r', p, EngineState([run.(status := Failed, finished := true)], [], [], [Checking(0, [])]))
  {
    StepKeepsRobot(r, CancelAsked(None));
    assert !IsIdle(r) by { assert !r.engine.table[r.actionStates[0]].Settled(); }
    assert CancelledRun(r.engine, 0) == run;
    r' := Cancel(r, None);
    assert r'.engine.table == [run.(status := Failed, finished := true)];
  }

  lemma Started(r: SoundRobot, p: Plan, run: Run) returns (r': SoundRobot)
    requires Holds(r, p, EngineState([run], [], [], [Checking(0, [])]))
    ensures r' == Next(r, RunnerMoves(0))
    ensures Holds(r', p, EngineState([run.(task := Created)], [], [0], [Awaiting(0)]))
  {
    StepKeepsRobot(r, RunnerMoves(0));
    r' := Next(r, RunnerMoves(0));
  }

  // ------------------------------------------------------------------ the run

  /** `steps` is a run of the attempt from power-on to `there`. */
  ghost predicate Leads(p: Plan, steps: seq<Step>, there: SoundRobot)
    requires p.Valid()
  {
    OnAttempt(Idle, p, steps) && After(Idle, steps) == there
  }

  lemma OneMore(p: Plan, steps: seq<Step>, before: SoundRobot, last: Step, after: SoundRobot)
    requires p.Valid() && Leads(p, steps, before) && OnChannel(before, p, last) && after == Next(before, last)
    ensures Leads(p, steps + [last], after)
  {
    var more := steps + [last];
    assert more[..|more| - 1] == steps && more[|more| - 1] == last;
  }

  lemma SlippedNow(p: Plan, steps: seq<Step>, before: SoundRobot, last: Step, x: nat)
    requires p.Valid() && Leads(p, steps, before) && Slips(before, last, x)
    ensures Slipped(Idle, steps + [last], x)
  {
    var more := steps + [last];
    assert more[..|more| - 1] == steps && more[|more| - 1] == last;
  }

  lemma SlippedBefore(r: SoundRobot, steps: seq<Step>, last: Step, x: nat)
    requires Slipped(r, steps, x)
    ensures Slipped(r, steps + [last], x)
  {
    var more := steps + [last];
    assert more[..|more| - 1] == steps;
  }

  lemma OrderedRun(p: Plan, a: Action, step: Step) returns (steps: seq<Step>, after: SoundRobot, run: Run)
    requires OneStop(p, a) && step.Delivered? && step.order == Message(p, 0) && !step.around.localized
    requires Welcome(p, step.order, step.around)
    ensures steps == [step] && Leads(p, steps, after) && !after.cancelled
    ensures Holds(after, p, EngineState([run], [0], [], [AtTop])) && run.action == a && Scheduled(run)
  {
    var n := OnlyMessage(p, a);
    Admitted(p, a, step.around, step.order, n);
    run := FreshRun(a, OnNode, n.seqId);
    after := Ordered(Idle, p, a, step.around, step.order, n);
    assert Leads(p, [], Idle) && Sendable(p, 0);
    OneMore(p, [], Idle, step, after);
    steps := [] + [step];
  }

  lemma PoppedRun(p: Plan, steps: seq<Step>, before: SoundRobot, run: Run) returns (more: seq<Step>, after: SoundRobot)
    requires p.Valid() && Leads(p, steps, before) && !before.cancelled && run.Exclusive()
    requires Holds(before, p, EngineState([run], [0], [], [AtTop]))
    ensures more == steps + [RunnerMoves(0)] && Leads(p, more, after) && !after.cancelled
    ensures Holds(after, p, EngineState([run], [], [], [Checking(0, [])]))
  {
    after := Popped(before, p, run);
    OneMore(p, steps, before, RunnerMoves(0), after);
    more := steps + [RunnerMoves(0)];
  }

  lemma CanceledRun(p: Plan, steps: seq<Step>, before: SoundRobot, run: Run)
    returns (more: seq<Step>, after: SoundRobot)
    requires p.Valid() && Leads(p, steps, before) && !before.cancelled && Scheduled(run)
    requires Holds(before, p, EngineState([run], [], [], [Checking(0, [])]))
    ensures more == steps + [CancelAsked(None)] && Leads(p, more, after) && Slips(before, CancelAsked(None), 0)
    ensures Holds(after, p, EngineState([run.(status := Failed, finished := true)], [], [], [Checking(0, [])]))
  {
    after := Canceled(before, p, run);
    OneMore(p, steps, before, CancelAsked(None), after);
    more := steps + [CancelAsked(None)];
  }

  lemma StartedRun(p: Plan, steps: seq<Step>, before: SoundRobot, run: Run) returns (more: seq<Step>, after: SoundRobot)
    requires p.Valid() && Leads(p, steps, before)
    requires Holds(before, p, EngineState([run], [], [], [Checking(0, [])]))
    ensures more == steps + [RunnerMoves(0)] && Leads(p, more, after)
    ensures Holds(after, p, EngineState([run.(task := Created)], [], [0], [Awaiting(0)]))
  {
    after := Started(before, p, run);
    OneMore(p, steps, before, RunnerMoves(0), after);
    more := steps + [RunnerMoves(0)];
  }

  lemma FirstReport(r: SoundRobot, p: Plan, run: Run) returns (r': SoundRobot)
    requires Holds(r, p, EngineState([run], [], [0], [Awaiting(0)])) && run.task == Created
    ensures r' == Next(r, HandlerReports(0, Running)) && |r'.engine.table| == 1 && r'.engine.table[0].status == Running
  {
    StepKeepsRobot(r, HandlerReports(0, Running));
    r' := Next(r, HandlerReports(0, Running));
  }

  /** Order, pop, cancel, start: the action has failed, and with its handler's first report it runs. */
  lemma FailedActionRuns(p: Plan, a: Action, ordered: Step)
    returns (steps: seq<Step>, there: SoundRobot, reported: SoundRobot)
    requires OneStop(p, a) && ordered.Delivered? && ordered.order == Message(p, 0) && !ordered.around.localized
    requires Welcome(p, ordered.order, ordered.around)
    ensures Leads(p, steps, there) && Slipped(Idle, steps, 0) && reported == Next(there, HandlerReports(0, Running))
    ensures |there.engine.table| == 1 && there.engine.table[0].status == Failed
    ensures |reported.engine.table| == 1 && reported.engine.table[0].status == Running
    ensures steps == [ordered] + [RunnerMoves(0)] + [CancelAsked(None)] + [RunnerMoves(0)]
  {
    var run: Run;
    steps, there, run := OrderedRun(p, a, ordered);
    steps, there := PoppedRun(p, steps, there, run);
    var popped, before := steps, there;
    steps, there := CanceledRun(p, popped, before, run);
    SlippedNow(p, popped, before, CancelAsked(None), 0);
    SlippedBefore(Idle, steps, RunnerMoves(0), 0);
    run := run.(status := Failed, finished := true);
    steps, there := StartedRun(p, steps, there, run);
    reported := FirstReport(there, p, run.(task := Created));
  }

  lemma PowerOnStarts(p: Plan)
    requires p.Valid() && p.orderId != ""
    ensures Starts(Idle, p)
  {
  }

  /** Such a mission, and surroundings that admit it. */
  lemma OneStopExists(p: Plan, a: Action, s: Surroundings)
    requires a == Action("a1", "lift", Hard)
    requires p == Plan(Mission("m", [Waypoint(0.0, 0.0, "w", None, [a], "hall", None)]), false, "o", [1])
    requires s == Surroundings(false, false, {"hall"}, {"lift"}, {}, true, false)
    ensures OneStop(p, a) && Welcome(p, Message(p, 0), s) && !s.localized
  {
    var n := OnlyMessage(p, a);
  }
}
