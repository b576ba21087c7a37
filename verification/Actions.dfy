/** actions.py: the action engine as a concurrent machine.

    Every stretch of code between two awaits is covered by one or more of the steps below, so
    each interleaving of the real tasks is a run of this machine. An ActionRun object is a handle
    into an append-only table, which keeps the aliasing of the original: the queue, the list of
    active runs and the robot's lists all refer to the same entry. */
module Actions {
  import opened Vda5050

  datatype Origin = OnNode | OnEdge | Zone | Instant

  datatype Status = Waiting | Initializing | Running | Paused | Finished | Failed | Retriable

  /** The asyncio task of a run. A task cancelled before its first step never runs at all. */
  datatype Task = NoTask | Created | Live | Cancelling | Ended

  datatype Run = Run(action: Action, origin: Origin, element: int, status: Status, task: Task, finished: bool) {
    predicate Settled() { status == Finished || status == Failed }
    predicate Exclusive() { action.blocking == Single || action.blocking == Hard }
    predicate StopsDriving() { action.blocking == Soft || action.blocking == Hard }
    predicate CancelAllowed() { action.kind != "cancelOrder" && action.kind != "shutdown" }
    predicate Quiet() { Settled() || status == Retriable }
    /** Handed to the queue by an order or a zone, and started. */
    predicate QueueStarted() { origin != Instant && task != NoTask }
  }

  function FreshRun(action: Action, origin: Origin, element: int): Run {
    Run(action, origin, element, Waiting, NoTask, false)
  }

  /** Where a `_process_queue` task stands: at the loop head, going through its snapshot of the
      active runs, waiting for one of them, or waiting for the exclusive run it started. */
  datatype Runner =
    | AtTop
    | Checking(run: nat, batch: seq<nat>)
    | WaitingFor(run: nat, batch: seq<nat>)
    | Awaiting(run: nat)
    | Done

  datatype EngineState = EngineState(table: seq<Run>, queue: seq<nat>, active: seq<nat>, runners: seq<Runner>)

  ghost predicate Valid(e: EngineState) {
    && (forall i | 0 <= i < |e.queue| :: e.queue[i] < |e.table|)
    && (forall i | 0 <= i < |e.active| :: e.active[i] < |e.table|)
    && (forall i | 0 <= i < |e.runners| :: RunnerValid(e.runners[i], |e.table|))
  }

  ghost predicate RunnerValid(p: Runner, size: nat) {
    match p
    case Checking(r, batch) => r < size && forall k | 0 <= k < |batch| :: batch[k] < size
    case WaitingFor(r, batch) => r < size && batch != [] && forall k | 0 <= k < |batch| :: batch[k] < size
    case Awaiting(r) => r < size
    case _ => true
  }

  // ---------------------------------------------------------------- steps

  function Enqueue(e: EngineState, runs: seq<nat>): EngineState {
    e.(queue := e.queue + runs,
       runners := if runs != [] && (e.runners == [] || e.runners[|e.runners| - 1].Done?)
                  then e.runners + [AtTop] else e.runners)
  }

  function StartTask(e: EngineState, r: nat): EngineState
    requires r < |e.table|
  {
    e.(active := e.active + [r], table := e.table[r := e.table[r].(task := Created)])
  }

  function NewRun(e: EngineState, run: Run): EngineState {
    e.(table := e.table + [run])
  }

  /** Runner `i` advances; a runner that has to wait stays where it is. */
  function RunnerStep(e: EngineState, i: nat): EngineState
    requires Valid(e) && i < |e.runners|
  {
    match e.runners[i]
    case AtTop =>
      if e.queue == [] then e.(runners := e.runners[i := Done])
      else
        var popped := e.(queue := e.queue[1..]);
        if e.table[e.queue[0]].Exclusive()
        then popped.(runners := e.runners[i := Checking(e.queue[0], e.active)])
        else StartTask(popped, e.queue[0])
    case Checking(r, batch) =>
      if batch == [] then StartTask(e.(runners := e.runners[i := Awaiting(r)]), r)
      else if e.table[batch[0]].Quiet() || e.table[batch[0]].finished
      then e.(runners := e.runners[i := Checking(r, batch[1..])])
      else e.(runners := e.runners[i := WaitingFor(r, batch)])
    case WaitingFor(r, batch) =>
      if e.table[batch[0]].finished then e.(runners := e.runners[i := Checking(r, batch[1..])]) else e
    case Awaiting(r) =>
      if e.table[r].finished then e.(runners := e.runners[i := AtTop]) else e
    case Done => e
  }

  /** A handler reports progress; it never reports again once it has settled its run. */
  function Progress(run: Run, status: Status): Run {
    if (run.task == Created || (run.task == Live && !run.Settled()))
       && (status == Initializing || status == Running || status == Paused || status == Finished)
    then run.(status := status, task := Live)
    else run
  }

  /** The task of a run ends: by returning, by an ActionFailure, or by its cancellation. */
  function End(run: Run, outcome: Status): Run {
    if run.task == Cancelling then
      run.(status := if run.Settled() then run.status else Failed, task := Ended, finished := true)
    else if (run.task == Created || run.task == Live)
            && (outcome == Finished || outcome == Failed || outcome == Retriable) then
      var status := if run.task == Live && run.Settled() then run.status else outcome;
      run.(status := status, task := Ended, finished := run.finished || status != Retriable)
    else run
  }

  function SkipRetry(run: Run): Run {
    if run.status == Retriable then run.(status := Failed, finished := true) else run
  }

  function CancelTask(run: Run): Run {
    match run.task
    case Created => run.(task := Ended)
    case Live => run.(task := Cancelling)
    case _ => run
  }

  function OnRun(e: EngineState, r: nat, f: Run -> Run): EngineState
    requires r < |e.table|
  {
    e.(table := e.table[r := f(e.table[r])])
  }

  function FinishEdgeRun(run: Run, edge: int): Run {
    if run.origin == OnEdge && run.element == edge && !run.Settled()
    then CancelTask(run).(status := Finished, finished := true)
    else run
  }

  /** Leaving an edge finishes the active runs the edge triggered. */
  function FinishEdgeActions(e: EngineState, edge: int): EngineState {
    e.(table := seq(|e.table|, r requires 0 <= r < |e.table| =>
      if r in e.active then FinishEdgeRun(e.table[r], edge) else e.table[r]))
  }

  function KeepIds(table: seq<Run>, queue: seq<nat>, kept: set<string>): (k: seq<nat>)
    requires forall i | 0 <= i < |queue| :: queue[i] < |table|
    ensures forall i | 0 <= i < |k| :: k[i] in queue && k[i] < |table|
  {
    if queue == [] then []
    else (if table[queue[0]].action.id in kept then [queue[0]] else []) + KeepIds(table, queue[1..], kept)
  }

  function DropHorizon(e: EngineState, kept: set<string>): EngineState
    requires Valid(e)
  {
    e.(queue := KeepIds(e.table, e.queue, kept))
  }

  function Instants(table: seq<Run>, active: seq<nat>): (k: seq<nat>)
    requires forall i | 0 <= i < |active| :: active[i] < |table|
    ensures forall i | 0 <= i < |k| :: k[i] in active && table[k[i]].origin == Instant
  {
    if active == [] then []
    else (if table[active[0]].origin == Instant then [active[0]] else []) + Instants(table, active[1..])
  }

  /** A fresh order: every registered task is cancelled, only instant runs stay active. */
  function ResetForOrder(e: EngineState, registered: set<nat>): EngineState
    requires Valid(e)
  {
    EngineState(seq(|e.table|, r requires 0 <= r < |e.table| =>
                  if r in registered then CancelTask(e.table[r]) else e.table[r]),
                [], Instants(e.table, e.active), e.runners)
  }

  /** A run that cancelOrder has to wait for. */
  predicate Outstanding(run: Run) { run.origin != Instant && !run.Quiet() }

  function CancelActiveRun(run: Run): Run {
    if run.origin == Instant || run.Settled() then run
    else if run.status == Retriable then run.(status := Failed, finished := true)
    else if run.CancelAllowed() then CancelTask(run)
    else run
  }

  function CancelledRun(e: EngineState, r: nat): Run
    requires r < |e.table|
  {
    var queued := if r in e.queue then e.table[r].(status := Failed, finished := true) else e.table[r];
    if r in e.active then CancelActiveRun(queued) else queued
  }

  /** cancelOrder: scheduled runs fail, running ones are cancelled or left to finish. */
  function CancelOrderActions(e: EngineState): EngineState {
    e.(queue := [], table := seq(|e.table|, r requires 0 <= r < |e.table| => CancelledRun(e, r)))
  }

  function OutstandingAmong(table: seq<Run>, active: seq<nat>): (o: seq<nat>)
    requires forall i | 0 <= i < |active| :: active[i] < |table|
    ensures forall r :: r in o <==> r in active && Outstanding(table[r])
  {
    if active == [] then []
    else (if Outstanding(table[active[0]]) then [active[0]] else []) + OutstandingAmong(table, active[1..])
  }

  // ---------------------------------------------------------- exclusivity

  function LastRunner(e: EngineState): Runner {
    if e.runners == [] then Done else e.runners[|e.runners| - 1]
  }

  /** The run a runner has popped and not started yet; it is in neither list. */
  function Held(e: EngineState): Option<nat> {
    match LastRunner(e)
    case Checking(r, _) => Some(r)
    case WaitingFor(r, _) => Some(r)
    case _ => None
  }

  ghost predicate Distinct(refs: seq<nat>) {
    forall i, j | 0 <= i < j < |refs| :: refs[i] != refs[j]
  }

  ghost predicate Scheduled(run: Run) {
    run.origin != Instant && run.task == NoTask && run.status == Waiting && !run.finished
  }

  ghost predicate RunOk(run: Run) {
    && (run.origin != Instant && run.task == NoTask ==> run.status == Waiting && !run.finished)
    && (run.task == Created ==> run.status == Waiting && !run.finished)
    && (run.finished ==> run.Settled())
    && (run.status == Retriable ==> run.task == Ended)
  }

  /** Queue-born runs that are started and not in `batch` are quiet. */
  ghost predicate OthersQuiet(table: seq<Run>, batch: seq<nat>) {
    forall q | 0 <= q < |table| && table[q].QueueStarted() && q !in batch :: table[q].Quiet()
  }

  ghost predicate Disciplined(e: EngineState) {
    && Valid(e)
    && (forall i | 0 <= i < |e.runners| - 1 :: e.runners[i].Done?)
    && (forall r | 0 <= r < |e.table| :: RunOk(e.table[r]))
    && (forall i | 0 <= i < |e.queue| :: Scheduled(e.table[e.queue[i]]))
    && Distinct(e.queue)
    && (Held(e).Some? ==> Scheduled(e.table[Held(e).value]) && Held(e).value !in e.queue)
    && (forall i | 0 <= i < |e.active| :: e.table[e.active[i]].task != NoTask)
    && (forall r | 0 <= r < |e.table| && e.table[r].QueueStarted() && !e.table[r].Settled() :: r in e.active)
    && (match LastRunner(e)
        case Awaiting(r) => e.table[r].QueueStarted() && OthersQuiet(e.table, [r])
        case Checking(_, batch) => OthersQuiet(e.table, batch)
        case WaitingFor(_, batch) => OthersQuiet(e.table, batch)
        case _ => true)
    && (forall r | 0 <= r < |e.table| && e.table[r].QueueStarted() && e.table[r].Exclusive() ::
          e.table[r].Settled() || LastRunner(e) == Awaiting(r))
  }

  /** Runs that may be handed to the queue: distinct, scheduled, and not handed over before. */
  ghost predicate Fresh(e: EngineState, runs: seq<nat>) {
    && (forall i | 0 <= i < |runs| ::
          runs[i] < |e.table| && Scheduled(e.table[runs[i]]) && runs[i] !in e.queue && Held(e) != Some(runs[i]))
    && Distinct(runs)
  }

  datatype Event =
    | Enqueued(runs: seq<nat>)
    | Registered(action: Action, origin: Origin, element: int)
    | InstantStarted(run: nat)
    | RunnerMoved(runner: nat)
    | Progressed(run: nat, status: Status)
    | TaskEnded(run: nat, outcome: Status)
    | RetrySkipped(run: nat)
    | EdgeLeft(edge: int)
    | HorizonDropped(kept: set<string>)
    | OrderReplaced(registered: set<nat>)

  ghost predicate Possible(e: EngineState, ev: Event)
    requires Valid(e)
  {
    match ev
    case Enqueued(runs) => Fresh(e, runs)
    case Registered(_, _, _) => true
    case InstantStarted(r) => r < |e.table| && e.table[r] == FreshRun(e.table[r].action, Instant, -1)
    case RunnerMoved(i) => i < |e.runners|
    case Progressed(r, _) => r < |e.table|
    case TaskEnded(r, _) => r < |e.table|
    case RetrySkipped(r) => r < |e.table|
    case EdgeLeft(_) => true
    case HorizonDropped(_) => true
    // accepted only while the robot is idle: nothing scheduled, everything started has settled
    case OrderReplaced(_) =>
      && e.queue == [] && Held(e) == None
      && forall r | 0 <= r < |e.table| && e.table[r].QueueStarted() :: e.table[r].Settled()
  }

  function Apply(e: EngineState, ev: Event): EngineState
    requires Valid(e) && Possible(e, ev)
  {
    match ev
    case Enqueued(runs) => Enqueue(e, runs)
    case Registered(a, origin, element) => NewRun(e, FreshRun(a, origin, element))
    case InstantStarted(r) => StartTask(e, r)
    case RunnerMoved(i) => RunnerStep(e, i)
    case Progressed(r, status) => OnRun(e, r, run => Progress(run, status))
    case TaskEnded(r, outcome) => OnRun(e, r, run => End(run, outcome))
    case RetrySkipped(r) => OnRun(e, r, SkipRetry)
    case EdgeLeft(edge) => FinishEdgeActions(e, edge)
    case HorizonDropped(kept) => DropHorizon(e, kept)
    case OrderReplaced(registered) => ResetForOrder(e, registered)
  }

  lemma KeepIdsDistinct(table: seq<Run>, queue: seq<nat>, kept: set<string>)
    requires forall i | 0 <= i < |queue| :: queue[i] < |table|
    requires Distinct(queue)
    ensures Distinct(KeepIds(table, queue, kept))
  {
    if queue != [] {
      KeepIdsDistinct(table, queue[1..], kept);
      assert queue[0] !in queue[1..];
    }
  }

  lemma EnqueueKeepsDiscipline(e: EngineState, runs: seq<nat>)
    requires Disciplined(e) && Fresh(e, runs)
    ensures Disciplined(Enqueue(e, runs))
  {
    var e' := Enqueue(e, runs);
    assert LastRunner(e') == LastRunner(e) || (LastRunner(e).Done? && LastRunner(e') == AtTop);
  }

  lemma RegisterKeepsDiscipline(e: EngineState, run: Run)
    requires Disciplined(e) && run.task == NoTask && run.status == Waiting && !run.finished
    ensures Disciplined(NewRun(e, run))
  {
  }

  lemma InstantKeepsDiscipline(e: EngineState, r: nat)
    requires Disciplined(e) && Possible(e, InstantStarted(r))
    ensures Disciplined(StartTask(e, r))
  {
  }

  lemma RunnerKeepsDiscipline(e: EngineState, i: nat)
    requires Disciplined(e) && i < |e.runners|
    ensures Disciplined(RunnerStep(e, i))
  {
    if i == |e.runners| - 1 {
      match e.runners[i]
      case AtTop => TopKeepsDiscipline(e, i);
      case Checking(r, batch) => CheckingKeepsDiscipline(e, i);
      case WaitingFor(r, batch) =>
        assert batch == [batch[0]] + batch[1..];
      case _ =>
    }
  }

  lemma TopKeepsDiscipline(e: EngineState, i: nat)
    requires Disciplined(e) && i == |e.runners| - 1 && e.runners[i].AtTop?
    ensures Disciplined(RunnerStep(e, i))
  {
    if e.queue != [] {
      var first, rest := e.queue[0], e.queue[1..];
      assert forall k | 0 <= k < |rest| :: rest[k] == e.queue[k + 1];
      assert first !in rest && Distinct(rest);
    }
  }

  lemma CheckingKeepsDiscipline(e: EngineState, i: nat)
    requires Disciplined(e) && i == |e.runners| - 1 && e.runners[i].Checking?
    ensures Disciplined(RunnerStep(e, i))
  {
    var batch := e.runners[i].batch;
    if batch != [] {
      assert batch == [batch[0]] + batch[1..];
    }
  }

  /** Replacing single entries in place of their old selves keeps the discipline. */
  lemma UpdateKeepsDiscipline(e: EngineState, e': EngineState)
    requires Disciplined(e)
    requires e' == e.(table := e'.table) && |e'.table| == |e.table|
    requires forall r | 0 <= r < |e.table| :: Evolves(e.table[r], e'.table[r])
    ensures Disciplined(e')
  {
    assert LastRunner(e') == LastRunner(e) && Held(e') == Held(e);
  }

  /** How one run may change without its engine noticing. */
  ghost predicate Evolves(old_: Run, new_: Run) {
    && new_.action == old_.action && new_.origin == old_.origin && new_.element == old_.element
    && (old_.task == NoTask ==> new_ == old_)
    && (new_.task == NoTask ==> old_.task == NoTask)
    && (old_.finished ==> new_.finished)
    && (old_.Settled() ==> new_.status == old_.status)
    && (old_.status == Retriable ==> new_.Quiet())
    && (RunOk(old_) ==> RunOk(new_))
  }

  lemma SingleEvolution(e: EngineState, r: nat, f: Run -> Run)
    requires Disciplined(e) && r < |e.table| && Evolves(e.table[r], f(e.table[r]))
    ensures Disciplined(OnRun(e, r, f))
  {
    var e' := OnRun(e, r, f);
    forall q | 0 <= q < |e.table| ensures Evolves(e.table[q], e'.table[q]) {}
    UpdateKeepsDiscipline(e, e');
  }

  lemma EdgeKeepsDiscipline(e: EngineState, edge: int)
    requires Disciplined(e)
    ensures Disciplined(FinishEdgeActions(e, edge))
  {
    UpdateKeepsDiscipline(e, FinishEdgeActions(e, edge));
  }

  lemma DropKeepsDiscipline(e: EngineState, kept: set<string>)
    requires Disciplined(e)
    ensures Disciplined(DropHorizon(e, kept))
  {
    KeepIdsDistinct(e.table, e.queue, kept);
  }

  lemma ResetKeepsDiscipline(e: EngineState, registered: set<nat>)
    requires Disciplined(e) && Possible(e, OrderReplaced(registered))
    ensures Disciplined(ResetForOrder(e, registered))
  {
  }

  /** Every step keeps the discipline. */
  lemma StepKeepsDiscipline(e: EngineState, ev: Event)
    requires Disciplined(e) && Possible(e, ev)
    ensures Disciplined(Apply(e, ev))
  {
    match ev
    case Enqueued(runs) => EnqueueKeepsDiscipline(e, runs);
    case Registered(a, origin, element) => RegisterKeepsDiscipline(e, FreshRun(a, origin, element));
    case InstantStarted(r) => InstantKeepsDiscipline(e, r);
    case RunnerMoved(i) => RunnerKeepsDiscipline(e, i);
    case Progressed(r, status) => SingleEvolution(e, r, run => Progress(run, status));
    case TaskEnded(r, outcome) => SingleEvolution(e, r, run => End(run, outcome));
    case RetrySkipped(r) => SingleEvolution(e, r, SkipRetry);
    case EdgeLeft(edge) => EdgeKeepsDiscipline(e, edge);
    case HorizonDropped(kept) => DropKeepsDiscipline(e, kept);
    case OrderReplaced(registered) => ResetKeepsDiscipline(e, registered);
  }

  /** The machine after a run of events, each possible when it happens. */
  ghost predicate ReachedBy(e: EngineState, events: seq<Event>)
    decreases |events|
  {
    if events == [] then e == EngineState([], [], [], [])
    else exists before ::
      && ReachedBy(before, events[..|events| - 1])
      && Valid(before) && Possible(before, events[|events| - 1])
      && e == Apply(before, events[|events| - 1])
  }

  lemma {:induction false} RunsAreDisciplined(e: EngineState, events: seq<Event>)
    requires ReachedBy(e, events)
    ensures Disciplined(e)
    decreases |events|
  {
    if events != [] {
      var before :| ReachedBy(before, events[..|events| - 1])
        && Valid(before) && Possible(before, events[|events| - 1])
        && e == Apply(before, events[|events| - 1]);
      RunsAreDisciplined(before, events[..|events| - 1]);
      StepKeepsDiscipline(before, events[|events| - 1]);
    }
  }

  /** In every interleaving, while a SINGLE or HARD run from the queue is started and unsettled
      no other run from the queue is at work, and at most one queue runner is alive. */
  lemma ExclusiveRunsAlone(e: EngineState, events: seq<Event>, r: nat, q: nat)
    requires ReachedBy(e, events)
    requires r < |e.table| && e.table[r].QueueStarted() && e.table[r].Exclusive() && !e.table[r].Settled()
    requires q < |e.table| && e.table[q].QueueStarted() && q != r
    ensures e.table[q].Quiet()
    ensures forall i | 0 <= i < |e.runners| - 1 :: e.runners[i].Done?
  {
    RunsAreDisciplined(e, events);
  }
}
