/** behaviors.py: the simulated clock of the emulated robot: scaled from the wall clock, and
    stopped by pauses, manual control and holding faults. */
module SimClock {
  import opened Vda5050
  import opened MissionTimeline

  const TIME_SCALE_MIN := 0.001
  const TIME_SCALE_MAX := 3600.0

  datatype Fault =
    | EmergencyStop | GeneralError | LocalizationLost | BatteryCritical | BlockedPath | MissionFailure | ConnectionDrop
  {
    predicate Holds() { EmergencyStop? || GeneralError? || LocalizationLost? }
    predicate AbortsQueue() { MissionFailure? }
    predicate Resettable() { GeneralError? || LocalizationLost? || MissionFailure? }
  }

  datatype Hold = NoHold | ByFault | ByPause | ByManual

  datatype Clock = Clock(
    anchorSim: real, anchorWall: real, scale: real,
    pausedAt: Option<real>, pausedTotal: real, hold: Hold, faults: set<Fault>)

  predicate Holding(faults: set<Fault>) { exists f | f in faults :: f.Holds() }

  function Scaled(c: Clock, wall: real): real { c.anchorSim + (wall - c.anchorWall) * c.scale }

  /** Scaled time minus every paused interval. */
  function Reading(c: Clock, wall: real): real { ReadingAt(c, Scaled(c, wall)) }

  /** The same, given the scaled time. */
  function ReadingAt(c: Clock, now: real): real {
    now - c.pausedTotal - (match c.pausedAt case None => 0.0 case Some(since) => now - since)
  }

  lemma SameScale(c: Clock, c': Clock, wall: real)
    requires c'.anchorSim == c.anchorSim && c'.anchorWall == c.anchorWall && c'.scale == c.scale
    ensures Scaled(c', wall) == Scaled(c, wall)
  {
  }

  function Thawed(c: Clock, now: real): Clock {
    match c.pausedAt
    case None => c
    case Some(since) => c.(pausedAt := None, pausedTotal := c.pausedTotal + (now - since), hold := NoHold)
  }

  datatype Op =
    | SetScale(scale: real)
    | Pause(hold: Hold)
    | Resume
    | SetFaults(faults: set<Fault>)

  predicate ScaleAllowed(scale: real) { TIME_SCALE_MIN <= scale <= TIME_SCALE_MAX }

  /** An operation at wall time `wall`. */
  function Applied(c: Clock, op: Op, wall: real): Clock { AppliedAt(c, op, wall, Scaled(c, wall)) }

  function AppliedAt(c: Clock, op: Op, wall: real, now: real): Clock {
    match op
    case SetScale(scale) => if ScaleAllowed(scale) then c.(anchorSim := now, anchorWall := wall, scale := scale) else c
    case Pause(hold) => c.(pausedAt := if c.pausedAt.None? then Some(now) else c.pausedAt, hold := hold)
    case Resume => Thawed(c, now)
    case SetFaults(faults) =>
      var changed := c.(faults := faults);
      if Holding(faults) && c.pausedAt.None? then changed.(pausedAt := Some(now), hold := ByFault)
      else if !Holding(faults) && c.hold == ByFault && c.pausedAt.Some? then Thawed(changed, now)
      else changed
  }

  /** Real time, running. */
  function Started(wall: real): Clock { Clock(wall, wall, 1.0, None, 0.0, NoHold, {}) }

  /** The clock does not jump, whatever is done to it. */
  lemma Continuous(c: Clock, op: Op, wall: real)
    ensures Reading(Applied(c, op, wall), wall) == Reading(c, wall)
  {
    var now := Scaled(c, wall);
    var c' := AppliedAt(c, op, wall, now);
    ContinuousAt(c, op, wall, now);
    if op.SetScale? && ScaleAllowed(op.scale) {
      Reanchored(c, wall, op.scale);
    } else {
      SameScale(c, c', wall);
    }
    assert Scaled(c', wall) == now;
  }

  lemma ContinuousAt(c: Clock, op: Op, wall: real, now: real)
    ensures ReadingAt(AppliedAt(c, op, wall, now), now) == ReadingAt(c, now)
  {
  }

  /** A new scale counts from the current instant. */
  lemma Reanchored(c: Clock, wall: real, scale: real)
    ensures Scaled(c.(anchorSim := Scaled(c, wall), anchorWall := wall, scale := scale), wall) == Scaled(c, wall)
  {
    assert (wall - wall) * scale == 0.0;
  }

  /** Between operations it runs at its scale, or stands still. */
  lemma RunsAtScale(c: Clock, wall: real, later: real)
    ensures Reading(c, later) - Reading(c, wall) == if c.pausedAt.Some? then 0.0 else (later - wall) * c.scale
  {
    assert (later - c.anchorWall) * c.scale - (wall - c.anchorWall) * c.scale == (later - wall) * c.scale;
  }

  // ------------------------------------------------------ as a stopwatch

  /** After a pause, for whatever reason and however often, the clock shows that instant. */
  lemma PausedStandsStill(c: Clock, hold: Hold, wall: real, later: real)
    ensures Reading(Applied(c, Pause(hold), wall), later) == Reading(c, wall)
  {
    Continuous(c, Pause(hold), wall);
    RunsAtScale(Applied(c, Pause(hold), wall), wall, later);
  }

  /** After a resume it runs on from there at its scale, whatever had stopped it. */
  lemma ResumedRuns(c: Clock, wall: real, later: real)
    ensures Reading(Applied(c, Resume, wall), later) == Reading(c, wall) + (later - wall) * c.scale
  {
    Continuous(c, Resume, wall);
    RunsAtScale(Applied(c, Resume, wall), wall, later);
  }

  /** One of the three faults that stop a robot is among them. */
  predicate Stops(faults: set<Fault>) {
    EmergencyStop in faults || GeneralError in faults || LocalizationLost in faults
  }

  lemma HoldingIsStopping(faults: set<Fault>)
    ensures Holding(faults) <==> Stops(faults)
  {
    if EmergencyStop in faults { assert EmergencyStop.Holds(); }
    if GeneralError in faults { assert GeneralError.Holds(); }
    if LocalizationLost in faults { assert LocalizationLost.Holds(); }
  }

  /** New faults stop a running clock exactly if one of them stops the robot, and start a stopped one
      exactly if a fault had stopped it and none does any more; a pause somebody asked for stays. */
  lemma FaultsDecide(c: Clock, faults: set<Fault>, wall: real, later: real)
    ensures var running := if c.pausedAt.None? then !Stops(faults) else c.hold == ByFault && !Stops(faults);
            Reading(Applied(c, SetFaults(faults), wall), later)
            == Reading(c, wall) + if running then (later - wall) * c.scale else 0.0
  {
    HoldingIsStopping(faults);
    Continuous(c, SetFaults(faults), wall);
    RunsAtScale(Applied(c, SetFaults(faults), wall), wall, later);
  }

  /** A scale from 0.001 to 3600 counts from now on, any other changes nothing; a stopped clock stays
      stopped. */
  lemma RescaledRuns(c: Clock, scale: real, wall: real, later: real)
    ensures var rate := if 0.001 <= scale <= 3600.0 then scale else c.scale;
            Reading(Applied(c, SetScale(scale), wall), later)
            == Reading(c, wall) + if c.pausedAt.None? then (later - wall) * rate else 0.0
  {
    Continuous(c, SetScale(scale), wall);
    RunsAtScale(Applied(c, SetScale(scale), wall), wall, later);
  }

  /** What it shows since when, how fast it goes, and what has stopped it. */
  datatype Watch = Watch(shown: real, since: real, rate: real, stopped: Option<Hold>)

  function Shows(w: Watch, wall: real): real {
    if w.stopped.None? then w.shown + (wall - w.since) * w.rate else w.shown
  }

  function Pressed(w: Watch, op: Op, wall: real): Watch {
    var now := w.(shown := Shows(w, wall), since := wall);
    match op
    case SetScale(scale) => if 0.001 <= scale <= 3600.0 then now.(rate := scale) else now
    case Pause(hold) => now.(stopped := Some(hold))
    case Resume => now.(stopped := None)
    case SetFaults(faults) =>
      if w.stopped.None? && Stops(faults) then now.(stopped := Some(ByFault))
      else if w.stopped == Some(ByFault) && !Stops(faults) then now.(stopped := None)
      else now
  }

  function PressedAll(w: Watch, ops: seq<(real, Op)>): Watch
    decreases |ops|
  {
    if ops == [] then w else PressedAll(Pressed(w, ops[0].1, ops[0].0), ops[1..])
  }

  ghost predicate Agrees(c: Clock, w: Watch) {
    && c.scale == w.rate && Reading(c, w.since) == w.shown
    && w.stopped == if c.pausedAt.None? then None else Some(c.hold)
  }

  lemma AgreeingShowsSame(c: Clock, w: Watch, wall: real)
    requires Agrees(c, w)
    ensures Reading(c, wall) == Shows(w, wall)
  {
    RunsAtScale(c, w.since, wall);
  }

  lemma PressedAgrees(c: Clock, w: Watch, op: Op, wall: real)
    requires Agrees(c, w)
    ensures Agrees(Applied(c, op, wall), Pressed(w, op, wall))
  {
    AgreeingShowsSame(c, w, wall);
    Continuous(c, op, wall);
    if op.SetFaults? { HoldingIsStopping(op.faults); }
  }

  lemma {:induction false} StaysInStep(c: Clock, w: Watch, ops: seq<(real, Op)>)
    requires Agrees(c, w)
    ensures Agrees(AppliedAll(c, ops), PressedAll(w, ops))
    decreases |ops|
  {
    if ops != [] {
      PressedAgrees(c, w, ops[0].1, ops[0].0);
      StaysInStep(Applied(c, ops[0].1, ops[0].0), Pressed(w, ops[0].1, ops[0].0), ops[1..]);
    }
  }

  /** Anchors, totals and paused instants come to a plain stopwatch: after any operations at any
      instants the clock shows at every instant what the watch does. */
  lemma ReadsAsStopwatch(start: real, ops: seq<(real, Op)>, wall: real)
    ensures Reading(AppliedAll(Started(start), ops), wall)
         == Shows(PressedAll(Watch(start, start, 1.0, None), ops), wall)
  {
    assert Agrees(Started(start), Watch(start, start, 1.0, None));
    StaysInStep(Started(start), Watch(start, start, 1.0, None), ops);
    AgreeingShowsSame(AppliedAll(Started(start), ops), PressedAll(Watch(start, start, 1.0, None), ops), wall);
  }

  ghost predicate Timed(ops: seq<(real, Op)>, from: real, to: real)
    decreases |ops|
  {
    if ops == [] then from <= to else from <= ops[0].0 && Timed(ops[1..], ops[0].0, to)
  }

  function AppliedAll(c: Clock, ops: seq<(real, Op)>): Clock
    decreases |ops|
  {
    if ops == [] then c else AppliedAll(Applied(c, ops[0].1, ops[0].0), ops[1..])
  }

  lemma ScaleStaysPositive(c: Clock, op: Op, wall: real)
    requires c.scale > 0.0
    ensures Applied(c, op, wall).scale > 0.0
  {
  }

  lemma NoTimeLost(scale: real, elapsed: real)
    requires scale > 0.0 && elapsed >= 0.0
    ensures elapsed * scale >= 0.0
  {
  }

  lemma RunsForward(c: Clock, from: real, to: real)
    requires c.scale > 0.0 && from <= to
    ensures Reading(c, from) <= Reading(c, to)
  {
    RunsAtScale(c, from, to);
    NoTimeLost(c.scale, to - from);
  }

  lemma OperationNotBack(c: Clock, op: Op, from: real, wall: real, c': Clock)
    requires c.scale > 0.0 && from <= wall && c' == Applied(c, op, wall)
    ensures c'.scale > 0.0 && Reading(c, from) <= Reading(c', wall)
  {
    RunsForward(c, from, wall);
    Continuous(c, op, wall);
    ScaleStaysPositive(c, op, wall);
  }

  /** Over any mix of pauses, holds, resumes and scale changes the clock never runs backwards. */
  lemma {:induction false} NeverBackwards(c: Clock, ops: seq<(real, Op)>, from: real, to: real)
    requires c.scale > 0.0 && Timed(ops, from, to)
    ensures Reading(c, from) <= Reading(AppliedAll(c, ops), to)
    decreases |ops|
  {
    if ops == [] {
      RunsForward(c, from, to);
    } else {
      var wall, op, rest := ops[0].0, ops[0].1, ops[1..];
      var c' := Applied(c, op, wall);
      OperationNotBack(c, op, from, wall, c');
      NeverBackwards(c', rest, wall, to);
    }
  }

  // -------------------------------------------------------- holding faults

  /** While a holding fault is active the clock stands still. */
  predicate Frozen(c: Clock) { Holding(c.faults) ==> c.pausedAt.Some? }

  /** An operation breaks this exactly when it is a resume (PUT state_id 3) during a holding fault. */
  lemma FrozenUnlessResumed(c: Clock, op: Op, wall: real)
    requires Frozen(c)
    ensures Frozen(Applied(c, op, wall)) <==> !(op.Resume? && Holding(c.faults))
  {
  }

  /** The exception at work: emergency stop, resume, and the clock runs on. */
  lemma ResumeThawsEmergencyStop(start: real, pressed: real, resumed: real, later: real)
    requires start <= pressed <= resumed < later
    ensures var c := AppliedAll(Started(start), [(pressed, SetFaults({EmergencyStop})), (resumed, Resume)]);
            Holding(c.faults) && !Frozen(c) && Reading(c, later) > Reading(c, resumed)
  {
    var ops := [(pressed, SetFaults({EmergencyStop})), (resumed, Resume)];
    var held := Applied(Started(start), SetFaults({EmergencyStop}), pressed);
    assert EmergencyStop in held.faults;
    var c := Applied(held, Resume, resumed);
    assert ops[1..] == [(resumed, Resume)] && ops[1..][1..] == [];
    assert AppliedAll(Started(start), ops) == AppliedAll(held, ops[1..]) == AppliedAll(c, ops[1..][1..]) == c;
    assert c.scale == 1.0 && c.pausedAt.None?;
    RunsAtScale(c, resumed, later);
  }

  // ------------------------------------------------------- the whole robot

  /** Clock and queue of one emulated robot. */
  datatype Session = Session(clock: Clock, entries: seq<Entry>, nextId: nat)

  datatype Request = Clocked(op: Op) | Queued(step: Step)

  /** Time passes by itself; a request cannot move the clock. */
  predicate Acceptable(request: Request) {
    request.Queued? ==> !request.step.Advance? && (request.step.Enqueue? ==> request.step.duration >= 0.0)
  }

  function TimelineAt(s: Session, wall: real): Timeline { Timeline(s.entries, Reading(s.clock, wall), s.nextId) }

  /** A newly active aborting fault aborts the queue at the current instant. */
  function Handled(s: Session, request: Request, wall: real): Session {
    match request
    case Clocked(op) =>
      var aborts := op.SetFaults? && exists f | f in op.faults - s.clock.faults :: f.AbortsQueue();
      Session(Applied(s.clock, op, wall),
              if aborts then Next(TimelineAt(s, wall), AbortAll).entries else s.entries, s.nextId)
    case Queued(step) =>
      var t := Next(TimelineAt(s, wall), step);
      Session(s.clock, t.entries, t.nextId)
  }

  /** Clock operations leave the queue alone, but for a mission failure that was not active before: it
      aborts everything unfinished. */
  lemma OnlyMissionFailureAborts(s: Session, op: Op, wall: real)
    ensures Handled(s, Clocked(op), wall).entries
         == if op.SetFaults? && MissionFailure in op.faults && MissionFailure !in s.clock.faults
            then AbortedQueue(s.entries, None, Reading(s.clock, wall)) else s.entries
  {
    if op.SetFaults? && MissionFailure in op.faults && MissionFailure !in s.clock.faults {
      assert MissionFailure in op.faults - s.clock.faults && MissionFailure.AbortsQueue();
    }
  }

  ghost predicate Requested(s: Session, from: real, requests: seq<(real, Request)>, s': Session, to: real)
    decreases |requests|
  {
    if requests == [] then from <= to && s' == s
    else
      && from <= requests[0].0 && Acceptable(requests[0].1)
      && Requested(Handled(s, requests[0].1, requests[0].0), requests[0].0, requests[1..], s', to)
  }

  lemma WaitKeepsOk(s: Session, from: real, to: real)
    requires s.clock.scale > 0.0 && from <= to && TimelineOk(TimelineAt(s, from))
    ensures TimelineOk(TimelineAt(s, to))
  {
    NeverBackwards(s.clock, [], from, to);
    StepKeepsOk(TimelineAt(s, from), Advance(Reading(s.clock, to)));
  }

  lemma RequestKeepsOk(s: Session, request: Request, wall: real)
    requires s.clock.scale > 0.0 && TimelineOk(TimelineAt(s, wall)) && Acceptable(request)
    ensures TimelineOk(TimelineAt(Handled(s, request, wall), wall)) && Handled(s, request, wall).clock.scale > 0.0
  {
    match request
    case Clocked(op) =>
      Continuous(s.clock, op, wall);
      ScaleStaysPositive(s.clock, op, wall);
      StepKeepsOk(TimelineAt(s, wall), AbortAll);
    case Queued(step) => StepKeepsOk(TimelineAt(s, wall), step);
  }

  lemma {:induction false} RequestsKeepOk(s: Session, from: real, requests: seq<(real, Request)>, s': Session, to: real)
    requires s.clock.scale > 0.0 && TimelineOk(TimelineAt(s, from)) && Requested(s, from, requests, s', to)
    ensures TimelineOk(TimelineAt(s', to))
    decreases |requests|
  {
    if requests == [] {
      WaitKeepsOk(s, from, to);
    } else {
      var at, request := requests[0].0, requests[0].1;
      WaitKeepsOk(s, from, at);
      RequestKeepsOk(s, request, at);
      RequestsKeepOk(Handled(s, request, at), at, requests[1..], s', to);
    }
  }

  /** Whatever requests arrive and whenever, with pauses, faults and scale changes among them, the
      robot executes at most one mission at a time and its windows never overlap. */
  lemma OneMissionOnTheWallClock(start: real, requests: seq<(real, Request)>, s: Session, to: real)
    requires Requested(Session(Started(start), [], 1), start, requests, s, to)
    ensures InTurn(Windows(s.entries, None))
    ensures var t := TimelineAt(s, to);
            forall i, j | 0 <= i < j < |t.entries| :: !(PhaseAt(t, i) == Executing && PhaseAt(t, j) == Executing)
  {
    RequestsKeepOk(Session(Started(start), [], 1), start, requests, s, to);
    SoundInTurn(s.entries, None, Reading(s.clock, to));
  }

  // ---------------------------------------------------------------- object

  /** The stored clock state; the wall clock reading is handed in. */
  class SimulatedClock {
    var anchorSim: real
    var anchorWall: real
    var scale: real
    var pausedAt: Option<real>
    var pausedTotal: real
    var hold: Hold
    var faults: set<Fault>

    ghost function State(): Clock
      reads this
    {
      Clock(anchorSim, anchorWall, scale, pausedAt, pausedTotal, hold, faults)
    }

    constructor (wall: real)
      ensures State() == Started(wall)
    {
      anchorSim, anchorWall, scale := wall, wall, 1.0;
      pausedAt, pausedTotal, hold, faults := None, 0.0, NoHold, {};
    }

    method Now(wall: real) returns (now: real)
      ensures now == Scaled(State(), wall)
    {
      now := anchorSim + (wall - anchorWall) * scale;
    }

    method Read(wall: real) returns (clock: real)
      ensures clock == Reading(State(), wall)
    {
      var now := Now(wall);
      var paused := pausedTotal;
      if pausedAt.Some? { paused := paused + (now - pausedAt.value); }
      clock := now - paused;
    }

    /** Rejects a scale out of range and changes nothing then. */
    method SetTimeScale(requested: real, wall: real) returns (ok: bool)
      modifies this`anchorSim, this`anchorWall, this`scale
      ensures State() == Applied(old(State()), SetScale(requested), wall) && ok == ScaleAllowed(requested)
    {
      if !(TIME_SCALE_MIN <= requested && requested <= TIME_SCALE_MAX) { return false; }
      anchorSim := Now(wall);
      anchorWall, scale := wall, requested;
      return true;
    }

    method PauseSim(reason: Hold, wall: real)
      modifies this`pausedAt, this`hold
      ensures State() == Applied(old(State()), Pause(reason), wall)
    {
      if pausedAt.None? {
        var now := Now(wall);
        pausedAt := Some(now);
      }
      hold := reason;
    }

    method ResumeSim(wall: real)
      modifies this`pausedAt, this`pausedTotal, this`hold
      ensures State() == Applied(old(State()), Resume, wall)
    {
      if pausedAt.Some? {
        var now := Now(wall);
        pausedTotal := pausedTotal + (now - pausedAt.value);
        pausedAt, hold := None, NoHold;
      }
    }

    /** Replaces the active faults; says whether the mission queue has to be aborted. */
    method ReplaceFaults(names: set<Fault>, wall: real) returns (aborts: bool)
      modifies this`faults, this`pausedAt, this`pausedTotal, this`hold
      ensures State() == Applied(old(State()), SetFaults(names), wall)
      ensures aborts <==> MissionFailure in names && MissionFailure !in old(faults)
    {
      ghost var start := State();
      var previous := faults;
      faults := names;
      SameScale(start, State(), wall);
      aborts := exists f | f in names - previous :: f.AbortsQueue();
      assert aborts <==> MissionFailure in names - previous by { assert MissionFailure.AbortsQueue(); }
      var holds := Holding(names);
      if holds && pausedAt.None? {
        var now := Now(wall);
        pausedAt, hold := Some(now), ByFault;
      } else if !holds && hold == ByFault && pausedAt.Some? {
        ResumeSim(wall);
      }
    }

    /** The parts of PUT /status that touch the clock. */
    method PutStatus(stateId: int, clearError: bool, wall: real) returns (aborts: bool)
      modifies this`faults, this`pausedAt, this`pausedTotal, this`hold
      ensures var first := if stateId == 4 then Applied(old(State()), Pause(ByPause), wall)
                           else if stateId == 11 then Applied(old(State()), Pause(ByManual), wall)
                           else if stateId == 3 then Applied(old(State()), Resume, wall)
                           else old(State());
              State() == if clearError
                         then Applied(first, SetFaults(first.faults - {GeneralError, LocalizationLost, MissionFailure}),
                                      wall)
                         else first
      ensures !aborts
    {
      if stateId == 4 { PauseSim(ByPause, wall); }
      else if stateId == 11 { PauseSim(ByManual, wall); }
      else if stateId == 3 { ResumeSim(wall); }
      aborts := false;
      if clearError {
        assert (set f | f in faults && !f.Resettable()) == faults - {GeneralError, LocalizationLost, MissionFailure};
        aborts := ReplaceFaults((set f | f in faults && !f.Resettable()), wall);
      }
    }
  }
}
