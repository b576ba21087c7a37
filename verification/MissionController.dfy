/** controller.py: one dispatch attempt, from the first order message to its outcome. */
module MissionController {
  import opened Vda5050
  import opened Actions
  import opened Missions
  import opened RobotModel
  import opened OrderChain
  import opened OrderActions

  datatype ActionState = ActionState(id: string, status: Status)

  /** What the dispatcher reads of a state message. `actions` is all its action-state arrays in
      the order they are searched; `refused` are the order ids its errors refer to. */
  datatype Snapshot = Snapshot(
    orderId: string, lastNodeId: string, newBaseRequest: bool,
    nodeStates: seq<ElementState>, edgeStates: seq<ElementState>,
    actions: seq<ActionState>, refused: set<string>)

  datatype Outcome = Completed | Rejected | Canceled | Failure

  datatype Phase = AwaitingVerdict | AwaitingDecisionPoint | AwaitingEnd | AwaitingFinal | Over(outcome: Outcome)

  datatype Sent = OrderSent(order: Order) | SkipRetrySent(actionId: string)

  const FINAL := {Finished, Failed}
  const SETTLED := {Finished, Failed, Retriable}

  // ---------------------------------------------------------------- releases

  function Capped(release: int, total: int): int { if release <= total then release else total }

  function StepsFrom(total: int, step: int, from: int): seq<int>
    requires step >= 1 && from <= total
    decreases total - from
  {
    if from == total then [total] else [from] + StepsFrom(total, step, Capped(from + step, total))
  }

  /** The base after each message of an attempt that releases `step` waypoints at a time. */
  function Stepwise(total: int, step: int): seq<int> {
    if 1 <= step <= total then StepsFrom(total, step, step) else [step]
  }

  function StepwisePlan(mission: Mission, v2: bool, orderId: string, step: int): Plan {
    Plan(mission, v2, orderId, Stepwise(|mission.waypoints|, step))
  }

  lemma {:induction false} StepsRange(total: int, step: int, from: int)
    requires step >= 1 && from <= total
    ensures var r := StepsFrom(total, step, from);
            r != [] && r[0] == from && r[|r| - 1] == total && forall i | 0 <= i < |r| :: from <= r[i] <= total
    decreases total - from
  {
    if from < total {
      var rest := StepsFrom(total, step, Capped(from + step, total));
      StepsRange(total, step, Capped(from + step, total));
      forall i | 0 <= i < |rest| + 1 ensures from <= ([from] + rest)[i] <= total {
        if i > 0 { assert ([from] + rest)[i] == rest[i - 1]; }
      }
    }
  }

  lemma {:induction false} StepsIncrease(total: int, step: int, from: int, i: nat, j: nat)
    requires step >= 1 && from <= total && i < j < |StepsFrom(total, step, from)|
    ensures StepsFrom(total, step, from)[i] < StepsFrom(total, step, from)[j]
    decreases total - from
  {
    var next := Capped(from + step, total);
    StepsRange(total, step, next);
    assert StepsFrom(total, step, from)[j] == StepsFrom(total, step, next)[j - 1];
    if i > 0 {
      assert StepsFrom(total, step, from)[i] == StepsFrom(total, step, next)[i - 1];
      StepsIncrease(total, step, next, i - 1, j - 1);
    }
  }

  lemma {:induction false} StepAfter(total: int, step: int, from: int, i: nat)
    requires step >= 1 && from <= total && i < |StepsFrom(total, step, from)|
    ensures var r := StepsFrom(total, step, from);
            r[i] < total ==> i + 1 < |r| && r[i + 1] == Capped(r[i] + step, total)
    decreases i
  {
    if from < total {
      var next := Capped(from + step, total);
      StepsRange(total, step, next);
      if i > 0 {
        assert StepsFrom(total, step, from)[i] == StepsFrom(total, step, next)[i - 1];
        StepAfter(total, step, next, i - 1);
      }
    }
  }

  /** The schedule of an attempt is one the compiler takes exactly if the step is in range; then
      every message adds to the base, up to the whole route. */
  lemma StepwiseIsStrict(mission: Mission, v2: bool, orderId: string, step: int)
    ensures var p := StepwisePlan(mission, v2, orderId, step);
            && (p.Valid() <==> 1 <= step <= p.Total())
            && (p.Valid() ==> p.Strict() && Released(p, 0) == step)
  {
    var total, r := |mission.waypoints|, Stepwise(|mission.waypoints|, step);
    if 1 <= step <= total {
      StepsRange(total, step, step);
      forall i, j | 0 <= i < j < |r| ensures r[i] < r[j] { StepsIncrease(total, step, step, i, j); }
    }
  }

  /** Another message is due while part of the route is unreleased, and only then. */
  lemma StepwiseNext(p: Plan, step: int, i: nat)
    requires p.Valid() && p.releases == Stepwise(p.Total(), step) && Sendable(p, i)
    ensures Sendable(p, i + 1) <==> Released(p, i) < p.Total()
    ensures Sendable(p, i + 1) ==> Released(p, i + 1) == Capped(Released(p, i) + step, p.Total())
  {
    if 1 <= step <= p.Total() {
      StepsRange(p.Total(), step, step);
      StepAfter(p.Total(), step, step, i);
      if i + 1 < |p.releases| { StepsIncrease(p.Total(), step, step, i, i + 1); }
    }
  }

  /** The waits of `_drive` and the two variables its release loop updates. */
  datatype Attempt = Attempt(plan: Plan, step: int, released: int, updateId: nat, phase: Phase)

  /** Some action-state entry shows the action in one of the given statuses. */
  predicate Shows(s: Snapshot, id: string, allowed: set<Status>) {
    exists i | 0 <= i < |s.actions| :: s.actions[i].id == id && s.actions[i].status in allowed
  }

  predicate AllShow(s: Snapshot, ids: seq<string>, allowed: set<Status>) {
    forall i | 0 <= i < |ids| :: Shows(s, ids[i], allowed)
  }

  /** The ids shown in one of the given statuses, in order. */
  function Showing(s: Snapshot, ids: seq<string>, allowed: set<Status>): (found: seq<string>)
    ensures found == [] <==> forall i | 0 <= i < |ids| :: !Shows(s, ids[i], allowed)
  {
    if ids == [] then []
    else Showing(s, ids[..|ids| - 1], allowed)
         + (if Shows(s, ids[|ids| - 1], allowed) then [ids[|ids| - 1]] else [])
  }

  predicate AtDecisionPoint(a: Attempt, s: Snapshot)
    requires a.plan.Valid() && 1 <= a.released <= a.plan.Total()
  {
    s.orderId == a.plan.orderId
    && (s.lastNodeId == a.plan.mission.waypoints[a.released - 1].nodeId || s.newBaseRequest)
  }

  predicate SettledIn(a: Attempt, s: Snapshot) {
    && s.orderId == a.plan.orderId && s.nodeStates == [] && s.edgeStates == []
    && AllShow(s, Work(a.plan), SETTLED)
  }

  function Onward(a: Attempt): Attempt {
    a.(phase := if a.released < a.plan.Total() then AwaitingDecisionPoint else AwaitingEnd)
  }

  /** The verdict on a state in which every action has settled. */
  function Concluded(a: Attempt, s: Snapshot): Attempt {
    a.(phase := Over(if Showing(s, Work(a.plan), {Failed}) != [] then Failure else Completed))
  }

  function Extended(a: Attempt): Attempt {
    a.(released := Capped(a.released + a.step, a.plan.Total()), updateId := a.updateId + 1)
  }

  /** How the attempt moves on when it sees a state message. */
  function Observed(a: Attempt, s: Snapshot): Attempt
    requires a.plan.Valid() && 1 <= a.released <= a.plan.Total()
  {
    match a.phase
    case AwaitingVerdict =>
      if s.orderId != a.plan.orderId && a.plan.orderId !in s.refused then a
      else if s.orderId != a.plan.orderId || a.plan.orderId in s.refused then a.(phase := Over(Rejected))
      else Onward(a)
    case AwaitingDecisionPoint => if AtDecisionPoint(a, s) then Onward(Extended(a)) else a
    case AwaitingEnd =>
      if !SettledIn(a, s) then a
      else if Showing(s, Work(a.plan), {Retriable}) != [] then a.(phase := AwaitingFinal)
      else Concluded(a, s)
    case AwaitingFinal =>
      if s.orderId == a.plan.orderId && AllShow(s, Work(a.plan), FINAL) then Concluded(a, s) else a
    case Over(_) => a
  }

  function SkipRetries(ids: seq<string>): seq<Sent> {
    seq(|ids|, i requires 0 <= i < |ids| => SkipRetrySent(ids[i]))
  }

  /** What it sends on that occasion. */
  function Sends(a: Attempt, s: Snapshot): seq<Sent>
    requires a.plan.Valid() && 1 <= a.released <= a.plan.Total()
  {
    match a.phase
    case AwaitingDecisionPoint => if AtDecisionPoint(a, s) then [OrderSent(Message(a.plan, a.updateId + 1))] else []
    case AwaitingEnd => if SettledIn(a, s) then SkipRetries(Showing(s, Work(a.plan), {Retriable})) else []
    case _ => []
  }

  /** The release bookkeeping names the message sent last. */
  ghost predicate BookOk(a: Attempt) {
    && a.plan.Valid() && a.plan.releases == Stepwise(a.plan.Total(), a.step)
    && a.released == Released(a.plan, a.updateId) && Sendable(a.plan, a.updateId)
  }

  /** The last two waits, and what they lead to. */
  predicate LooksForEnd(phase: Phase) {
    phase == AwaitingEnd || phase == AwaitingFinal || phase == Over(Completed) || phase == Over(Failure)
  }

  /** And the attempt looks for the end only when the whole route is released. */
  ghost predicate AttemptOk(a: Attempt) {
    && BookOk(a)
    && (a.phase == AwaitingDecisionPoint ==> a.released < a.plan.Total())
    && (LooksForEnd(a.phase) ==> a.released == a.plan.Total())
  }

  lemma ExtendedBook(a: Attempt)
    requires BookOk(a) && a.released < a.plan.Total()
    ensures BookOk(Extended(a))
  {
    StepwiseNext(a.plan, a.step, a.updateId);
  }

  lemma OnwardOk(a: Attempt)
    requires BookOk(a)
    ensures AttemptOk(Onward(a))
  {
  }

  lemma PhaseOk(a: Attempt, phase: Phase)
    requires AttemptOk(a) && phase != AwaitingDecisionPoint
    requires LooksForEnd(phase) ==> a.released == a.plan.Total()
    ensures AttemptOk(a.(phase := phase))
  {
  }

  lemma ReleaseIsOk(a: Attempt)
    requires AttemptOk(a) && a.phase == AwaitingDecisionPoint
    ensures AttemptOk(Onward(Extended(a)))
  {
    ExtendedBook(a);
    OnwardOk(Extended(a));
  }

  lemma EndingIsOk(a: Attempt, s: Snapshot)
    requires AttemptOk(a) && (a.phase == AwaitingEnd || a.phase == AwaitingFinal)
    ensures AttemptOk(Observed(a, s)) && Observed(a, s).plan == a.plan
  {
    PhaseOk(a, Observed(a, s).phase);
  }

  lemma ObservedIsOk(a: Attempt, s: Snapshot)
    requires AttemptOk(a)
    ensures AttemptOk(Observed(a, s)) && Observed(a, s).plan == a.plan
  {
    match a.phase
    case AwaitingVerdict =>
      OnwardOk(a);
      PhaseOk(a, Over(Rejected));
    case AwaitingDecisionPoint => ReleaseIsOk(a);
    case AwaitingEnd => EndingIsOk(a, s);
    case AwaitingFinal => EndingIsOk(a, s);
    case Over(_) =>
  }

  lemma ObservedSends(a: Attempt, s: Snapshot)
    requires a.plan.Valid() && 1 <= a.released <= a.plan.Total()
    ensures var a' := Observed(a, s);
            if a'.updateId == a.updateId then forall i | 0 <= i < |Sends(a, s)| :: Sends(a, s)[i].SkipRetrySent?
            else a'.updateId == a.updateId + 1 && Sends(a, s) == [OrderSent(Message(a.plan, a'.updateId))]
  {
  }

  /** It concludes from a state that shows every action finished or failed, and calls it a failure
      exactly if one is shown failed. */
  lemma ConclusionIsShown(a: Attempt, s: Snapshot)
    requires a.plan.Valid() && 1 <= a.released <= a.plan.Total() && !a.phase.Over?
    requires Observed(a, s).phase == Over(Completed) || Observed(a, s).phase == Over(Failure)
    ensures a.phase == AwaitingFinal || (a.phase == AwaitingEnd && SettledIn(a, s))
    ensures s.orderId == a.plan.orderId && AllShow(s, Work(a.plan), FINAL)
    ensures Observed(a, s).phase == Over(Failure) <==>
              exists i | 0 <= i < |Work(a.plan)| :: Shows(s, Work(a.plan)[i], {Failed})
  {
    forall i | 0 <= i < |Work(a.plan)| ensures Shows(s, Work(a.plan)[i], FINAL) {
      if a.phase == AwaitingEnd {
        assert !Shows(s, Work(a.plan)[i], {Retriable}) && Shows(s, Work(a.plan)[i], SETTLED);
      }
    }
  }

  lemma CompletionIsShown(a: Attempt, s: Snapshot)
    requires a.plan.Valid() && 1 <= a.released <= a.plan.Total() && !a.phase.Over?
    ensures Observed(a, s).phase == Over(Completed) ==>
              && s.orderId == a.plan.orderId
              && AllShow(s, Work(a.plan), {Finished})
              && forall i | 0 <= i < |Work(a.plan)| :: !Shows(s, Work(a.plan)[i], {Failed})
  {
  }

  /** Every state message keeps the bookkeeping. What goes out is the update that is due, and
      nothing once the outcome is known; completion needs every action shown finished. */
  lemma ObservedKeeps(a: Attempt, s: Snapshot)
    requires AttemptOk(a)
    ensures AttemptOk(Observed(a, s))
    ensures var a' := Observed(a, s);
            if a'.updateId == a.updateId then forall i | 0 <= i < |Sends(a, s)| :: Sends(a, s)[i].SkipRetrySent?
            else a'.updateId == a.updateId + 1 && Sends(a, s) == [OrderSent(Message(a.plan, a'.updateId))]
    ensures a.phase.Over? ==> Observed(a, s) == a && Sends(a, s) == []
    ensures Observed(a, s).phase == Over(Completed) && !a.phase.Over? ==>
              && s.orderId == a.plan.orderId
              && AllShow(s, Work(a.plan), {Finished})
              && forall i | 0 <= i < |Work(a.plan)| :: !Shows(s, Work(a.plan)[i], {Failed})
  {
    ObservedIsOk(a, s);
    ObservedSends(a, s);
    if !a.phase.Over? { CompletionIsShown(a, s); }
  }

  // ---------------------------------------------- what it makes of a message

  /** A state in which no order but this one is being driven and no error is about it. */
  predicate Approves(orderId: string, s: Snapshot) { s.orderId == orderId && orderId !in s.refused }

  predicate Names(orderId: string, s: Snapshot) { s.orderId == orderId || orderId in s.refused }

  /** The first answer decides: approval starts the wait for the next release, or for the end if the
      whole route is released already; anything else about the order is a rejection. */
  lemma VerdictIsExact(a: Attempt, s: Snapshot)
    requires AttemptOk(a) && a.phase == AwaitingVerdict
    ensures Observed(a, s).phase == AwaitingVerdict <==> !Names(a.plan.orderId, s)
    ensures Observed(a, s).phase == AwaitingDecisionPoint <==>
              Approves(a.plan.orderId, s) && a.released < |a.plan.mission.waypoints|
    ensures Observed(a, s).phase == AwaitingEnd <==>
              Approves(a.plan.orderId, s) && a.released == |a.plan.mission.waypoints|
    ensures Observed(a, s).phase == Over(Rejected) <==>
              Names(a.plan.orderId, s) && !Approves(a.plan.orderId, s)
    ensures Observed(a, s) == a.(phase := Observed(a, s).phase) && Sends(a, s) == []
  {
  }

  /** The attempt is accepted and goes on. */
  predicate UnderRelease(a: Attempt) {
    a.phase != AwaitingVerdict && !a.phase.Over? && a.released < |a.plan.mission.waypoints|
  }

  /** The robot has come to the last released waypoint, or asks for more. */
  predicate WantsMore(a: Attempt, s: Snapshot)
    requires 1 <= a.released <= |a.plan.mission.waypoints|
  {
    && s.orderId == a.plan.orderId
    && (s.newBaseRequest || s.lastNodeId == a.plan.mission.waypoints[a.released - 1].nodeId)
  }

  /** Which frees `step` more waypoints, as far as there are any, and keeps the count. */
  predicate Releases(a: Attempt, a': Attempt) {
    && a'.plan == a.plan && a'.step == a.step && a'.updateId == a.updateId + 1
    && a.released < a'.released <= |a.plan.mission.waypoints|
    && (a'.released == a.released + a.step || a'.released == |a.plan.mission.waypoints| < a.released + a.step)
    && a'.phase == (if a'.released == |a.plan.mission.waypoints| then AwaitingEnd else AwaitingDecisionPoint)
  }

  /** While waypoints are unreleased a state sends the next message exactly if it wants more, and that
      message starts at the waypoint released last; nothing else happens then. */
  lemma ReleaseIsExact(a: Attempt, s: Snapshot)
    requires AttemptOk(a) && UnderRelease(a)
    ensures WantsMore(a, s) ==>
              && Releases(a, Observed(a, s)) && Sends(a, s) == [OrderSent(Message(a.plan, a.updateId + 1))]
              && Message(a.plan, a.updateId + 1).updateId == a.updateId + 1
              && TellsRoute(Message(a.plan, a.updateId + 1), a.plan.mission, a.plan.v2,
                            a.released - 1, Observed(a, s).released)
    ensures !WantsMore(a, s) ==> Observed(a, s) == a && Sends(a, s) == []
  {
    if WantsMore(a, s) {
      NextTellsRoute(a);
      NextReleases(a);
    }
  }

  lemma NextTellsRoute(a: Attempt)
    requires AttemptOk(a) && a.released < a.plan.Total()
    ensures var o := Message(a.plan, a.updateId + 1);
            && o.updateId == a.updateId + 1
            && TellsRoute(o, a.plan.mission, a.plan.v2, a.released - 1, Capped(a.released + a.step, a.plan.Total()))
  {
    var i := a.updateId + 1;
    StepwiseNext(a.plan, a.step, a.updateId);
    OrderTellsRoute(a.plan.mission, a.plan.v2, a.plan.orderId, i, Released(a.plan, i), Start(a.plan, i));
  }

  lemma NextReleases(a: Attempt)
    requires AttemptOk(a) && a.released < a.plan.Total()
    ensures Releases(a, Onward(Extended(a)))
  {
    StepwiseIsStrict(a.plan.mission, a.plan.v2, a.plan.orderId, a.step);
  }

  /** The state is of this order, nothing is ahead of the robot, and every action of the mission is shown
      in one of the statuses. */
  ghost predicate ShowsAll(a: Attempt, s: Snapshot, statuses: set<Status>) {
    && s.orderId == a.plan.orderId
    && forall i | 0 <= i < |Work(a.plan)| ::
         Entered(s, Work(a.plan)[i], statuses)
  }

  ghost predicate Entered(s: Snapshot, id: string, statuses: set<Status>) {
    exists e :: 0 <= e < |s.actions| && s.actions[e].id == id && s.actions[e].status in statuses
  }

  /** The wait for the end goes on exactly until a state has nothing ahead and shows every action finished,
      failed or waiting for a retry; after a skip, until it shows every one finished or failed. */
  lemma WaitsExactly(a: Attempt, s: Snapshot)
    requires AttemptOk(a)
    ensures a.phase == AwaitingEnd ==>
              (Observed(a, s) == a <==>
                 !(s.nodeStates == [] && s.edgeStates == [] && ShowsAll(a, s, {Finished, Failed, Retriable})))
    ensures a.phase == AwaitingFinal ==> (Observed(a, s) == a <==> !ShowsAll(a, s, {Finished, Failed}))
    ensures Observed(a, s) == a ==> Sends(a, s) == []
  {
    AllShowExactly(a, s, SETTLED);
    AllShowExactly(a, s, FINAL);
  }

  lemma AllShowExactly(a: Attempt, s: Snapshot, statuses: set<Status>)
    ensures ShowsAll(a, s, statuses) <==> s.orderId == a.plan.orderId && AllShow(s, Work(a.plan), statuses)
  {
    forall id ensures Entered(s, id, statuses) <==> Shows(s, id, statuses) {}
  }

  // ------------------------------------------------------- whole attempts

  /** The attempt after one state message after the other. */
  ghost function Watched(a: Attempt, states: seq<Snapshot>): (a': Attempt)
    requires AttemptOk(a)
    ensures AttemptOk(a')
    decreases |states|
  {
    if states == [] then a
    else
      ObservedIsOk(a, states[0]);
      Watched(Observed(a, states[0]), states[1..])
  }

  ghost predicate FirstNaming(orderId: string, states: seq<Snapshot>, i: int) {
    0 <= i < |states| && Names(orderId, states[i]) && forall j | 0 <= j < i :: !Names(orderId, states[j])
  }

  lemma {:induction false} NoLateRejection(a: Attempt, states: seq<Snapshot>)
    requires AttemptOk(a) && a.phase != AwaitingVerdict && a.phase != Over(Rejected)
    ensures Watched(a, states).phase != Over(Rejected)
    decreases |states|
  {
    if states != [] {
      ObservedIsOk(a, states[0]);
      NoLateRejection(Observed(a, states[0]), states[1..]);
    }
  }

  lemma {:induction false} DecidedStays(a: Attempt, states: seq<Snapshot>)
    requires AttemptOk(a) && a.phase.Over?
    ensures Watched(a, states) == a
    decreases |states|
  {
    if states != [] { DecidedStays(a, states[1..]); }
  }

  lemma NamingShifts(orderId: string, states: seq<Snapshot>, i: int)
    requires states != [] && !Names(orderId, states[0])
    ensures FirstNaming(orderId, states, i) <==> i > 0 && FirstNaming(orderId, states[1..], i - 1)
  {
    if i > 0 && FirstNaming(orderId, states[1..], i - 1) {
      forall j | 0 <= j < i ensures !Names(orderId, states[j]) {
        if j > 0 { assert states[j] == states[1..][j - 1]; }
      }
    }
    if FirstNaming(orderId, states, i) {
      assert forall j | 0 <= j < i - 1 :: states[1..][j] == states[j + 1];
    }
  }

  lemma ShiftedNaming(orderId: string, states: seq<Snapshot>)
    requires states != [] && !Names(orderId, states[0])
    ensures (exists i :: FirstNaming(orderId, states, i) && !Approves(orderId, states[i])) <==>
            exists i :: FirstNaming(orderId, states[1..], i) && !Approves(orderId, states[1..][i])
  {
    if i :| FirstNaming(orderId, states, i) && !Approves(orderId, states[i]) {
      NamingShifts(orderId, states, i);
      assert states[1..][i - 1] == states[i];
    }
    if i :| FirstNaming(orderId, states[1..], i) && !Approves(orderId, states[1..][i]) {
      NamingShifts(orderId, states, i + 1);
      assert states[1..][i] == states[i + 1];
    }
  }

  /** An attempt is rejected if and only if the first state that names its order, as the robot's own or
      in an error, does not approve of it. */
  lemma {:induction false} RejectedExactly(a: Attempt, states: seq<Snapshot>)
    requires AttemptOk(a) && a.phase == AwaitingVerdict
    ensures Watched(a, states).phase == Over(Rejected) <==>
              exists i :: FirstNaming(a.plan.orderId, states, i) && !Approves(a.plan.orderId, states[i])
    decreases |states|
  {
    if states != [] {
      VerdictIsExact(a, states[0]);
      ObservedIsOk(a, states[0]);
      var a', rest := Observed(a, states[0]), states[1..];
      if Names(a.plan.orderId, states[0]) {
        assert FirstNaming(a.plan.orderId, states, 0);
        assert forall i :: FirstNaming(a.plan.orderId, states, i) ==> i == 0;
        if Approves(a.plan.orderId, states[0]) { NoLateRejection(a', rest); } else { DecidedStays(a', rest); }
      } else {
        RejectedExactly(a', rest);
        ShiftedNaming(a.plan.orderId, states);
      }
    }
  }

  lemma AttemptIsStrict(a: Attempt)
    requires AttemptOk(a)
    ensures a.plan.Strict()
  {
    StepwiseIsStrict(a.plan.mission, a.plan.v2, a.plan.orderId, a.step);
  }

  /** `_drive` as the object its waits leave behind. */
  class DriveAttempt {
    const mission: Mission
    const v2: bool
    const orderId: string
    const step: int
    var released: int
    var updateId: nat
    var phase: Phase

    ghost function Now(): Attempt
      reads this
    {
      Attempt(StepwisePlan(mission, v2, orderId, step), step, released, updateId, phase)
    }

    /** `release` waypoints at a time; without one, or with 0, the whole route at once. */
    constructor (mission: Mission, v2: bool, orderId: string, release: Option<int>)
      ensures this.mission == mission && this.v2 == v2 && this.orderId == orderId
      ensures step == if release.Some? && release.value != 0 then release.value else |mission.waypoints|
      ensures released == step && updateId == 0 && phase == AwaitingVerdict
      ensures Now().plan.Valid() ==> AttemptOk(Now())
    {
      this.mission, this.v2, this.orderId := mission, v2, orderId;
      var first := if release.Some? && release.value != 0 then release.value else |mission.waypoints|;
      step, released, updateId, phase := first, first, 0, AwaitingVerdict;
      StepwiseIsStrict(mission, v2, orderId, first);
    }

    /** Compiles the first message; a release out of range ends the attempt before it starts. */
    method Begin() returns (first: Result<Order>)
      requires |mission.waypoints| >= 1 && released == step && updateId == 0 && phase == AwaitingVerdict
      modifies this`phase
      ensures first.Ok? <==> Now().plan.Valid()
      ensures first.Ok? ==> Now() == old(Now()) && first == Ok(Message(Now().plan, 0))
      ensures !first.Ok? ==> phase == Over(Failure)
    {
      StepwiseIsStrict(mission, v2, orderId, step);
      first := InitialOrder(mission, v2, orderId, Some(released));
      if !first.Ok? { phase := Over(Failure); }
    }

    method FindShown(s: Snapshot, id: string, allowed: set<Status>) returns (found: bool)
      ensures found == Shows(s, id, allowed)
    {
      for i := 0 to |s.actions|
        invariant forall k | 0 <= k < i :: !(s.actions[k].id == id && s.actions[k].status in allowed)
      {
        if s.actions[i].id == id && s.actions[i].status in allowed { return true; }
      }
      return false;
    }

    method FindAllShown(s: Snapshot, ids: seq<string>, allowed: set<Status>) returns (all: bool)
      ensures all == AllShow(s, ids, allowed)
    {
      for i := 0 to |ids|
        invariant forall k | 0 <= k < i :: Shows(s, ids[k], allowed)
      {
        var found := FindShown(s, ids[i], allowed);
        if !found { return false; }
      }
      return true;
    }

    method CollectShown(s: Snapshot, ids: seq<string>, allowed: set<Status>) returns (shown: seq<string>)
      ensures shown == Showing(s, ids, allowed)
    {
      shown := [];
      for i := 0 to |ids|
        invariant shown == Showing(s, ids[..i], allowed)
      {
        assert ids[..i + 1][..i] == ids[..i];
        var found := FindShown(s, ids[i], allowed);
        if found { shown := shown + [ids[i]]; }
      }
      assert ids[..|ids|] == ids;
    }

    method IsSettled(s: Snapshot) returns (settled: bool)
      ensures settled == SettledIn(Now(), s)
    {
      if s.orderId != orderId || s.nodeStates != [] || s.edgeStates != [] { return false; }
      settled := FindAllShown(s, Work(StepwisePlan(mission, v2, orderId, step)), SETTLED);
    }

    method Conclude(s: Snapshot)
      modifies this`phase
      ensures Now() == Concluded(old(Now()), s)
    {
      var failed := CollectShown(s, Work(StepwisePlan(mission, v2, orderId, step)), {Failed});
      phase := Over(if failed != [] then Failure else Completed);
    }

    method Proceed()
      modifies this`phase
      ensures Now() == Onward(old(Now()))
    {
      phase := if released < |mission.waypoints| then AwaitingDecisionPoint else AwaitingEnd;
    }

    /** One turn of the release loop: extend the base and compile the update for it. */
    method Extend() returns (update: Order)
      requires AttemptOk(Now()) && phase == AwaitingDecisionPoint
      modifies this`released, this`updateId
      ensures Now() == Extended(old(Now()))
      ensures update == Message(old(Now().plan), updateId)
    {
      StepwiseNext(Now().plan, step, updateId);
      MessagesAreCompiled(Now().plan, updateId + 1);
      var previous := released;
      released := if released + step <= |mission.waypoints| then released + step else |mission.waypoints|;
      updateId := updateId + 1;
      var compiled := Update(mission, v2, orderId, updateId, previous, Some(released));
      update := compiled.value;
    }

    /** The wait for the end is over: ask for retries to be skipped, or conclude. */
    method Settle(s: Snapshot) returns (sent: seq<Sent>)
      requires AttemptOk(Now()) && phase == AwaitingEnd && SettledIn(Now(), s)
      modifies this`phase
      ensures Now() == Observed(old(Now()), s) && sent == Sends(old(Now()), s)
    {
      var stuck := CollectShown(s, Work(StepwisePlan(mission, v2, orderId, step)), {Retriable});
      sent := [];
      for i := 0 to |stuck|
        invariant sent == SkipRetries(stuck)[..i]
      {
        sent := sent + [SkipRetrySent(stuck[i])];
      }
      if stuck != [] { phase := AwaitingFinal; } else { Conclude(s); }
    }

    method OnState(s: Snapshot) returns (sent: seq<Sent>)
      requires AttemptOk(Now())
      modifies this
      ensures Now() == Observed(old(Now()), s) && sent == Sends(old(Now()), s)
      ensures AttemptOk(Now())
    {
      ObservedKeeps(Now(), s);
      sent := [];
      match phase {
        case AwaitingVerdict =>
          if s.orderId != orderId && orderId !in s.refused { return; }
          if s.orderId != orderId || orderId in s.refused { phase := Over(Rejected); } else { Proceed(); }
        case AwaitingDecisionPoint =>
          if s.orderId == orderId && (s.lastNodeId == mission.waypoints[released - 1].nodeId || s.newBaseRequest) {
            var update := Extend();
            sent := [OrderSent(update)];
            Proceed();
          }
        case AwaitingEnd =>
          var settled := IsSettled(s);
          if settled { sent := Settle(s); }
        case AwaitingFinal =>
          if s.orderId == orderId {
            var final := FindAllShown(s, Work(StepwisePlan(mission, v2, orderId, step)), FINAL);
            if final { Conclude(s); }
          }
        case Over(_) =>
      }
    }
  }
}
