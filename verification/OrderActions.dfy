/** The action list of a mission on the robot: through every update it is the mission's action
    ids, in the mission's order. */
module OrderActions {
  import opened Vda5050
  import opened OrderAcceptance
  import opened Missions
  import opened Actions
  import opened RobotModel
  import opened RobotInvariants
  import opened OrderChain

  function IdsOf(table: seq<Run>, listed: seq<nat>): seq<string>
    requires forall i | 0 <= i < |listed| :: listed[i] < |table|
  {
    seq(|listed|, i requires 0 <= i < |listed| => table[listed[i]].action.id)
  }

  /** The action ids the state message reports for the order. */
  function ListedIds(r: Robot): seq<string>
    requires RefsOk(r)
  {
    IdsOf(r.engine.table, r.actionStates)
  }

  function ItemIds(items: seq<Item>): seq<string> {
    seq(|items|, i requires 0 <= i < |items| => items[i].action.id)
  }

  ghost predicate DistinctIds(ids: seq<string>) {
    forall i, j | 0 <= i < j < |ids| :: ids[i] != ids[j]
  }

  // ----------------------------------------------------------- mission ids

  lemma {:induction false} WorkIdsSplit(m: Mission, from: nat, mid: nat, to: nat)
    requires from <= mid <= to <= |m.waypoints|
    ensures WorkIds(m, from, to) == WorkIds(m, from, mid) + WorkIds(m, mid, to)
    decreases |m.waypoints| - from
  {
    if from < mid { WorkIdsSplit(m, from + 1, mid, to); }
  }

  lemma {:induction false} WorkIdOf(m: Mission, from: nat, to: nat, i: nat, a: Action)
    requires from <= i < to <= |m.waypoints| && a in m.waypoints[i].actions
    ensures a.id in WorkIds(m, from, to)
    decreases |m.waypoints| - from
  {
    var ids := ActionIds(m.waypoints[from].actions);
    if i == from {
      var k :| 0 <= k < |m.waypoints[from].actions| && m.waypoints[from].actions[k] == a;
      assert ids[k] == a.id;
    } else {
      WorkIdOf(m, from + 1, to, i, a);
    }
  }

  lemma {:induction false} WorkIdFrom(m: Mission, from: nat, to: nat, id: string) returns (i: nat, a: Action)
    requires from <= to <= |m.waypoints| && id in WorkIds(m, from, to)
    ensures from <= i < to && a in m.waypoints[i].actions && a.id == id
    decreases |m.waypoints| - from
  {
    var actions := m.waypoints[from].actions;
    if id in ActionIds(actions) {
      var k :| 0 <= k < |actions| && ActionIds(actions)[k] == id;
      i, a := from, actions[k];
    } else {
      i, a := WorkIdFrom(m, from + 1, to, id);
    }
  }

  lemma {:induction false} NodeItemIds(m: Mission, v2: bool, release: int, from: nat, count: nat)
    requires from + count <= |m.waypoints|
    ensures ItemIds(NodeItems(NodesFrom(m, v2, release, from)[..count])) == WorkIds(m, from, from + count)
  {
    var nodes := NodesFrom(m, v2, release, from);
    if count > 0 {
      var init, last, w := nodes[..count - 1], nodes[count - 1], m.waypoints[from + count - 1].actions;
      SentNode(m, v2, release, from, from + count - 1);
      assert nodes[..count][..count - 1] == init && nodes[..count][count - 1] == last;
      assert NodeItems(nodes[..count]) == NodeItems(init) + Items(w, OnNode, last.seqId);
      assert ItemIds(NodeItems(init) + Items(w, OnNode, last.seqId)) == ItemIds(NodeItems(init)) + ActionIds(w);
      NodeItemIds(m, v2, release, from, count - 1);
      WorkIdsSplit(m, from, from + count - 1, from + count);
      assert WorkIds(m, from + count - 1, from + count) == ActionIds(w) + WorkIds(m, from + count, from + count);
    }
  }

  lemma {:induction false} NoEdgeItems(edges: seq<Edge>)
    requires forall i | 0 <= i < |edges| :: edges[i].actions == []
    ensures EdgeItems(edges) == []
  {
    if edges != [] { NoEdgeItems(edges[..|edges| - 1]); }
  }

  /** What a message registers from waypoint `from` on. */
  lemma SentItemIds(m: Mission, v2: bool, release: int, from: nat)
    requires from < |m.waypoints|
    ensures ItemIds(NodeItems(NodesFrom(m, v2, release, from)) + EdgeItems(EdgesFrom(m, v2, release, from)))
         == WorkIds(m, from, |m.waypoints|)
  {
    var nodes := NodesFrom(m, v2, release, from);
    assert nodes[..|nodes|] == nodes;
    NodeItemIds(m, v2, release, from, |nodes|);
    var edges := EdgesFrom(m, v2, release, from);
    forall i | 0 <= i < |edges| ensures edges[i].actions == [] { SentEdge(m, v2, release, from, from + i); }
    NoEdgeItems(edges);
  }

  // ----------------------------------------------------------- registration

  lemma DistinctPrefix(ids: seq<string>, id: string)
    requires DistinctIds(ids + [id])
    ensures DistinctIds(ids) && id !in ids
  {
    var all := ids + [id];
    forall i | 0 <= i < |ids| ensures ids[i] != id { assert all[i] != all[|ids|]; }
    forall i, j | 0 <= i < j < |ids| ensures ids[i] != ids[j] { assert all[i] != all[j]; }
  }

  /** Actions with new, distinct ids are all listed, in order. */
  lemma {:induction false} RegisterNew(l: Ledger, items: seq<Item>)
    requires LedgerOk(l) && DistinctIds(ItemIds(items))
    requires forall i | 0 <= i < |items| :: items[i].origin != Instant && items[i].action.id !in l.runs
    ensures LedgerOk(RegisterAll(l, items))
    ensures IdsOf(RegisterAll(l, items).table, RegisterAll(l, items).listed)
              == IdsOf(l.table, l.listed) + ItemIds(items)
    ensures forall id | id in RegisterAll(l, items).runs :: id in l.runs || id in ItemIds(items)
  {
    RegisterAllOk(l, items);
    if items != [] {
      var init, last := items[..|items| - 1], items[|items| - 1];
      assert ItemIds(items) == ItemIds(init) + [last.action.id];
      DistinctPrefix(ItemIds(init), last.action.id);
      RegisterNew(l, init);
      RegisterOneMore(RegisterAll(l, init), last);
    }
  }

  lemma RegisterOneMore(l: Ledger, item: Item)
    requires LedgerOk(l) && item.origin != Instant && item.action.id !in l.runs
    ensures LedgerOk(Register(l, item))
    ensures IdsOf(Register(l, item).table, Register(l, item).listed) == IdsOf(l.table, l.listed) + [item.action.id]
  {
  }

  lemma {:induction false} KeepFirst(table: seq<Run>, listed: seq<nat>, removed: set<string>, cut: nat)
    requires forall i | 0 <= i < |listed| :: listed[i] < |table|
    requires cut <= |listed|
    requires forall i | 0 <= i < |listed| :: table[listed[i]].action.id in removed <==> i >= cut
    ensures KeepListed(table, listed, removed) == listed[..cut]
  {
    if listed != [] {
      var n := |listed| - 1;
      KeepFirst(table, listed[..n], removed, if cut <= n then cut else n);
      if cut <= n { assert listed[..n][..cut] == listed[..cut]; } else { assert listed == listed[..n] + [listed[n]]; }
    }
  }

  lemma {:induction false} NothingUnknown(actions: seq<Action>, known: set<string>)
    requires forall i | 0 <= i < |actions| :: actions[i].id in known
    ensures Unknown(actions, known) == []
  {
    if actions != [] { NothingUnknown(actions[..|actions| - 1], known); }
  }

  // ----------------------------------------------------------- order messages

  function Work(p: Plan): seq<string> { WorkIds(p.mission, 0, p.Total()) }

  /** No instant action goes by the id of a mission action. */
  ghost predicate Unclaimed(r: Robot, p: Plan)
    requires RefsOk(r)
  {
    forall id | id in r.runs && r.engine.table[r.runs[id]].origin == Instant :: id !in Work(p)
  }

  lemma ResetLedgerOk(r: Robot)
    requires RefsOk(r) && ListedOk(r)
    ensures LedgerOk(Ledger(ResetForOrder(r.engine, r.runs.Values).table, InstantRuns(r), []))
  {
  }

  lemma SentOrigins(o: Order, items: seq<Item>)
    requires items == NodeItems(o.nodes) + EdgeItems(o.edges)
    ensures forall i | 0 <= i < |items| :: items[i].origin != Instant
  {
    NodeItemsOrigin(o.nodes);
    EdgeItemsOrigin(o.edges);
  }

  lemma ItemsAreNew(r: Robot, p: Plan, items: seq<Item>)
    requires RefsOk(r) && Unclaimed(r, p) && ItemIds(items) == Work(p)
    ensures forall i | 0 <= i < |items| :: items[i].action.id !in InstantRuns(r)
  {
    forall i | 0 <= i < |items| ensures items[i].action.id !in InstantRuns(r) {
      assert ItemIds(items)[i] in Work(p);
    }
  }

  lemma FreshLedgerIds(r: Robot, p: Plan)
    requires p.Valid() && RefsOk(r) && ListedOk(r) && Unclaimed(r, p) && DistinctIds(Work(p))
    ensures LedgerOk(FreshLedger(r, Message(p, 0)))
    ensures IdsOf(FreshLedger(r, Message(p, 0)).table, FreshLedger(r, Message(p, 0)).listed) == Work(p)
  {
    var o := Message(p, 0);
    var items := NodeItems(o.nodes) + EdgeItems(o.edges);
    var start := Ledger(ResetForOrder(r.engine, r.runs.Values).table, InstantRuns(r), []);
    assert ItemIds(items) == Work(p) by { SentItemIds(p.mission, p.v2, Released(p, 0), 0); }
    SentOrigins(o, items);
    ItemsAreNew(r, p, items);
    assert LedgerOk(start) by { ResetLedgerOk(r); }
    RegisterNew(start, items);
  }

  lemma LedgerOfFresh(r: Robot, o: Order, s: Surroundings)
    requires RefsOk(r) && Decide(r, o, s).Accept? && (!r.hasOrder || r.orderId != o.orderId)
    ensures var r' := OnOrder(r, o, s);
            RefsOk(r') && Ledger(r'.engine.table, r'.runs, r'.actionStates) == FreshLedger(r, o)
  {
    FreshOutcome(r, o, s);
    AcceptedIsFresh(r, o, s);
    LaidOutRefs(r, o);
    EnqueueKeeps(LaidOut(r, o), o.nodes[0].actions);
  }

  lemma AcceptedIsFresh(r: Robot, o: Order, s: Surroundings)
    requires RefsOk(r) && Decide(r, o, s).Accept? && (!r.hasOrder || r.orderId != o.orderId)
    ensures !Decide(r, o, s).isUpdate
  {
    AcceptanceIsExact(o, SituationOf(r, s));
  }

  lemma LedgerOfUpdate(r: Robot, o: Order, s: Surroundings)
    requires RefsOk(r) && Decide(r, o, s).Accept? && r.hasOrder && r.orderId == o.orderId
    ensures var r' := OnOrder(r, o, s);
            |o.nodes| >= 1 && RefsOk(r') && Ledger(r'.engine.table, r'.runs, r'.actionStates) == UpdateLedger(r, o)
  {
    UpdateOutcome(r, o, s);
    UpdatedRefs(r, o);
  }

  lemma FreshOrderLists(r: Robot, p: Plan, o: Order, s: Surroundings)
    requires p.Valid() && RefsOk(r) && ListedOk(r) && Unclaimed(r, p) && DistinctIds(Work(p))
    requires Unadopted(r, p) && o == Message(p, 0) && Decide(r, o, s).Accept?
    ensures RefsOk(OnOrder(r, o, s)) && ListedIds(OnOrder(r, o, s)) == Work(p)
  {
    LedgerOfFresh(r, o, s);
    FreshLedgerIds(r, p);
  }

  /** The actions an update replaces are those of the waypoints beyond its start. */
  lemma HorizonIsWork(r: Robot, p: Plan, release: int, from: nat)
    requires Route(r.nodes, r.edges, p, release) && from < p.Total()
    ensures forall id :: id in HorizonIds(r, NodeNumber(0, from)) <==> id in WorkIds(p.mission, from + 1, p.Total())
  {
    forall k, a | k in r.nodes && k > NodeNumber(0, from) && a in r.nodes[k].actions
      ensures a.id in WorkIds(p.mission, from + 1, p.Total())
    {
      assert k in NodeKeys(0, p.Total());
      var i :| 0 <= i < p.Total() && k == NodeNumber(0, i);
      WorkIdOf(p.mission, from + 1, p.Total(), i, a);
    }
    forall k | k in r.edges ensures r.edges[k].edge.actions == [] {
      assert k in EdgeKeys(0, p.Total() - 1);
    }
    forall id | id in WorkIds(p.mission, from + 1, p.Total()) ensures id in HorizonIds(r, NodeNumber(0, from)) {
      var i, a := WorkIdFrom(p.mission, from + 1, p.Total(), id);
      assert r.nodes[NodeNumber(0, i)] == NodeAt(p.mission, p.v2, release, i);
      assert NodeNumber(0, i) > NodeNumber(0, from) && a in r.nodes[NodeNumber(0, i)].actions;
    }
  }

  lemma DistinctParts(a: seq<string>, b: seq<string>)
    requires DistinctIds(a + b)
    ensures DistinctIds(b) && forall id | id in a :: id !in b
  {
    var all := a + b;
    forall i, j | 0 <= i < |a| && 0 <= j < |b| ensures a[i] != b[j] { assert all[i] != all[|a| + j]; }
    forall i, j | 0 <= i < j < |b| ensures b[i] != b[j] { assert all[|a| + i] != all[|a| + j]; }
  }

  lemma KeepFirstIds(table: seq<Run>, listed: seq<nat>, kept: seq<string>, dropped: seq<string>, removed: set<string>)
    requires forall i | 0 <= i < |listed| :: listed[i] < |table|
    requires IdsOf(table, listed) == kept + dropped
    requires (forall id | id in kept :: id !in removed) && (forall id | id in dropped :: id in removed)
    ensures IdsOf(table, KeepListed(table, listed, removed)) == kept
  {
    forall i | 0 <= i < |listed| ensures table[listed[i]].action.id in removed <==> i >= |kept| {
      assert IdsOf(table, listed)[i] == (kept + dropped)[i];
    }
    KeepFirst(table, listed, removed, |kept|);
    assert IdsOf(table, listed[..|kept|]) == IdsOf(table, listed)[..|kept|];
  }

  /** Forgetting the horizon keeps the actions up to waypoint `from`, in order. */
  lemma PrunedIds(r: Robot, p: Plan, release: int, from: nat)
    requires RefsOk(r) && ListedOk(r) && Route(r.nodes, r.edges, p, release) && from < p.Total()
    requires ListedIds(r) == Work(p) && DistinctIds(Work(p))
    ensures LedgerOk(PrunedLedger(r, NodeNumber(0, from)))
    ensures IdsOf(r.engine.table, PrunedLedger(r, NodeNumber(0, from)).listed) == WorkIds(p.mission, 0, from + 1)
    ensures forall id | id in WorkIds(p.mission, from + 1, p.Total()) ::
              id !in PrunedLedger(r, NodeNumber(0, from)).runs
  {
    var kept, dropped := WorkIds(p.mission, 0, from + 1), WorkIds(p.mission, from + 1, p.Total());
    assert Work(p) == kept + dropped by { WorkIdsSplit(p.mission, 0, from + 1, p.Total()); }
    DistinctParts(kept, dropped);
    HorizonIsWork(r, p, release, from);
    assert LedgerOk(PrunedLedger(r, NodeNumber(0, from))) by { PrunedLedgerOk(r, NodeNumber(0, from)); }
    KeepFirstIds(r.engine.table, r.actionStates, kept, dropped, HorizonIds(r, NodeNumber(0, from)));
  }

  /** A compiled update adds nothing to its stitch node. */
  lemma NothingOnStitch(r: Robot, p: Plan, j: nat, i: nat)
    requires p.Valid() && RefsOk(r) && Route(r.nodes, r.edges, p, Released(p, j)) && Follows(p, j, i)
    ensures StitchActions(r, Message(p, i)) == []
  {
    var o, start := Message(p, i), Start(p, i);
    SentNode(p.mission, p.v2, Released(p, i), start, start);
    assert r.nodes[NodeNumber(0, start)] == NodeAt(p.mission, p.v2, Released(p, j), start);
    var actions := p.mission.waypoints[start].actions;
    NothingUnknown(actions, set a | a in actions :: a.id);
  }

  lemma UpdateItemIds(p: Plan, i: nat)
    requires p.Valid() && Sendable(p, i)
    ensures ItemIds(NodeItems(Message(p, i).nodes[1..])) == WorkIds(p.mission, Start(p, i) + 1, p.Total())
  {
    var nodes, start, release := Message(p, i).nodes, Start(p, i), Released(p, i);
    assert nodes[1..] == NodesFrom(p.mission, p.v2, release, start + 1);
    assert nodes[1..][..|nodes| - 1] == nodes[1..];
    NodeItemIds(p.mission, p.v2, release, start + 1, |nodes| - 1);
  }

  lemma UpdateEdgeItems(p: Plan, i: nat)
    requires p.Valid() && Sendable(p, i)
    ensures EdgeItems(Message(p, i).edges) == []
  {
    var edges, start, release := Message(p, i).edges, Start(p, i), Released(p, i);
    forall i | 0 <= i < |edges| ensures edges[i].actions == [] { SentEdge(p.mission, p.v2, release, start, start + i); }
    NoEdgeItems(edges);
  }

  lemma UpdateLedgerIs(r: Robot, p: Plan, j: nat, i: nat)
    requires p.Valid() && RefsOk(r) && Route(r.nodes, r.edges, p, Released(p, j)) && Follows(p, j, i)
    ensures UpdateLedger(r, Message(p, i))
         == RegisterAll(PrunedLedger(r, NodeNumber(0, Start(p, i))), NodeItems(Message(p, i).nodes[1..]))
  {
    var o, start, release := Message(p, i), Start(p, i), Released(p, i);
    SentNode(p.mission, p.v2, release, start, start);
    NothingOnStitch(r, p, j, i);
    UpdateEdgeItems(p, i);
    assert Items([], OnNode, NodeNumber(0, start)) == [];
    assert NodeItems(o.nodes[1..]) + [] == NodeItems(o.nodes[1..]);
  }

  lemma UpdateLedgerIds(r: Robot, p: Plan, j: nat, i: nat)
    requires p.Valid() && RefsOk(r) && ListedOk(r) && Route(r.nodes, r.edges, p, Released(p, j)) && Follows(p, j, i)
    requires ListedIds(r) == Work(p) && DistinctIds(Work(p))
    ensures LedgerOk(UpdateLedger(r, Message(p, i)))
    ensures IdsOf(UpdateLedger(r, Message(p, i)).table, UpdateLedger(r, Message(p, i)).listed) == Work(p)
  {
    var o, start := Message(p, i), Start(p, i);
    UpdateLedgerIs(r, p, j, i);
    UpdateItemIds(p, i);
    PrunedIds(r, p, Released(p, j), start);
    WorkIdsSplit(p.mission, 0, start + 1, p.Total());
    DistinctParts(WorkIds(p.mission, 0, start + 1), WorkIds(p.mission, start + 1, p.Total()));
    NodeItemsOrigin(o.nodes[1..]);
    var items := NodeItems(o.nodes[1..]);
    forall i | 0 <= i < |items| ensures items[i].action.id !in PrunedLedger(r, NodeNumber(0, start)).runs {
      assert ItemIds(items)[i] in WorkIds(p.mission, start + 1, p.Total());
    }
    RegisterNew(PrunedLedger(r, NodeNumber(0, start)), items);
  }

  lemma UpdateLists(r: Robot, p: Plan, o: Order, j: nat, i: nat, s: Surroundings)
    requires p.Valid() && RefsOk(r) && ListedOk(r) && Carries(r, p, j) && !Cleared(r) && Follows(p, j, i)
    requires o == Message(p, i) && Decide(r, o, s).Accept?
    requires ListedIds(r) == Work(p) && DistinctIds(Work(p))
    ensures RefsOk(OnOrder(r, o, s)) && ListedIds(OnOrder(r, o, s)) == Work(p)
  {
    LedgerOfUpdate(r, o, s);
    UpdateLedgerIds(r, p, j, i);
  }

  // ------------------------------------------------------------- other steps

  /** Runs keep their actions; only new runs are appended. */
  ghost predicate SameActions(e: EngineState, e': EngineState) {
    && |e.table| <= |e'.table|
    && forall k | 0 <= k < |e.table| ::
         e'.table[k].action == e.table[k].action && e'.table[k].origin == e.table[k].origin
  }

  lemma CancelKeepsActions(r: Robot, requested: Option<string>)
    requires RefsOk(r)
    ensures SameActions(r.engine, Cancel(r, requested).engine)
  {
  }

  lemma ManualKeepsActions(r: Robot)
    requires RefsOk(r)
    ensures SameActions(r.engine, SwitchToManual(r).engine)
  {
    var stopped := r.engine.(table := StopRuns(r.engine.table, r.runs.Values));
    assert SameActions(r.engine, stopped) && SameActions(stopped, CancelOrderActions(stopped));
  }

  lemma RunnerKeepsActions(e: EngineState, i: nat)
    requires Valid(e) && i < |e.runners|
    ensures SameActions(e, RunnerStep(e, i))
  {
  }

  lemma ArriveKeepsActions(r: Robot)
    requires RefsOk(r)
    ensures SameActions(r.engine, Arrive(r).engine)
  {
  }

  lemma HandlerKeepsActions(e: EngineState, k: nat, f: Run -> Run)
    requires k < |e.table| && f(e.table[k]).action == e.table[k].action && f(e.table[k]).origin == e.table[k].origin
    ensures SameActions(e, OnRun(e, k, f))
  {
  }

  lemma HandlersKeepActions(r: Robot, step: Step)
    requires RefsOk(r) && (step.HandlerReports? || step.HandlerEnds? || step.RetrySkips?)
    ensures SameActions(r.engine, Next(r, step).engine)
  {
    if step.run < |r.engine.table| { HandlerKeepsActions(r.engine, step.run, run => Handled(run, step)); }
  }

  lemma SetOffKeepsActions(r: Robot, mayDrive: bool)
    requires RefsOk(r)
    ensures SameActions(r.engine, SetOff(r, mayDrive).engine)
  {
  }

  lemma InstantKeepsActions(r: Robot, a: Action, supported: bool)
    requires RefsOk(r)
    ensures SameActions(r.engine, StartInstant(r, a, supported).engine)
  {
  }

  lemma StepKeepsActions(r: Robot, step: Step)
    requires RefsOk(r) && !step.Delivered?
    ensures SameActions(r.engine, Next(r, step).engine)
  {
    match step
    case CancelAsked(requested) => CancelKeepsActions(r, requested);
    case ManualAsked => ManualKeepsActions(r);
    case RunnerMoves(i) => if i < |r.engine.runners| { RunnerKeepsActions(r.engine, i); }
    case SettingOff(mayDrive) => SetOffKeepsActions(r, mayDrive);
    case Arrived => ArriveKeepsActions(r);
    case Rested =>
    case Abandoned =>
    case InstantAsked(a, supported) => InstantKeepsActions(r, a, supported);
    case _ => HandlersKeepActions(r, step);
  }

  // ------------------------------------------------------------- every run

  /** Instant actions do not reuse the id of a mission action. */
  ghost predicate OwnIds(p: Plan, step: Step) {
    step.InstantAsked? ==> step.action.id !in Work(p)
  }

  ghost predicate Lists(r: SoundRobot, p: Plan, k: nat) {
    if k == 0 then Unclaimed(r, p) else ListedIds(r) == Work(p)
  }

  lemma OtherStepsKeepRuns(r: Robot, step: Step)
    requires RefsOk(r) && !step.Delivered? && !step.InstantAsked?
    ensures Next(r, step).runs == r.runs
  {
    match step
    case CancelAsked(requested) =>
    case ManualAsked =>
    case RunnerMoves(i) =>
    case SettingOff(mayDrive) =>
    case Arrived =>
    case Rested =>
    case Abandoned =>
    case _ =>
  }

  lemma InstantAppends(r: Robot, a: Action, supported: bool)
    requires RefsOk(r)
    ensures var r' := StartInstant(r, a, supported);
            && SameActions(r.engine, r'.engine)
            && r'.runs == if a.id in r.runs then r.runs else r.runs[a.id := |r.engine.table|]
  {
  }

  lemma InstantStaysUnclaimed(r: Robot, r': Robot, p: Plan, id: string)
    requires RefsOk(r) && RefsOk(r') && Unclaimed(r, p) && id !in Work(p)
    requires SameActions(r.engine, r'.engine)
    requires r'.runs == r.runs || r'.runs == r.runs[id := |r.engine.table|]
    ensures Unclaimed(r', p)
  {
    forall other | other in r'.runs && r'.engine.table[r'.runs[other]].origin == Instant ensures other !in Work(p) {
      if other != id { assert other in r.runs; }
    }
  }

  lemma StaysUnclaimed(r: SoundRobot, p: Plan, step: Step)
    requires Unclaimed(r, p) && OwnIds(p, step) && !step.Delivered?
    ensures RobotOk(Next(r, step)) && Unclaimed(Next(r, step), p)
  {
    StepKeepsRobot(r, step);
    if step.InstantAsked? {
      InstantAppends(r, step.action, step.supported);
      InstantStaysUnclaimed(r, Next(r, step), p, step.action.id);
    } else {
      StepKeepsActions(r, step);
      OtherStepsKeepRuns(r, step);
    }
  }

  lemma SameListedIds(r: SoundRobot, r': SoundRobot)
    requires SameActions(r.engine, r'.engine) && r'.actionStates == r.actionStates
    ensures ListedIds(r') == ListedIds(r)
  {
  }

  lemma OtherStepsKeepList(r: SoundRobot, p: Plan, k: nat, step: Step)
    requires Lists(r, p, k) && OwnIds(p, step) && !step.Delivered?
    ensures RobotOk(Next(r, step)) && Lists(Next(r, step), p, k)
  {
    StepKeepsRobot(r, step);
    if k == 0 {
      StaysUnclaimed(r, p, step);
    } else {
      StepKeepsActions(r, step);
      OtherStepsKeepOrder(r, step);
      SameListedIds(r, Next(r, step));
    }
  }

  lemma FirstLists(r: SoundRobot, p: Plan, o: Order, s: Surroundings, r': SoundRobot)
    requires p.Valid() && TookUp(r, p, 0) && Lists(r, p, 0) && DistinctIds(Work(p))
    requires o == Message(p, 0) && Decide(r, o, s).Accept? && r' == OnOrder(r, o, s)
    ensures ListedIds(r') == Work(p)
  {
    FreshOrderLists(r, p, o, s);
  }

  lemma NextLists(r: SoundRobot, p: Plan, j: nat, i: nat, o: Order, s: Surroundings, r': SoundRobot)
    requires p.Valid() && Carries(r, p, j) && ListedIds(r) == Work(p) && DistinctIds(Work(p)) && Sendable(p, i)
    requires o == Message(p, i) && Decide(r, o, s).Accept? && r' == OnOrder(r, o, s)
    ensures ListedIds(r') == Work(p)
  {
    assert Follows(p, j, i) && !Cleared(r) by { AcceptedIsNext(r, p, j, i, s); }
    assert ListedOk(r);
    UpdateLists(r, p, o, j, i, s);
  }

  lemma AcceptedLists(r: SoundRobot, p: Plan, k: nat, i: nat, o: Order, s: Surroundings, r': SoundRobot)
    requires p.Valid() && TookUp(r, p, k) && Lists(r, p, k) && DistinctIds(Work(p))
    requires CanFollow(p, k, i) && Sendable(p, i) && o == Message(p, i)
    requires Decide(r, o, s).Accept? && r' == OnOrder(r, o, s)
    ensures Lists(r', p, i + 1)
  {
    if k == 0 { FirstLists(r, p, o, s, r'); } else { NextLists(r, p, k - 1, i, o, s, r'); }
  }

  lemma DeliveredNext(r: SoundRobot, step: Step)
    requires step.Delivered?
    ensures Next(r, step) == OnOrder(r, step.order, step.around)
    ensures !Accepts(r, step) ==> Next(r, step) == r
  {
  }

  lemma StepLists(r: SoundRobot, p: Plan, k: nat, step: Step, k': nat)
    requires p.Valid() && TookUp(r, p, k) && Lists(r, p, k) && DistinctIds(Work(p))
    requires OnChannel(r, p, step) && OwnIds(p, step) && Takes(r, p, k, step, k')
    ensures RobotOk(Next(r, step)) && Lists(Next(r, step), p, k')
  {
    StepKeepsRobot(r, step);
    if step.Delivered? {
      DeliveredNext(r, step);
      if Accepts(r, step) { AcceptedLists(r, p, k, k' - 1, step.order, step.around, Next(r, step)); }
    } else {
      OtherStepsKeepList(r, p, k, step);
    }
  }

  ghost predicate ListsAfter(r: SoundRobot, p: Plan, steps: seq<Step>, taken: seq<nat>)
    requires p.Valid()
  {
    AcceptedExactly(r, p, steps, taken) && Lists(After(r, steps), p, Past(taken))
  }

  lemma ListsExtends(r: SoundRobot, p: Plan, steps: seq<Step>, taken: seq<nat>) returns (taken': seq<nat>)
    requires p.Valid() && steps != [] && ListsAfter(r, p, steps[..|steps| - 1], taken) && DistinctIds(Work(p))
    requires OnChannel(After(r, steps[..|steps| - 1]), p, steps[|steps| - 1]) && OwnIds(p, steps[|steps| - 1])
    ensures ListsAfter(r, p, steps, taken')
  {
    taken' := AcceptedExtends(r, p, steps, taken);
    StepLists(After(r, steps[..|steps| - 1]), p, Past(taken), steps[|steps| - 1], Past(taken'));
  }

  /** Once the order is taken up, and through every update, cancel and mode switch, the state
      lists exactly the mission's action ids in the mission's order, whatever the releases and
      whatever the network does. */
  lemma ActionIdsFollowMission(r: SoundRobot, p: Plan, steps: seq<Step>) returns (taken: seq<nat>)
    requires p.Valid() && Unadopted(r, p) && Unclaimed(r, p) && DistinctIds(Work(p))
    requires OnAttempt(r, p, steps) && forall i | 0 <= i < |steps| :: OwnIds(p, steps[i])
    ensures AcceptedExactly(r, p, steps, taken)
    ensures taken != [] ==> ListedIds(After(r, steps)) == Work(p)
  {
    taken := ListsThroughout(r, p, steps);
  }

  lemma {:induction false} ListsThroughout(r: SoundRobot, p: Plan, steps: seq<Step>) returns (taken: seq<nat>)
    requires p.Valid() && Unadopted(r, p) && Unclaimed(r, p) && DistinctIds(Work(p))
    requires OnAttempt(r, p, steps) && forall i | 0 <= i < |steps| :: OwnIds(p, steps[i])
    ensures ListsAfter(r, p, steps, taken)
    decreases |steps|
  {
    if steps == [] {
      taken := [];
    } else {
      var init := steps[..|steps| - 1];
      assert forall i | 0 <= i < |init| :: OwnIds(p, init[i]) by {
        assert forall i | 0 <= i < |init| :: init[i] == steps[i];
      }
      taken := ListsThroughout(r, p, init);
      taken := ListsExtends(r, p, steps, taken);
    }
  }
}
