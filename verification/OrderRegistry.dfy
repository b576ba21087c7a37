/** Which actions a robot knows: what an accepted message registers and lists, from any order, with
    actions on nodes and edges and with ids that occur more than once. */
module OrderRegistry {
  import opened Vda5050
  import opened Actions
  import opened RobotModel
  import opened RobotInvariants
  import opened OrderChain
  import opened OrderActions
  import opened OrderHandover
  import opened SettingOff
  import opened StepEffects

  // ------------------------------------------------------------ registration

  lemma {:induction false} RegisteredIds(l: Ledger, items: seq<Item>, id: string)
    ensures id in RegisterAll(l, items).runs
            <==> id in l.runs || exists i :: 0 <= i < |items| && items[i].action.id == id
    decreases |items|
  {
    if items != [] {
      var init := items[..|items| - 1];
      RegisteredIds(l, init, id);
      if i :| 0 <= i < |items| && items[i].action.id == id {
        if i < |init| { assert init[i].action.id == id; }
      }
    }
  }

  /** The new runs are listed in the order of registration, each for an item whose id was unknown. */
  ghost predicate RegisteredFor(l: Ledger, items: seq<Item>, l': Ledger, k: nat)
    requires k < |l'.table|
  {
    exists i :: 0 <= i < |items| && l'.table[k] == FreshRun(items[i].action, items[i].origin, items[i].element)
                && items[i].action.id !in l.runs && items[i].action.id in l'.runs && l'.runs[items[i].action.id] == k
  }

  lemma {:induction false} RegisteredRuns(l: Ledger, items: seq<Item>, l': Ledger)
    requires l' == RegisterAll(l, items)
    requires forall id | id in l.runs :: l.runs[id] < |l.table|
    ensures l.table <= l'.table && l'.listed == l.listed + Range(|l.table|, |l'.table|)
    ensures forall id | id in l.runs :: id in l'.runs && l'.runs[id] == l.runs[id]
    ensures forall id | id in l'.runs :: l'.runs[id] < |l'.table|
    ensures forall k | |l.table| <= k < |l'.table| :: RegisteredFor(l, items, l', k)
    decreases |items|
  {
    if items == [] {
      assert l.listed + [] == l.listed;
    } else {
      var init, last := items[..|items| - 1], items[|items| - 1];
      var before := RegisterAll(l, init);
      RegisteredRuns(l, init, before);
      if last.action.id in before.runs {
        forall k | |l.table| <= k < |l'.table| ensures RegisteredFor(l, items, l', k) {
          StillRegistered(l, init, last, before, l', k);
        }
      } else {
        RangeGrows(|l.table|, |before.table|);
        assert l'.listed == l.listed + (Range(|l.table|, |before.table|) + [|before.table|]);
        assert last.action.id !in l.runs;
        forall k | |l.table| <= k < |l'.table| ensures RegisteredFor(l, items, l', k) {
          if k < |before.table| {
            StillRegistered(l, init, last, before, l', k);
          } else {
            assert items[|items| - 1] == last;
          }
        }
      }
    }
  }

  lemma StillRegistered(l: Ledger, init: seq<Item>, last: Item, before: Ledger, l': Ledger, k: nat)
    requires l' == Register(before, last) && k < |before.table| && RegisteredFor(l, init, before, k)
    ensures k < |l'.table| && RegisteredFor(l, init + [last], l', k)
  {
    var i :| 0 <= i < |init| && before.table[k] == FreshRun(init[i].action, init[i].origin, init[i].element)
      && init[i].action.id !in l.runs && init[i].action.id in before.runs && before.runs[init[i].action.id] == k;
    assert (init + [last])[i] == init[i];
  }

  lemma RangeGrows(from: nat, to: nat)
    requires from <= to
    ensures Range(from, to + 1) == Range(from, to) + [to]
  {
  }

  // ------------------------------------------------------------------- items

  lemma {:induction false} NodeItemsAre(nodes: seq<Node>, item: Item)
    ensures item in NodeItems(nodes) <==>
              exists i, k :: 0 <= i < |nodes| && 0 <= k < |nodes[i].actions|
                             && item == Item(nodes[i].actions[k], OnNode, nodes[i].seqId)
    decreases |nodes|
  {
    if nodes != [] {
      var init, last := nodes[..|nodes| - 1], nodes[|nodes| - 1];
      NodeItemsAre(init, item);
      var own := Items(last.actions, OnNode, last.seqId);
      if item in own {
        var k :| 0 <= k < |own| && own[k] == item;
        assert item == Item(nodes[|nodes| - 1].actions[k], OnNode, nodes[|nodes| - 1].seqId);
      }
      if i, k :| 0 <= i < |nodes| && 0 <= k < |nodes[i].actions|
                 && item == Item(nodes[i].actions[k], OnNode, nodes[i].seqId) {
        if i < |init| {
          assert item == Item(init[i].actions[k], OnNode, init[i].seqId);
        } else {
          assert own[k] == item;
        }
      }
    }
  }

  lemma {:induction false} EdgeItemsAre(edges: seq<Edge>, item: Item)
    ensures item in EdgeItems(edges) <==>
              exists i, k :: 0 <= i < |edges| && 0 <= k < |edges[i].actions|
                             && item == Item(edges[i].actions[k], OnEdge, edges[i].seqId)
    decreases |edges|
  {
    if edges != [] {
      var init, last := edges[..|edges| - 1], edges[|edges| - 1];
      EdgeItemsAre(init, item);
      var own := Items(last.actions, OnEdge, last.seqId);
      if item in own {
        var k :| 0 <= k < |own| && own[k] == item;
        assert item == Item(edges[|edges| - 1].actions[k], OnEdge, edges[|edges| - 1].seqId);
      }
      if i, k :| 0 <= i < |edges| && 0 <= k < |edges[i].actions|
                 && item == Item(edges[i].actions[k], OnEdge, edges[i].seqId) {
        if i < |init| {
          assert item == Item(init[i].actions[k], OnEdge, init[i].seqId);
        } else {
          assert own[k] == item;
        }
      }
    }
  }

  /** Some node or edge of these carries an action by that id. */
  ghost predicate Named(nodes: seq<Node>, edges: seq<Edge>, id: string) {
    || (exists i, k :: 0 <= i < |nodes| && 0 <= k < |nodes[i].actions| && nodes[i].actions[k].id == id)
    || (exists i, k :: 0 <= i < |edges| && 0 <= k < |edges[i].actions| && edges[i].actions[k].id == id)
  }

  /** The run waits, untouched, for an action of one of these elements, and says which. */
  ghost predicate RunFor(nodes: seq<Node>, edges: seq<Edge>, run: Run) {
    || (exists i, k :: 0 <= i < |nodes| && 0 <= k < |nodes[i].actions|
                       && run == FreshRun(nodes[i].actions[k], OnNode, nodes[i].seqId))
    || (exists i, k :: 0 <= i < |edges| && 0 <= k < |edges[i].actions|
                       && run == FreshRun(edges[i].actions[k], OnEdge, edges[i].seqId))
  }

  lemma SentItems(nodes: seq<Node>, edges: seq<Edge>, items: seq<Item>, id: string)
    requires items == NodeItems(nodes) + EdgeItems(edges)
    ensures (exists i :: 0 <= i < |items| && items[i].action.id == id) <==> Named(nodes, edges, id)
  {
    if i :| 0 <= i < |items| && items[i].action.id == id {
      ItemIsSent(nodes, edges, items, i);
    }
    if i, k :| 0 <= i < |nodes| && 0 <= k < |nodes[i].actions| && nodes[i].actions[k].id == id {
      var item := Item(nodes[i].actions[k], OnNode, nodes[i].seqId);
      NodeItemsAre(nodes, item);
      var x :| 0 <= x < |NodeItems(nodes)| && NodeItems(nodes)[x] == item;
      assert items[x] == item;
    }
    if i, k :| 0 <= i < |edges| && 0 <= k < |edges[i].actions| && edges[i].actions[k].id == id {
      var item := Item(edges[i].actions[k], OnEdge, edges[i].seqId);
      EdgeItemsAre(edges, item);
      var x :| 0 <= x < |EdgeItems(edges)| && EdgeItems(edges)[x] == item;
      assert items[|NodeItems(nodes)| + x] == item;
    }
  }

  lemma ItemIsSent(nodes: seq<Node>, edges: seq<Edge>, items: seq<Item>, i: nat)
    requires items == NodeItems(nodes) + EdgeItems(edges) && i < |items|
    ensures RunFor(nodes, edges, FreshRun(items[i].action, items[i].origin, items[i].element))
    ensures Named(nodes, edges, items[i].action.id)
  {
    if i < |NodeItems(nodes)| {
      assert items[i] == NodeItems(nodes)[i];
      NodeItemsAre(nodes, items[i]);
    } else {
      assert items[i] == EdgeItems(edges)[i - |NodeItems(nodes)|];
      EdgeItemsAre(edges, items[i]);
    }
  }

  /** `l'` knows the runs of `l` and, listed behind them, one for each further id these elements name. */
  ghost predicate Enrolled(l: Ledger, nodes: seq<Node>, edges: seq<Edge>, l': Ledger) {
    && l.table <= l'.table && l'.listed == l.listed + Range(|l.table|, |l'.table|)
    && (forall id :: id in l'.runs <==> id in l.runs || Named(nodes, edges, id))
    && (forall id | id in l.runs :: l'.runs[id] == l.runs[id])
    && (forall k | |l.table| <= k < |l'.table| ::
          && RunFor(nodes, edges, l'.table[k])
          && l'.table[k].action.id !in l.runs && l'.table[k].action.id in l'.runs
          && l'.runs[l'.table[k].action.id] == k)
  }

  lemma ItemsEnrol(l: Ledger, nodes: seq<Node>, edges: seq<Edge>, l': Ledger)
    requires l' == RegisterAll(l, NodeItems(nodes) + EdgeItems(edges))
    requires forall id | id in l.runs :: l.runs[id] < |l.table|
    ensures Enrolled(l, nodes, edges, l')
  {
    var items := NodeItems(nodes) + EdgeItems(edges);
    RegisteredRuns(l, items, l');
    forall id ensures id in l'.runs <==> id in l.runs || Named(nodes, edges, id) {
      RegisteredIds(l, items, id);
      SentItems(nodes, edges, items, id);
    }
    forall k | |l.table| <= k < |l'.table|
      ensures RunFor(nodes, edges, l'.table[k]) && l'.table[k].action.id !in l.runs
      ensures l'.table[k].action.id in l'.runs && l'.runs[l'.table[k].action.id] == k
    {
      assert RegisteredFor(l, items, l', k);
      var i :| 0 <= i < |items| && l'.table[k] == FreshRun(items[i].action, items[i].origin, items[i].element)
        && items[i].action.id !in l.runs && items[i].action.id in l'.runs && l'.runs[items[i].action.id] == k;
      ItemIsSent(nodes, edges, items, i);
    }
  }

  // ---------------------------------------------------------------- messages

  ghost function LedgerOf(r: Robot): Ledger { Ledger(r.engine.table, r.runs, r.actionStates) }

  /** What a fresh order keeps: the instant actions stay registered, nothing is listed, and the tasks of
      everything registered are stopped. */
  ghost predicate Emptied(r: SoundRobot, l: Ledger) {
    && |l.table| == |r.engine.table| && l.listed == []
    && (forall k | 0 <= k < |l.table| ::
          l.table[k] == (var run := r.engine.table[k];
                         if k in r.runs.Values then run.(task := StoppedTask(run.task)) else run))
    && (forall id :: id in l.runs <==> id in r.runs && r.engine.table[r.runs[id]].origin == Instant)
    && (forall id | id in l.runs :: l.runs[id] == r.runs[id])
  }

  /** A fresh order lists one run for each id that its nodes and edges name and no instant action has. */
  lemma FreshIsEnrolled(r: SoundRobot, step: Step, r': SoundRobot) returns (kept: Ledger)
    requires Replaces(r, step) && r' == Next(r, step)
    ensures Emptied(r, kept) && Enrolled(kept, step.order.nodes, step.order.edges, LedgerOf(r'))
  {
    kept := Ledger(ResetForOrder(r.engine, r.runs.Values).table, InstantRuns(r), []);
    LedgerOfFresh(r, step.order, step.around);
    ItemsEnrol(kept, step.order.nodes, step.order.edges, FreshLedger(r, step.order));
    forall k | 0 <= k < |kept.table| ensures kept.table[k] == (var run := r.engine.table[k];
                         if k in r.runs.Values then run.(task := StoppedTask(run.task)) else run) {
      StoppedRun(r.engine.table[k]);
    }
  }

  /** What an update keeps: everything but the ids its horizon drops, in order. */
  ghost predicate Pruned(r: SoundRobot, stitch: int, l: Ledger) {
    && l.table == r.engine.table
    && (forall id :: id in l.runs <==> id in r.runs && !OnHorizon(r, stitch, id))
    && (forall id | id in l.runs :: l.runs[id] == r.runs[id])
    && l.listed == Remaining(r, r.actionStates, stitch)
  }

  ghost function Remaining(r: SoundRobot, listed: seq<nat>, stitch: int): seq<nat>
    requires forall i | 0 <= i < |listed| :: listed[i] < |r.engine.table|
  {
    if listed == [] then []
    else (if OnHorizon(r, stitch, r.engine.table[listed[0]].action.id) then [] else [listed[0]])
         + Remaining(r, listed[1..], stitch)
  }

  lemma {:induction false} RemainingEnds(r: SoundRobot, listed: seq<nat>, stitch: int)
    requires listed != [] && forall i | 0 <= i < |listed| :: listed[i] < |r.engine.table|
    ensures Remaining(r, listed, stitch)
         == Remaining(r, listed[..|listed| - 1], stitch) + Remaining(r, [listed[|listed| - 1]], stitch)
    decreases |listed|
  {
    if |listed| == 1 {
      assert listed[..0] == [] && [listed[0]] == listed;
    } else {
      RemainingEnds(r, listed[1..], stitch);
      assert listed[1..][..|listed| - 2] == listed[..|listed| - 1][1..];
    }
  }

  lemma {:induction false} KeptIsRemaining(r: SoundRobot, listed: seq<nat>, stitch: int)
    requires forall i | 0 <= i < |listed| :: listed[i] < |r.engine.table|
    ensures KeepListed(r.engine.table, listed, HorizonIds(r, stitch)) == Remaining(r, listed, stitch)
    decreases |listed|
  {
    if listed != [] {
      var last := listed[|listed| - 1];
      KeptIsRemaining(r, listed[..|listed| - 1], stitch);
      RemainingEnds(r, listed, stitch);
      HorizonIdsExact(r, stitch, r.engine.table[last].action.id);
      assert [last][1..] == [];
    }
  }

  lemma PrunedIs(r: SoundRobot, stitch: int)
    ensures Pruned(r, stitch, PrunedLedger(r, stitch))
  {
    KeptIsRemaining(r, r.actionStates, stitch);
    forall id ensures id in PrunedLedger(r, stitch).runs <==> id in r.runs && !OnHorizon(r, stitch, id) {
      HorizonIdsExact(r, stitch, id);
    }
  }

  /** The actions of the first node that its stored object does not name. */
  ghost predicate NewOnStitch(r: SoundRobot, o: Order, a: Action)
    requires |o.nodes| >= 1
  {
    a in o.nodes[0].actions
    && (o.nodes[0].seqId in r.nodes ==> forall b | b in r.nodes[o.nodes[0].seqId].actions :: b.id != a.id)
  }

  lemma {:induction false} UnknownAre(actions: seq<Action>, known: set<string>, a: Action)
    ensures a in Unknown(actions, known) <==> a in actions && a.id !in known
    decreases |actions|
  {
    if actions != [] {
      UnknownAre(actions[..|actions| - 1], known, a);
      assert actions == actions[..|actions| - 1] + [actions[|actions| - 1]];
    }
  }

  lemma StitchActionsAre(r: SoundRobot, o: Order, a: Action)
    requires |o.nodes| >= 1
    ensures a in StitchActions(r, o) <==> NewOnStitch(r, o, a)
  {
    var stitch := o.nodes[0].seqId;
    UnknownAre(o.nodes[0].actions, if stitch in r.nodes then set b | b in r.nodes[stitch].actions :: b.id else {}, a);
  }

  /** An update forgets what its horizon drops and lists one run for each further id: of the actions its
      first node has anew, and then of its other nodes and its edges. */
  lemma UpdateIsEnrolled(r: SoundRobot, step: Step, r': SoundRobot) returns (kept: Ledger, stitched: Ledger)
    requires Accepts(r, step) && !Replaces(r, step) && r' == Next(r, step)
    ensures |step.order.nodes| >= 1
    ensures Pruned(r, step.order.nodes[0].seqId, kept)
    ensures exists added: seq<Action> ::
              && (forall a :: a in added <==> NewOnStitch(r, step.order, a))
              && Enrolled(kept, [step.order.nodes[0].(actions := added)], [], stitched)
    ensures Enrolled(stitched, step.order.nodes[1..], step.order.edges, LedgerOf(r'))
  {
    var o := step.order;
    LedgerOfUpdate(r, o, step.around);
    var added := StitchActions(r, o);
    kept, stitched := PrunedLedger(r, o.nodes[0].seqId), StitchLedger(r, o);
    PrunedIs(r, o.nodes[0].seqId);
    forall a ensures a in added <==> NewOnStitch(r, o, a) { StitchActionsAre(r, o, a); }
    StitchIsEnrolled(kept, o.nodes[0].(actions := added), stitched);
    ItemsEnrol(stitched, o.nodes[1..], o.edges, UpdateLedger(r, o));
  }

  lemma StitchIsEnrolled(kept: Ledger, node: Node, stitched: Ledger)
    requires forall id | id in kept.runs :: kept.runs[id] < |kept.table|
    requires stitched == RegisterAll(kept, Items(node.actions, OnNode, node.seqId))
    ensures Enrolled(kept, [node], [], stitched)
    ensures forall id | id in stitched.runs :: stitched.runs[id] < |stitched.table|
  {
    assert [node][..0] == [];
    assert NodeItems([node]) + EdgeItems([]) == Items(node.actions, OnNode, node.seqId);
    ItemsEnrol(kept, [node], [], stitched);
    RegisteredRuns(kept, Items(node.actions, OnNode, node.seqId), stitched);
  }
}
