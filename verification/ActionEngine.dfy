/** actions.py: the engine object, method by method, against the steps of module Actions. */
module ActionEngineObject {
  import opened Actions

  class ActionEngine {
    var table: seq<Run>
    var queue: seq<nat>
    var active: seq<nat>
    var runners: seq<Runner>

    ghost function State(): EngineState
      reads this
    {
      EngineState(table, queue, active, runners)
    }

    constructor ()
      ensures State() == EngineState([], [], [], [])
    {
      table, queue, active, runners := [], [], [], [];
    }

    method Enqueue(runs: seq<nat>)
      modifies this`queue, this`runners
      ensures State() == Actions.Enqueue(old(State()), runs)
    {
      queue := queue + runs;
      if runs != [] && (|runners| == 0 || runners[|runners| - 1].Done?) {
        runners := runners + [AtTop];
      }
    }

    method StartInstant(r: nat)
      requires r < |table|
      modifies this`table, this`active
      ensures State() == StartTask(old(State()), r)
    {
      active := active + [r];
      table := table[r := table[r].(task := Created)];
    }

    /** One stretch of `_process_queue` or `_wait_for_batch` of runner `i`. */
    method Resume(i: nat)
      requires Valid(State()) && i < |runners|
      modifies this
      ensures State() == RunnerStep(old(State()), i)
    {
      match runners[i] {
        case AtTop =>
          if queue == [] {
            runners := runners[i := Done];
          } else {
            var run := queue[0];
            queue := queue[1..];
            if table[run].Exclusive() {
              runners := runners[i := Checking(run, active)];
            } else {
              StartInstant(run);
            }
          }
        case Checking(run, batch) =>
          if batch == [] {
            runners := runners[i := Awaiting(run)];
            StartInstant(run);
          } else if table[batch[0]].Quiet() || table[batch[0]].finished {
            runners := runners[i := Checking(run, batch[1..])];
          } else {
            runners := runners[i := WaitingFor(run, batch)];
          }
        case WaitingFor(run, batch) =>
          if table[batch[0]].finished { runners := runners[i := Checking(run, batch[1..])]; }
        case Awaiting(run) =>
          if table[run].finished { runners := runners[i := AtTop]; }
        case Done =>
      }
    }

    method FailScheduled()
      requires Valid(State())
      modifies this`table, this`queue
      ensures queue == [] && |table| == |old(table)|
      ensures forall k | 0 <= k < |table| ::
                table[k]
                == if k in old(queue) then old(table)[k].(status := Failed, finished := true) else old(table)[k]
    {
      ghost var start, popped := State(), 0;
      while queue != []
        invariant popped + |queue| == |start.queue| && queue == start.queue[popped..]
        invariant |table| == |start.table| && active == start.active && runners == start.runners
        invariant forall k | 0 <= k < |table| ::
                    table[k] == if k in start.queue[..popped] then start.table[k].(status := Failed, finished := true)
                                else start.table[k]
        decreases |queue|
      {
        var run := queue[0];
        queue := queue[1..];
        table := table[run := table[run].(status := Failed, finished := true)];
        assert start.queue[..popped + 1] == start.queue[..popped] + [run];
        popped := popped + 1;
      }
      assert start.queue[..popped] == start.queue;
    }

    /** What cancelOrder does to one active run. */
    method CancelRun(r: nat) returns (wait: bool)
      requires r < |table|
      modifies this`table
      ensures table == old(table)[r := CancelActiveRun(old(table)[r])]
      ensures wait == Outstanding(old(table)[r]) == Outstanding(table[r])
    {
      wait := false;
      if table[r].origin == Instant || table[r].Settled() {
      } else if table[r].status == Retriable {
        table := table[r := table[r].(status := Failed, finished := true)];
      } else {
        if table[r].CancelAllowed() { table := table[r := CancelTask(table[r])]; }
        wait := true;
      }
    }

    method CancelActive() returns (outstanding: seq<nat>)
      requires forall i | 0 <= i < |active| :: active[i] < |table|
      modifies this`table
      ensures |table| == |old(table)|
      ensures forall k | 0 <= k < |table| ::
                table[k] == if k in active then CancelActiveRun(old(table)[k]) else old(table)[k]
      ensures outstanding == OutstandingAmong(table, active)
    {
      ghost var start := table;
      outstanding := [];
      for i := 0 to |active|
        invariant |table| == |start|
        invariant forall k | 0 <= k < |table| ::
                    table[k] == if k in active[..i] then CancelActiveRun(start[k]) else start[k]
        invariant outstanding == OutstandingAmong(table, active[..i])
      {
        ghost var before := table;
        var r := active[i];
        var wait := CancelRun(r);
        if wait { outstanding := outstanding + [r]; }
        CancelledTwice(start[r]);
        assert table[r] == CancelActiveRun(start[r]);
        SameOutstanding(before, table, active[..i]);
        OutstandingAppend(table, active[..i], r);
        assert active[..i + 1] == active[..i] + [r];
        forall k | 0 <= k < |table|
          ensures table[k] == if k in active[..i + 1] then CancelActiveRun(start[k]) else start[k]
        {
          if k != r { assert table[k] == before[k] && (k in active[..i + 1] <==> k in active[..i]); }
        }
      }
      assert active[..|active|] == active;
    }

    method CancelOrderActions() returns (outstanding: seq<nat>)
      requires Valid(State())
      modifies this`table, this`queue
      ensures State() == Actions.CancelOrderActions(old(State()))
      ensures outstanding == OutstandingAmong(table, active)
    {
      FailScheduled();
      outstanding := CancelActive();
    }

    method FinishEdgeActions(edge: int)
      requires Valid(State())
      modifies this`table
      ensures State() == Actions.FinishEdgeActions(old(State()), edge)
    {
      ghost var start := State();
      for i := 0 to |active|
        invariant State() == start.(table := table) && |table| == |start.table|
        invariant forall k | 0 <= k < |table| ::
                    table[k] == if k in active[..i] then FinishEdgeRun(start.table[k], edge) else start.table[k]
      {
        var run := table[active[i]];
        if run.origin == OnEdge && run.element == edge && !run.Settled() {
          table := table[active[i] := CancelTask(run).(status := Finished, finished := true)];
        }
        assert active[..i + 1] == active[..i] + [active[i]];
      }
      assert active[..|active|] == active;
    }

    method DropHorizonStates(kept: set<string>)
      requires Valid(State())
      modifies this`queue
      ensures State() == DropHorizon(old(State()), kept)
    {
      var remaining := [];
      for i := |queue| downto 0
        invariant remaining == KeepIds(table, queue[i..], kept)
      {
        assert queue[i..] == [queue[i]] + queue[i + 1..];
        if table[queue[i]].action.id in kept { remaining := [queue[i]] + remaining; }
      }
      queue := remaining;
    }
  }

  lemma CancelledTwice(run: Run)
    ensures CancelActiveRun(CancelActiveRun(run)) == CancelActiveRun(run)
  {
  }

  lemma {:induction false} SameOutstanding(table: seq<Run>, table': seq<Run>, active: seq<nat>)
    requires |table| == |table'| && forall i | 0 <= i < |active| :: active[i] < |table|
    requires forall k | 0 <= k < |table| :: Outstanding(table'[k]) == Outstanding(table[k])
    ensures OutstandingAmong(table', active) == OutstandingAmong(table, active)
  {
    if active != [] { SameOutstanding(table, table', active[1..]); }
  }

  lemma {:induction false} OutstandingAppend(table: seq<Run>, active: seq<nat>, r: nat)
    requires r < |table| && forall i | 0 <= i < |active| :: active[i] < |table|
    ensures OutstandingAmong(table, active + [r])
              == OutstandingAmong(table, active) + (if Outstanding(table[r]) then [r] else [])
  {
    if active != [] {
      OutstandingAppend(table, active[1..], r);
      assert (active + [r])[1..] == active[1..] + [r];
    }
  }
}
