/** behaviors.py: the mission queue of the emulated robot. What each mission is doing is never
    stored; it is derived when somebody asks, from the instants kept with the queue entries. */
module MissionTimeline {
  import opened Vda5050

  const PENDING_LAG := 1.0

  datatype Entry = Entry(id: nat, queuedAt: real, duration: real, abortedAt: Option<real>)

  datatype Window = Window(start: real, finish: real)

  datatype Phase = Pending | Executing | Done | Aborted

  function Max(a: real, b: real): real { if a >= b then a else b }

  function Min(a: real, b: real): real { if a <= b then a else b }

  // -------------------------------------------------------------- windows

  /** No earlier than `x` and no earlier than the cursor, if there is one. */
  function NotBefore(cursor: Option<real>, x: real): real {
    match cursor case None => x case Some(c) => Max(x, c)
  }

  function WindowOf(e: Entry, cursor: Option<real>): Window {
    var start := NotBefore(cursor, e.queuedAt + PENDING_LAG);
    match e.abortedAt
    case None => Window(start, start + e.duration)
    case Some(t) => Window(Min(start, t), Max(Min(start, t), t))
  }

  /** First in, first out, one mission at a time. */
  function Windows(items: seq<Entry>, cursor: Option<real>): (windows: seq<Window>)
    ensures |windows| == |items|
  {
    if items == [] then []
    else
      var first := WindowOf(items[0], cursor);
      [first] + Windows(items[1..], Some(first.finish))
  }

  function PhaseOf(e: Entry, w: Window, clock: real): Phase {
    if e.abortedAt.Some? then Aborted
    else if clock < w.start then Pending
    else if clock < w.finish then Executing
    else Done
  }

  /** What a queue built up by the operations below looks like at time `now`: queued in order, in
      the past, and no abort before the previous mission was over. */
  ghost predicate Sound(items: seq<Entry>, cursor: Option<real>, now: real) {
    items == [] ||
    var e := items[0];
    && e.queuedAt <= now && e.duration >= 0.0
    && (|items| > 1 ==> e.queuedAt <= items[1].queuedAt)
    && (e.abortedAt.Some? ==>
          && e.queuedAt <= e.abortedAt.value <= now
          && (cursor.Some? ==> cursor.value <= e.abortedAt.value))
    && Sound(items[1..], Some(WindowOf(e, cursor).finish), now)
  }

  /** Windows neither overlap nor run backwards. */
  ghost predicate InTurn(windows: seq<Window>) {
    && (forall i | 0 <= i < |windows| :: windows[i].start <= windows[i].finish)
    && (forall i, j | 0 <= i < j < |windows| :: windows[i].finish <= windows[j].start)
  }

  lemma {:induction false} SoundInTurn(items: seq<Entry>, cursor: Option<real>, now: real)
    requires Sound(items, cursor, now)
    ensures InTurn(Windows(items, cursor))
    ensures cursor.Some? ==> forall i | 0 <= i < |items| :: cursor.value <= Windows(items, cursor)[i].start
  {
    if items != [] {
      var first := WindowOf(items[0], cursor);
      SoundInTurn(items[1..], Some(first.finish), now);
      var rest := Windows(items[1..], Some(first.finish));
      assert Windows(items, cursor) == [first] + rest;
      forall i | 0 < i < |items| ensures first.finish <= Windows(items, cursor)[i].start {
        assert Windows(items, cursor)[i] == rest[i - 1];
      }
      forall i, j | 0 < i < j < |items| ensures Windows(items, cursor)[i].finish <= Windows(items, cursor)[j].start {
        assert Windows(items, cursor)[i] == rest[i - 1] && Windows(items, cursor)[j] == rest[j - 1];
      }
    }
  }

  // ------------------------------------------------------------ operations

  datatype Timeline = Timeline(entries: seq<Entry>, now: real, nextId: nat)

  function MarkIf(e: Entry, w: Window, now: real): Entry {
    if w.finish > now && e.abortedAt.None? then e.(abortedAt := Some(now)) else e
  }

  /** Everything not finished is aborted now; what is finished keeps its history. */
  function AbortedQueue(items: seq<Entry>, cursor: Option<real>, now: real): (marked: seq<Entry>)
    ensures |marked| == |items|
  {
    if items == [] then []
    else
      var first := WindowOf(items[0], cursor);
      [MarkIf(items[0], first, now)] + AbortedQueue(items[1..], Some(first.finish), now)
  }

  function WithoutId(items: seq<Entry>, id: nat): seq<Entry> {
    if items == [] then []
    else if items[0].id == id then items[1..]
    else [items[0]] + WithoutId(items[1..], id)
  }

  datatype Step =
    | Enqueue(duration: real)
    | AbortAll
    | Delete(id: nat)
    | Clear
    | Advance(to: real)

  predicate Possible(s: Timeline, step: Step) {
    match step
    case Enqueue(duration) => duration >= 0.0
    case Advance(to) => s.now <= to
    case _ => true
  }

  function Next(s: Timeline, step: Step): Timeline {
    match step
    case Enqueue(duration) =>
      s.(entries := s.entries + [Entry(s.nextId, s.now, duration, None)], nextId := s.nextId + 1)
    case AbortAll => s.(entries := AbortedQueue(s.entries, None, s.now))
    case Delete(id) => s.(entries := WithoutId(s.entries, id))
    case Clear => s.(entries := [])
    case Advance(to) => s.(now := to)
  }

  ghost predicate TimelineOk(s: Timeline) {
    && Sound(s.entries, None, s.now)
    && (forall i | 0 <= i < |s.entries| :: s.entries[i].id < s.nextId)
    && (forall i, j | 0 <= i < j < |s.entries| :: s.entries[i].id < s.entries[j].id)
  }

  /** A mission starts one second after it was queued, or when the one before it is over, whichever is
      later, and takes its duration; an abort ends it there, even before it started. */
  lemma {:induction false} WindowIsExact(items: seq<Entry>, cursor: Option<real>, i: nat)
    requires i < |items|
    ensures var windows, e := Windows(items, cursor), items[i];
            var before := if i == 0 then cursor else Some(windows[i - 1].finish);
            var due := e.queuedAt + 1.0;
            var start := if before.Some? && before.value > due then before.value else due;
            match e.abortedAt
            case None => windows[i] == Window(start, start + e.duration)
            case Some(at) => windows[i] == Window(if at < start then at else start, at)
    decreases |items|
  {
    if i > 0 { WindowIsExact(items[1..], Some(WindowOf(items[0], cursor).finish), i - 1); }
  }

  /** An abort marks exactly the missions that have neither ended nor been aborted before. */
  lemma {:induction false} AbortIsExact(items: seq<Entry>, cursor: Option<real>, now: real, i: nat)
    requires i < |items|
    ensures AbortedQueue(items, cursor, now)[i]
         == if items[i].abortedAt.None? && Windows(items, cursor)[i].finish > now
            then items[i].(abortedAt := Some(now)) else items[i]
    decreases |items|
  {
    if i > 0 { AbortIsExact(items[1..], Some(WindowOf(items[0], cursor).finish), now, i - 1); }
  }

  // -------------------------------------------------- what operations keep

  function Capped(cursor: Option<real>, now: real): Option<real> {
    match cursor case None => None case Some(c) => Some(Min(c, now))
  }

  /** An abort cuts every window at the abort instant and leaves finished ones alone. */
  function Cut(w: Window, now: real): Window {
    if w.finish <= now then w else Window(Min(w.start, now), now)
  }

  lemma WindowsTail(items: seq<Entry>, cursor: Option<real>)
    requires items != []
    ensures Windows(items, cursor)[0] == WindowOf(items[0], cursor)
    ensures forall i | 0 < i < |items| ::
              Windows(items, cursor)[i] == Windows(items[1..], Some(WindowOf(items[0], cursor).finish))[i - 1]
  {
  }

  lemma {:induction false} AbortedIs(items: seq<Entry>, cursor: Option<real>, now: real)
    ensures forall i | 0 <= i < |items| ::
              AbortedQueue(items, cursor, now)[i] == MarkIf(items[i], Windows(items, cursor)[i], now)
  {
    if items != [] {
      AbortedIs(items[1..], Some(WindowOf(items[0], cursor).finish), now);
      WindowsTail(items, cursor);
    }
  }

  lemma {:induction false} AbortCuts(items: seq<Entry>, cursor: Option<real>, now: real)
    requires Sound(items, cursor, now)
    ensures Sound(AbortedQueue(items, cursor, now), Capped(cursor, now), now)
    ensures forall i | 0 <= i < |items| ::
              Windows(AbortedQueue(items, cursor, now), Capped(cursor, now))[i] == Cut(Windows(items, cursor)[i], now)
  {
    if items != [] {
      var first := WindowOf(items[0], cursor);
      var marked := AbortedQueue(items, cursor, now);
      assert marked[1..] == AbortedQueue(items[1..], Some(first.finish), now);
      assert WindowOf(marked[0], Capped(cursor, now)) == Cut(first, now);
      AbortCuts(items[1..], Some(first.finish), now);
      WindowsTail(items, cursor);
      WindowsTail(marked, Capped(cursor, now));
    }
  }

  /** `a` is no later than `b`; no cursor is earlier than any. */
  predicate NoLater(a: Option<real>, b: Option<real>) {
    a.None? || (b.Some? && a.value <= b.value)
  }

  /** Starting from an earlier cursor, every window moves to an earlier place or stays. */
  lemma {:induction false} EarlierCursor(items: seq<Entry>, a: Option<real>, b: Option<real>, now: real)
    requires Sound(items, b, now) && NoLater(a, b)
    ensures Sound(items, a, now)
    ensures forall i | 0 <= i < |items| ::
              && Windows(items, a)[i].start <= Windows(items, b)[i].start
              && Windows(items, a)[i].finish <= Windows(items, b)[i].finish
  {
    if items != [] {
      var first, later := WindowOf(items[0], a), WindowOf(items[0], b);
      EarlierCursor(items[1..], Some(first.finish), Some(later.finish), now);
      forall i | 0 < i < |items|
        ensures Windows(items, a)[i].start <= Windows(items, b)[i].start
        ensures Windows(items, a)[i].finish <= Windows(items, b)[i].finish
      {
        assert Windows(items, a)[i] == Windows(items[1..], Some(first.finish))[i - 1];
        assert Windows(items, b)[i] == Windows(items[1..], Some(later.finish))[i - 1];
      }
    }
  }

  lemma {:induction false} LaterClock(items: seq<Entry>, cursor: Option<real>, now: real, to: real)
    requires Sound(items, cursor, now) && now <= to
    ensures Sound(items, cursor, to)
  {
    if items != [] { LaterClock(items[1..], Some(WindowOf(items[0], cursor).finish), now, to); }
  }

  lemma {:induction false} AppendSound(items: seq<Entry>, cursor: Option<real>, e: Entry, now: real)
    requires Sound(items, cursor, now) && e.queuedAt == now && e.duration >= 0.0 && e.abortedAt.None?
    ensures Sound(items + [e], cursor, now)
    ensures forall i | 0 <= i < |items| :: Windows(items + [e], cursor)[i] == Windows(items, cursor)[i]
    ensures Windows(items + [e], cursor)[|items|].start >= now + PENDING_LAG
  {
    if items != [] {
      var first := WindowOf(items[0], cursor);
      AppendSound(items[1..], Some(first.finish), e, now);
      assert (items + [e])[1..] == items[1..] + [e];
      forall i | 0 < i < |items| ensures Windows(items + [e], cursor)[i] == Windows(items, cursor)[i] {
        assert Windows(items, cursor)[i] == Windows(items[1..], Some(first.finish))[i - 1];
        assert Windows(items + [e], cursor)[i] == Windows(items[1..] + [e], Some(first.finish))[i - 1];
      }
      assert Windows(items + [e], cursor)[|items|] == Windows(items[1..] + [e], Some(first.finish))[|items| - 1];
    }
  }

  lemma DeleteFirstMovesUp(items: seq<Entry>, cursor: Option<real>, now: real)
    requires items != [] && Sound(items, cursor, now)
    ensures Sound(items[1..], cursor, now)
    ensures forall i | 0 < i < |items| ::
              && Windows(items[1..], cursor)[i - 1].start <= Windows(items, cursor)[i].start
              && Windows(items[1..], cursor)[i - 1].finish <= Windows(items, cursor)[i].finish
  {
    SoundInTurn(items, cursor, now);
    EarlierCursor(items[1..], cursor, Some(WindowOf(items[0], cursor).finish), now);
    WindowsTail(items, cursor);
  }

  /** Deleting an entry: those before it keep their windows, those after it move up or stay. */
  lemma {:induction false} DeleteMovesUp(items: seq<Entry>, cursor: Option<real>, k: nat, now: real)
    requires Sound(items, cursor, now) && k < |items|
    ensures var left := items[..k] + items[k + 1..];
            && Sound(left, cursor, now)
            && (forall i | 0 <= i < k :: Windows(left, cursor)[i] == Windows(items, cursor)[i])
            && (forall i | k < i < |items| ::
                  && Windows(left, cursor)[i - 1].start <= Windows(items, cursor)[i].start
                  && Windows(left, cursor)[i - 1].finish <= Windows(items, cursor)[i].finish)
    decreases k
  {
    var left := items[..k] + items[k + 1..];
    if k == 0 {
      assert left == items[1..];
      DeleteFirstMovesUp(items, cursor, now);
    } else {
      var first := WindowOf(items[0], cursor);
      var left' := items[1..][..k - 1] + items[1..][k..];
      DeleteMovesUp(items[1..], Some(first.finish), k - 1, now);
      assert left[0] == items[0] && left[1..] == left';
      assert |left'| > 0 ==> items[0].queuedAt <= left'[0].queuedAt by { QueuedInOrder(items, cursor, now); }
      WindowsTail(items, cursor);
      WindowsTail(left, cursor);
    }
  }

  lemma {:induction false} QueuedInOrder(items: seq<Entry>, cursor: Option<real>, now: real)
    requires Sound(items, cursor, now)
    ensures forall i | 0 < i < |items| :: items[0].queuedAt <= items[i].queuedAt
  {
    if |items| > 1 {
      QueuedInOrder(items[1..], Some(WindowOf(items[0], cursor).finish), now);
      forall i | 0 < i < |items| ensures items[0].queuedAt <= items[i].queuedAt {
        assert items[i] == items[1..][i - 1];
      }
    }
  }

  /** Where the entry stands that a delete removes; `None` when there is no such entry. */
  function IndexOf(items: seq<Entry>, id: nat): (p: Option<nat>)
    ensures p.Some? ==> p.value < |items| && items[p.value].id == id && forall i | 0 <= i < p.value :: items[i].id != id
    ensures p.None? ==> forall i | 0 <= i < |items| :: items[i].id != id
  {
    if items == [] then None
    else if items[0].id == id then Some(0)
    else
      var rest := IndexOf(items[1..], id);
      assert forall i | 0 < i < |items| :: items[i] == items[1..][i - 1];
      if rest.Some? then Some(rest.value + 1) else None
  }

  lemma SkipsBehindFirst(items: seq<Entry>, k: nat)
    requires k + 1 < |items|
    ensures [items[0]] + (items[1..][..k] + items[1..][k + 1..]) == items[..k + 1] + items[k + 2..]
  {
    assert items[..k + 1] == [items[0]] + items[1..][..k];
    assert items[k + 2..] == items[1..][k + 1..];
  }

  lemma {:induction false} WithoutIdIs(items: seq<Entry>, id: nat)
    ensures WithoutId(items, id)
         == match IndexOf(items, id) case None => items case Some(k) => items[..k] + items[k + 1..]
  {
    if items != [] && items[0].id != id {
      WithoutIdIs(items[1..], id);
      match IndexOf(items[1..], id)
      case Some(k) => SkipsBehindFirst(items, k);
      case None => assert [items[0]] + items[1..] == items;
    }
  }

  lemma DeleteIs(s: Timeline, id: nat)
    requires TimelineOk(s)
    ensures match IndexOf(s.entries, id)
            case None => Next(s, Delete(id)) == s
            case Some(k) => Next(s, Delete(id)).entries == s.entries[..k] + s.entries[k + 1..]
  {
    WithoutIdIs(s.entries, id);
  }

  lemma EnqueueKeepsOk(s: Timeline, duration: real)
    requires TimelineOk(s) && duration >= 0.0
    ensures TimelineOk(Next(s, Enqueue(duration)))
  {
    AppendSound(s.entries, None, Entry(s.nextId, s.now, duration, None), s.now);
  }

  lemma AbortKeepsOk(s: Timeline)
    requires TimelineOk(s)
    ensures TimelineOk(Next(s, AbortAll))
  {
    AbortCuts(s.entries, None, s.now);
    AbortedIs(s.entries, None, s.now);
    assert forall i | 0 <= i < |s.entries| :: Next(s, AbortAll).entries[i].id == s.entries[i].id;
  }

  lemma IdsWithout(items: seq<Entry>, k: nat, bound: nat)
    requires k < |items| && forall i | 0 <= i < |items| :: items[i].id < bound
    requires forall i, j | 0 <= i < j < |items| :: items[i].id < items[j].id
    ensures var left := items[..k] + items[k + 1..];
            && (forall i | 0 <= i < |left| :: left[i].id < bound)
            && (forall i, j | 0 <= i < j < |left| :: left[i].id < left[j].id)
  {
  }

  lemma DeleteKeepsOk(s: Timeline, id: nat)
    requires TimelineOk(s)
    ensures TimelineOk(Next(s, Delete(id)))
  {
    DeleteIs(s, id);
    if k :| IndexOf(s.entries, id) == Some(k) {
      assert Sound(Next(s, Delete(id)).entries, None, s.now) by { DeleteMovesUp(s.entries, None, k, s.now); }
      IdsWithout(s.entries, k, s.nextId);
    }
  }

  lemma StepKeepsOk(s: Timeline, step: Step)
    requires TimelineOk(s) && Possible(s, step)
    ensures TimelineOk(Next(s, step))
  {
    match step
    case Enqueue(duration) => EnqueueKeepsOk(s, duration);
    case AbortAll => AbortKeepsOk(s);
    case Delete(id) => DeleteKeepsOk(s, id);
    case Clear =>
    case Advance(to) => LaterClock(s.entries, None, s.now, to);
  }

  // -------------------------------------------------------------- theorems

  function WindowAt(s: Timeline, i: nat): Window
    requires i < |s.entries|
  {
    Windows(s.entries, None)[i]
  }

  function PhaseAt(s: Timeline, i: nat): Phase
    requires i < |s.entries|
  {
    PhaseOf(s.entries[i], WindowAt(s, i), s.now)
  }

  /** A run of operations from `s` to `s'`, each possible when it happens. */
  ghost predicate Run(s: Timeline, steps: seq<Step>, s': Timeline)
    decreases |steps|
  {
    if steps == [] then s' == s
    else Possible(s, steps[0]) && Run(Next(s, steps[0]), steps[1..], s')
  }

  lemma {:induction false} RunKeepsOk(s: Timeline, steps: seq<Step>, s': Timeline)
    requires TimelineOk(s) && Run(s, steps, s')
    ensures TimelineOk(s')
    decreases |steps|
  {
    if steps != [] {
      StepKeepsOk(s, steps[0]);
      RunKeepsOk(Next(s, steps[0]), steps[1..], s');
    }
  }

  /** After any run of enqueues, aborts, deletes, clears and clock readings from an empty queue the
      windows are ordered and disjoint, and at most one mission is executing. */
  lemma OneMissionAtATime(empty: Timeline, steps: seq<Step>, s: Timeline)
    requires empty.entries == [] && Run(empty, steps, s)
    ensures InTurn(Windows(s.entries, None))
    ensures forall i, j | 0 <= i < j < |s.entries| :: !(PhaseAt(s, i) == Executing && PhaseAt(s, j) == Executing)
  {
    RunKeepsOk(empty, steps, s);
    SoundInTurn(s.entries, None, s.now);
  }

  /** Not so for a queue no run can build: an abort instant before the previous finish lets two
      windows overlap. */
  lemma UnreachableQueuesOverlap()
    ensures var items := [Entry(1, 0.0, 10.0, None), Entry(2, 0.0, 10.0, Some(3.0))];
            !InTurn(Windows(items, None))
  {
    var a, b := Entry(1, 0.0, 10.0, None), Entry(2, 0.0, 10.0, Some(3.0));
    assert [a, b][1..] == [b] && [b][1..] == [];
    assert Windows([a, b], None) == [Window(1.0, 11.0)] + Windows([b], Some(11.0));
    assert Windows([b], Some(11.0)) == [Window(3.0, 3.0)];
    assert Windows([a, b], None)[0].finish > Windows([a, b], None)[1].start;
  }

  /** Pending comes before Executing, which comes before the two final phases. */
  function Rank(p: Phase): nat {
    match p case Pending => 0 case Executing => 1 case _ => 2
  }

  predicate NotBack(before: Phase, after: Phase) {
    Rank(before) <= Rank(after) && (Rank(before) == 2 ==> after == before)
  }

  /** The position an entry has after a step, if it survives. */
  function Moved(s: Timeline, step: Step, i: nat): Option<nat>
    requires i < |s.entries|
  {
    match step
    case Clear => None
    case Delete(id) =>
      (match IndexOf(s.entries, id)
       case None => Some(i)
       case Some(k) => if i < k then Some(i) else if i == k then None else Some(i - 1))
    case _ => Some(i)
  }

  lemma EnqueueNotBack(s: Timeline, duration: real, i: nat)
    requires TimelineOk(s) && duration >= 0.0 && i < |s.entries|
    ensures PhaseAt(Next(s, Enqueue(duration)), i) == PhaseAt(s, i)
  {
    AppendSound(s.entries, None, Entry(s.nextId, s.now, duration, None), s.now);
  }

  lemma AbortNotBack(s: Timeline, i: nat)
    requires TimelineOk(s) && i < |s.entries|
    ensures var phase := PhaseAt(Next(s, AbortAll), i);
            if PhaseAt(s, i) == Done then phase == Done else phase == Aborted
  {
    AbortCuts(s.entries, None, s.now);
    AbortedIs(s.entries, None, s.now);
    SoundInTurn(s.entries, None, s.now);
  }

  lemma EarlierWindowNotBack(e: Entry, w: Window, w': Window, clock: real)
    requires w'.start <= w.start && w'.finish <= w.finish && w.start <= w.finish
    ensures NotBack(PhaseOf(e, w, clock), PhaseOf(e, w', clock))
  {
  }

  lemma DeletedAtNotBack(items: seq<Entry>, k: nat, i: nat, now: real)
    requires Sound(items, None, now) && k < |items| && i < |items| && i != k
    ensures var left, i' := items[..k] + items[k + 1..], if i < k then i else i - 1;
            && left[i'] == items[i]
            && NotBack(PhaseOf(items[i], Windows(items, None)[i], now), PhaseOf(items[i], Windows(left, None)[i'], now))
  {
    var left, i' := items[..k] + items[k + 1..], if i < k then i else i - 1;
    SoundInTurn(items, None, now);
    DeleteMovesUp(items, None, k, now);
    EarlierWindowNotBack(items[i], Windows(items, None)[i], Windows(left, None)[i'], now);
  }

  lemma DeleteNotBack(s: Timeline, id: nat, i: nat)
    requires TimelineOk(s) && i < |s.entries| && Moved(s, Delete(id), i).Some?
    ensures var s', i' := Next(s, Delete(id)), Moved(s, Delete(id), i).value;
            i' < |s'.entries| && s'.entries[i'] == s.entries[i] && NotBack(PhaseAt(s, i), PhaseAt(s', i'))
  {
    DeleteIs(s, id);
    if k :| IndexOf(s.entries, id) == Some(k) { DeletedAtNotBack(s.entries, k, i, s.now); }
  }

  /** No surviving entry moves back in Pending, Executing, Done or Aborted, also when an earlier
      entry is deleted, and a final phase stays what it is. */
  lemma StepNeverMovesBack(s: Timeline, step: Step, i: nat)
    requires TimelineOk(s) && Possible(s, step) && i < |s.entries| && Moved(s, step, i).Some?
    ensures var s', i' := Next(s, step), Moved(s, step, i).value;
            i' < |s'.entries| && s'.entries[i'].id == s.entries[i].id && NotBack(PhaseAt(s, i), PhaseAt(s', i'))
  {
    match step
    case Enqueue(duration) => EnqueueNotBack(s, duration, i);
    case AbortAll =>
      AbortNotBack(s, i);
      AbortedIs(s.entries, None, s.now);
    case Delete(id) => DeleteNotBack(s, id, i);
    case Advance(to) =>
  }

  /** A run during which the entry at `i` survives and ends up at `i'`. */
  ghost predicate Survives(s: Timeline, i: nat, steps: seq<Step>, s': Timeline, i': nat)
    requires i < |s.entries| && TimelineOk(s)
    decreases |steps|
  {
    if steps == [] then s' == s && i' == i
    else
      && Possible(s, steps[0]) && Moved(s, steps[0], i).Some?
      && (StepKeepsOk(s, steps[0]); StepNeverMovesBack(s, steps[0], i);
          Survives(Next(s, steps[0]), Moved(s, steps[0], i).value, steps[1..], s', i'))
  }

  /** Nor does it over any run it survives. */
  lemma {:induction false} RunNeverMovesBack(s: Timeline, i: nat, steps: seq<Step>, s': Timeline, i': nat)
    requires TimelineOk(s) && i < |s.entries| && Survives(s, i, steps, s', i')
    ensures i' < |s'.entries| && s'.entries[i'].id == s.entries[i].id && NotBack(PhaseAt(s, i), PhaseAt(s', i'))
    decreases |steps|
  {
    if steps != [] {
      StepKeepsOk(s, steps[0]);
      StepNeverMovesBack(s, steps[0], i);
      RunNeverMovesBack(Next(s, steps[0]), Moved(s, steps[0], i).value, steps[1..], s', i');
    }
  }

  // -------------------------------------------------------------- odometer

  /** What a window contributes up to `clock`. */
  function Spent(w: Window, clock: real): real { Max(0.0, Min(clock, w.finish) - w.start) }

  function Executed(windows: seq<Window>, clock: real): real {
    if windows == [] then 0.0 else Spent(windows[0], clock) + Executed(windows[1..], clock)
  }

  /** The part of a window between two instants. */
  function Clip(w: Window, from: real, to: real): real { Max(0.0, Min(to, w.finish) - Max(from, w.start)) }

  function Clipped(windows: seq<Window>, from: real, to: real): real {
    if windows == [] then 0.0 else Clip(windows[0], from, to) + Clipped(windows[1..], from, to)
  }

  lemma InTurnTail(windows: seq<Window>)
    requires InTurn(windows) && windows != []
    ensures InTurn(windows[1..])
  {
    forall i, j | 0 <= i < j < |windows| - 1 ensures windows[1..][i].finish <= windows[1..][j].start {
      assert windows[i + 1].finish <= windows[j + 1].start;
    }
  }

  /** Disjoint windows cannot fill more of an interval than there is. */
  lemma {:induction false} ClippedFits(windows: seq<Window>, from: real, to: real)
    requires InTurn(windows) && from <= to
    ensures 0.0 <= Clipped(windows, from, to) <= to - from
    ensures windows != [] ==> Clipped(windows, from, to) <= Max(0.0, to - Max(from, windows[0].start))
    decreases |windows|
  {
    if windows != [] {
      InTurnTail(windows);
      ClippedFits(windows[1..], from, to);
      if |windows| > 1 { assert windows[0].finish <= windows[1].start; }
    }
  }

  lemma {:induction false} ExecutedGrowsBy(windows: seq<Window>, from: real, to: real)
    requires InTurn(windows) && from <= to
    ensures Executed(windows, to) == Executed(windows, from) + Clipped(windows, from, to)
    decreases |windows|
  {
    if windows != [] {
      InTurnTail(windows);
      ExecutedGrowsBy(windows[1..], from, to);
    }
  }

  lemma {:induction false} ExecutedIsClipped(windows: seq<Window>, clock: real)
    requires InTurn(windows) && windows != []
    ensures Executed(windows, clock) == Clipped(windows, windows[0].start, Max(clock, windows[0].start))
    decreases |windows|
  {
    ExecutedFrom(windows, windows[0].start, clock);
  }

  lemma {:induction false} ExecutedFrom(windows: seq<Window>, from: real, clock: real)
    requires InTurn(windows) && forall i | 0 <= i < |windows| :: from <= windows[i].start
    ensures Executed(windows, clock) == Clipped(windows, from, Max(clock, from))
    decreases |windows|
  {
    if windows != [] {
      InTurnTail(windows);
      ExecutedFrom(windows[1..], from, clock);
    }
  }

  function Odometer(s: Timeline): real { Executed(Windows(s.entries, None), s.now) }

  lemma {:induction false} SameSpent(windows: seq<Window>, windows': seq<Window>, clock: real)
    requires |windows'| == |windows|
    requires forall i | 0 <= i < |windows| :: Spent(windows'[i], clock) == Spent(windows[i], clock)
    ensures Executed(windows', clock) == Executed(windows, clock)
  {
    if windows != [] { SameSpent(windows[1..], windows'[1..], clock); }
  }

  lemma {:induction false} ExecutedAppend(windows: seq<Window>, w: Window, clock: real)
    ensures Executed(windows + [w], clock) == Executed(windows, clock) + Spent(w, clock)
  {
    if windows != [] {
      ExecutedAppend(windows[1..], w, clock);
      assert (windows + [w])[1..] == windows[1..] + [w];
    }
  }

  /** The odometer does not jump when a mission is queued or the queue is aborted, and between
      two readings of the clock it grows by no more than the time that passed. */
  lemma OdometerIsContinuous(s: Timeline, step: Step)
    requires TimelineOk(s) && Possible(s, step)
    ensures step.Enqueue? || step.AbortAll? ==> Odometer(Next(s, step)) == Odometer(s)
    ensures step.Advance? ==> 0.0 <= Odometer(Next(s, step)) - Odometer(s) <= step.to - s.now
  {
    var windows := Windows(s.entries, None);
    SoundInTurn(s.entries, None, s.now);
    match step
    case Enqueue(duration) =>
      var e := Entry(s.nextId, s.now, duration, None);
      AppendSound(s.entries, None, e, s.now);
      var windows' := Windows(s.entries + [e], None);
      assert windows' == windows + [windows'[|windows|]];
      ExecutedAppend(windows, windows'[|windows|], s.now);
    case AbortAll =>
      AbortCuts(s.entries, None, s.now);
      SameSpent(windows, Windows(Next(s, step).entries, None), s.now);
    case Advance(to) =>
      ExecutedGrowsBy(windows, s.now, to);
      ClippedFits(windows, s.now, to);
    case _ =>
  }

  /** Missions have not been executing for longer than the oldest entry has been queued. */
  lemma OdometerWithinQueueTime(s: Timeline)
    requires TimelineOk(s) && s.entries != []
    ensures 0.0 <= Odometer(s) <= s.now - s.entries[0].queuedAt
  {
    var windows := Windows(s.entries, None);
    SoundInTurn(s.entries, None, s.now);
    ExecutedIsClipped(windows, s.now);
    ClippedFits(windows, windows[0].start, Max(s.now, windows[0].start));
  }

  /** Along a run without deletes the odometer never falls and never outruns the clock. */
  lemma {:induction false} OdometerNeverOutrunsClock(s: Timeline, steps: seq<Step>, s': Timeline)
    requires TimelineOk(s) && Run(s, steps, s')
    requires forall i | 0 <= i < |steps| :: !steps[i].Delete? && !steps[i].Clear?
    ensures 0.0 <= Odometer(s') - Odometer(s) <= s'.now - s.now
    decreases |steps|
  {
    if steps != [] {
      StepKeepsOk(s, steps[0]);
      OdometerIsContinuous(s, steps[0]);
      OdometerNeverOutrunsClock(Next(s, steps[0]), steps[1..], s');
    }
  }

  // --------------------------------------------------- deletes and odometer

  /** Starting at `a` instead of `b` gains at most the time between them. */
  lemma {:induction false} EarlierCursorGains(items: seq<Entry>, a: real, b: real, now: real)
    requires Sound(items, Some(b), now) && a <= b
    ensures Executed(Windows(items, Some(a)), now) <= Executed(Windows(items, Some(b)), now) + Max(0.0, Min(now, b) - a)
  {
    if items != [] {
      var first, later := WindowOf(items[0], Some(a)), WindowOf(items[0], Some(b));
      EarlierCursorGains(items[1..], first.finish, later.finish, now);
      assert Windows(items, Some(a))[1..] == Windows(items[1..], Some(first.finish));
      assert Windows(items, Some(b))[1..] == Windows(items[1..], Some(later.finish));
    }
  }

  /** A cursor before the first start makes no difference. */
  lemma EarlyCursor(items: seq<Entry>, a: Option<real>, b: Option<real>)
    requires items != [] ==>
               NotBefore(a, items[0].queuedAt + PENDING_LAG) == NotBefore(b, items[0].queuedAt + PENDING_LAG)
    ensures Windows(items, a) == Windows(items, b)
  {
  }

  lemma DeleteFirst(items: seq<Entry>, cursor: Option<real>, now: real)
    requires items != [] && Sound(items, cursor, now)
    ensures Executed(Windows(items[1..], cursor), now) <= Executed(Windows(items, cursor), now)
    ensures now <= WindowOf(items[0], cursor).start ==>
              Executed(Windows(items[1..], cursor), now) == Executed(Windows(items, cursor), now)
  {
    var rest, first := items[1..], WindowOf(items[0], cursor);
    var ready := NotBefore(cursor, items[0].queuedAt + PENDING_LAG);
    assert Windows(items, cursor)[1..] == Windows(rest, Some(first.finish));
    SoundInTurn(items, cursor, now);
    if ready <= first.finish {
      EarlyCursor(rest, cursor, Some(ready));
      EarlierCursorGains(rest, ready, first.finish, now);
      ExecutedBound(rest, cursor, Some(first.finish), ready, now);
    } else {
      EarlyCursor(rest, cursor, Some(first.finish));
    }
  }

  /** Nothing has been executed by a queue that cannot have started. */
  lemma ExecutedBound(items: seq<Entry>, a: Option<real>, b: Option<real>, ready: real, now: real)
    requires Sound(items, b, now) && NoLater(a, b)
    requires Windows(items, a) == Windows(items, Some(ready)) && b.Some? && ready <= b.value
    ensures now <= ready ==> Executed(Windows(items, a), now) == 0.0 == Executed(Windows(items, b), now)
  {
    EarlierCursor(items, Some(ready), b, now);
    if now <= ready {
      SoundInTurn(items, Some(ready), now);
      SoundInTurn(items, b, now);
      ExecutedFrom(Windows(items, Some(ready)), ready, now);
      ExecutedFrom(Windows(items, b), ready, now);
      ClippedFits(Windows(items, Some(ready)), ready, ready);
      ClippedFits(Windows(items, b), ready, ready);
    }
  }

  lemma {:induction false} DeleteAt(items: seq<Entry>, cursor: Option<real>, k: nat, now: real)
    requires Sound(items, cursor, now) && k < |items|
    ensures var left := items[..k] + items[k + 1..];
            && Executed(Windows(left, cursor), now) <= Executed(Windows(items, cursor), now)
            && (now <= Windows(items, cursor)[k].start ==>
                  Executed(Windows(left, cursor), now) == Executed(Windows(items, cursor), now))
  {
    var left, first := items[..k] + items[k + 1..], WindowOf(items[0], cursor);
    if k == 0 {
      assert left == items[1..];
      DeleteFirst(items, cursor, now);
    } else {
      var left' := items[1..][..k - 1] + items[1..][k..];
      DeleteAt(items[1..], Some(first.finish), k - 1, now);
      assert left[0] == items[0] && left[1..] == left';
      assert Windows(items, cursor)[1..] == Windows(items[1..], Some(first.finish));
      assert Windows(left, cursor)[1..] == Windows(left', Some(first.finish));
    }
  }

  /** Deleting an entry never raises the odometer, and leaves it alone when the entry had not
      started. */
  lemma DeleteNeverRaisesOdometer(s: Timeline, id: nat)
    requires TimelineOk(s)
    ensures Odometer(Next(s, Delete(id))) <= Odometer(s)
    ensures match IndexOf(s.entries, id)
            case None => Odometer(Next(s, Delete(id))) == Odometer(s)
            case Some(k) => s.now <= WindowAt(s, k).start ==> Odometer(Next(s, Delete(id))) == Odometer(s)
  {
    DeleteIs(s, id);
    if k :| IndexOf(s.entries, id) == Some(k) { DeleteAt(s.entries, None, k, s.now); }
  }

  /** When missions that start in turn from an instant on, without a break, leave the robot idle. An
      aborted one among them ends when it was aborted, whenever it started. */
  function IdleFrom(items: seq<Entry>, from: real): Option<real> {
    if items == [] || items[0].queuedAt + PENDING_LAG > from then Some(from)
    else if items[0].abortedAt.Some? then None
    else IdleFrom(items[1..], from + items[0].duration)
  }

  predicate LeavesIdle(items: seq<Entry>, from: real, now: real) {
    match IdleFrom(items, from) case None => false case Some(x) => x < now
  }

  lemma NothingYet(items: seq<Entry>, cursor: real, now: real)
    requires Sound(items, Some(cursor), now) && now <= cursor
    ensures Executed(Windows(items, Some(cursor)), now) == 0.0
  {
    var windows := Windows(items, Some(cursor));
    SoundInTurn(items, Some(cursor), now);
    ExecutedFrom(windows, cursor, now);
    ClippedFits(windows, cursor, cursor);
  }

  lemma {:induction false} IdleIsLater(items: seq<Entry>, from: real)
    requires forall i | 0 <= i < |items| :: items[i].duration >= 0.0
    ensures IdleFrom(items, from).Some? ==> IdleFrom(items, from).value >= from
  {
    if items != [] && items[0].queuedAt + PENDING_LAG <= from && items[0].abortedAt.None? {
      IdleIsLater(items[1..], from + items[0].duration);
    }
  }

  lemma {:induction false} SoundDurations(items: seq<Entry>, cursor: Option<real>, now: real)
    requires Sound(items, cursor, now)
    ensures forall i | 0 <= i < |items| :: items[i].duration >= 0.0
  {
    if items != [] {
      SoundDurations(items[1..], Some(WindowOf(items[0], cursor).finish), now);
      forall i | 0 < i < |items| ensures items[i].duration >= 0.0 { assert items[i] == items[1..][i - 1]; }
    }
  }

  /** The missions move up by the whole time freed exactly if they leave no idle time before now. */
  ghost predicate GainsAll(items: seq<Entry>, a: real, b: real, now: real) {
    Executed(Windows(items, Some(a)), now) == Executed(Windows(items, Some(b)), now) + Min(now, b) - a
  }

  lemma GapLosesTime(items: seq<Entry>, a: real, b: real, now: real)
    requires Sound(items, Some(b), now) && a < b && a < now
    requires items != [] && items[0].queuedAt + PENDING_LAG > a
    ensures !GainsAll(items, a, b, now) && LeavesIdle(items, a, now)
  {
    var ready := items[0].queuedAt + PENDING_LAG;
    if ready <= b {
      EarlyCursor(items, Some(a), Some(ready));
      EarlierCursorGains(items, ready, b, now);
    } else {
      EarlyCursor(items, Some(a), Some(b));
    }
  }

  lemma {:induction false} MovesUpGapless(items: seq<Entry>, a: real, b: real, now: real)
    requires Sound(items, Some(b), now) && a < b && a < now
    ensures GainsAll(items, a, b, now) <==> !LeavesIdle(items, a, now)
    decreases |items|
  {
    if items != [] {
      var d := items[0].duration;
      if items[0].queuedAt + PENDING_LAG > a {
        GapLosesTime(items, a, b, now);
      } else if items[0].abortedAt.Some? {
        AbortedTakesOver(items, a, b, now);
      } else if a + d >= now {
        LastTakesOver(items, a, b, now);
      } else {
        NextTakesOver(items, a, b, now);
        MovesUpGapless(items[1..], a + d, b + d, now);
      }
    }
  }

  lemma AbortedTakesOver(items: seq<Entry>, a: real, b: real, now: real)
    requires Sound(items, Some(b), now) && a < b && items != []
    requires items[0].queuedAt + PENDING_LAG <= a && items[0].abortedAt.Some?
    ensures GainsAll(items, a, b, now) && !LeavesIdle(items, a, now)
  {
    var t := items[0].abortedAt.value;
    assert Windows(items, Some(a))[0] == Window(a, t) && Windows(items, Some(a))[1..] == Windows(items[1..], Some(t));
    assert Windows(items, Some(b))[0] == Window(b, t) && Windows(items, Some(b))[1..] == Windows(items[1..], Some(t));
  }

  lemma LastTakesOver(items: seq<Entry>, a: real, b: real, now: real)
    requires Sound(items, Some(b), now) && a < b && a < now && items != []
    requires items[0].queuedAt + PENDING_LAG <= a && items[0].abortedAt.None? && a + items[0].duration >= now
    ensures GainsAll(items, a, b, now) && !LeavesIdle(items, a, now)
  {
    var rest, d := items[1..], items[0].duration;
    assert Windows(items, Some(a))[0] == Window(a, a + d) && Windows(items, Some(a))[1..] == Windows(rest, Some(a + d));
    assert Windows(items, Some(b))[0] == Window(b, b + d) && Windows(items, Some(b))[1..] == Windows(rest, Some(b + d));
    EarlierCursor(rest, Some(a + d), Some(b + d), now);
    NothingYet(rest, a + d, now);
    NothingYet(rest, b + d, now);
    LastLeavesNoIdle(items, a, b, now);
  }

  lemma LastLeavesNoIdle(items: seq<Entry>, a: real, b: real, now: real)
    requires Sound(items, Some(b), now) && items != []
    requires items[0].queuedAt + PENDING_LAG <= a < b && items[0].abortedAt.None? && a + items[0].duration >= now
    ensures !LeavesIdle(items, a, now)
  {
    SoundDurations(items, Some(b), now);
    assert forall i | 0 <= i < |items[1..]| :: items[1..][i] == items[i + 1];
    IdleIsLater(items[1..], a + items[0].duration);
  }

  lemma NextTakesOver(items: seq<Entry>, a: real, b: real, now: real)
    requires Sound(items, Some(b), now) && a < b && a < now && items != []
    requires items[0].queuedAt + PENDING_LAG <= a && items[0].abortedAt.None? && a + items[0].duration < now
    ensures var d := items[0].duration;
            && Sound(items[1..], Some(b + d), now)
            && (GainsAll(items, a, b, now) <==> GainsAll(items[1..], a + d, b + d, now))
            && (LeavesIdle(items, a, now) <==> LeavesIdle(items[1..], a + d, now))
  {
    var d := items[0].duration;
    assert Windows(items, Some(a))[0] == Window(a, a + d);
    assert Windows(items, Some(a))[1..] == Windows(items[1..], Some(a + d));
    assert Windows(items, Some(b))[0] == Window(b, b + d);
    assert Windows(items, Some(b))[1..] == Windows(items[1..], Some(b + d));
  }

  /** The mission had begun, and without it the later ones would have left the robot idle. */
  predicate Leaves(items: seq<Entry>, w: Window, now: real) {
    w.start < w.finish && w.start < now && LeavesIdle(items, w.start, now)
  }

  /** The mission took no time. */
  lemma DeleteEmptyFirst(items: seq<Entry>, cursor: Option<real>, now: real)
    requires items != [] && Sound(items, cursor, now)
    requires WindowOf(items[0], cursor).start >= WindowOf(items[0], cursor).finish
    ensures Executed(Windows(items[1..], cursor), now) >= Executed(Windows(items, cursor), now)
  {
    var rest, first := items[1..], WindowOf(items[0], cursor);
    assert Windows(items, cursor) == [first] + Windows(rest, Some(first.finish));
    EarlyCursor(rest, cursor, Some(first.finish));
  }

  lemma DeleteRunFirst(items: seq<Entry>, cursor: Option<real>, now: real)
    requires items != [] && Sound(items, cursor, now)
    requires WindowOf(items[0], cursor).start < WindowOf(items[0], cursor).finish
    ensures Executed(Windows(items[1..], cursor), now) < Executed(Windows(items, cursor), now)
       <==> WindowOf(items[0], cursor).start < now && LeavesIdle(items[1..], WindowOf(items[0], cursor).start, now)
  {
    var rest, first := items[1..], WindowOf(items[0], cursor);
    DeleteFirst(items, cursor, now);
    assert Windows(items, cursor) == [first] + Windows(rest, Some(first.finish));
    EarlyCursor(rest, cursor, Some(first.start));
    if first.start < now { MovesUpGapless(rest, first.start, first.finish, now); }
  }

  lemma DeleteFirstLowers(items: seq<Entry>, cursor: Option<real>, now: real)
    requires items != [] && Sound(items, cursor, now)
    ensures Executed(Windows(items[1..], cursor), now) < Executed(Windows(items, cursor), now)
       <==> Leaves(items[1..], WindowOf(items[0], cursor), now)
  {
    if WindowOf(items[0], cursor).start < WindowOf(items[0], cursor).finish {
      DeleteRunFirst(items, cursor, now);
    } else {
      DeleteEmptyFirst(items, cursor, now);
    }
  }

  lemma {:induction false} DeleteAtLowers(items: seq<Entry>, cursor: Option<real>, k: nat, now: real)
    requires Sound(items, cursor, now) && k < |items|
    ensures Executed(Windows(items[..k] + items[k + 1..], cursor), now) < Executed(Windows(items, cursor), now)
       <==> Leaves(items[k + 1..], Windows(items, cursor)[k], now)
    decreases k
  {
    var left, first := items[..k] + items[k + 1..], WindowOf(items[0], cursor);
    if k == 0 {
      assert left == items[1..];
      DeleteFirstLowers(items, cursor, now);
    } else {
      var left' := items[1..][..k - 1] + items[1..][k..];
      DeleteAtLowers(items[1..], Some(first.finish), k - 1, now);
      assert left[0] == items[0] && left[1..] == left' && items[1..][k..] == items[k + 1..];
      assert Windows(items, cursor)[1..] == Windows(items[1..], Some(first.finish));
      assert Windows(left, cursor)[1..] == Windows(left', Some(first.finish));
    }
  }

  /** A delete lowers the odometer exactly if the mission had begun and the later ones, moved up into
      its place, would by now have left the robot idle. */
  lemma DeleteLowersExactly(s: Timeline, id: nat)
    requires TimelineOk(s)
    ensures Odometer(Next(s, Delete(id))) < Odometer(s)
       <==> match IndexOf(s.entries, id)
            case None => false
            case Some(k) => Leaves(s.entries[k + 1..], WindowAt(s, k), s.now)
  {
    DeleteIs(s, id);
    if k :| IndexOf(s.entries, id) == Some(k) { DeleteAtLowers(s.entries, None, k, s.now); }
  }

  /** It can lower it: deleting a mission that ran takes its seconds away. */
  lemma DeleteCanLowerOdometer(duration: real, wait: real)
    requires duration > 0.0 && wait >= PENDING_LAG + duration
    ensures var empty := Timeline([], 0.0, 1);
            var s := Next(Next(empty, Enqueue(duration)), Advance(wait));
            && Run(empty, [Enqueue(duration), Advance(wait)], s)
            && Odometer(s) == duration && Odometer(Next(s, Delete(1))) == 0.0
  {
    var empty := Timeline([], 0.0, 1);
    var s := Next(Next(empty, Enqueue(duration)), Advance(wait));
    var e := Entry(1, 0.0, duration, None);
    assert [Enqueue(duration), Advance(wait)][1..] == [Advance(wait)];
    assert [Advance(wait)][1..] == [];
    assert s.entries == [e] && [e][1..] == [];
    assert Windows([e], None) == [Window(PENDING_LAG, PENDING_LAG + duration)];
    assert Executed(Windows([e], None), wait)
             == Spent(Window(PENDING_LAG, PENDING_LAG + duration), wait) + Executed([], wait);
  }

  // ---------------------------------------------------------------- object

  /** The stored queue; the clock reading is handed in. */
  class MissionQueue {
    var entries: seq<Entry>
    var nextId: nat

    ghost function At(now: real): Timeline
      reads this
    {
      Timeline(entries, now, nextId)
    }

    constructor ()
      ensures entries == [] && nextId == 1
    {
      entries, nextId := [], 1;
    }

    method ComputeWindows() returns (out: seq<Window>)
      ensures out == Windows(entries, None)
    {
      out := [];
      var cursor: Option<real> := None;
      for i := 0 to |entries|
        invariant out + Windows(entries[i..], cursor) == Windows(entries, None)
      {
        var start := entries[i].queuedAt + PENDING_LAG;
        if cursor.Some? { start := if start >= cursor.value then start else cursor.value; }
        var finish := start + entries[i].duration;
        if entries[i].abortedAt.Some? {
          var t := entries[i].abortedAt.value;
          start := if start <= t then start else t;
          finish := if start >= t then start else t;
        }
        assert Window(start, finish) == WindowOf(entries[i], cursor);
        assert entries[i..][0] == entries[i] && entries[i..][1..] == entries[i + 1..];
        out := out + [Window(start, finish)];
        cursor := Some(finish);
      }
    }

    method Post(now: real, duration: real) returns (id: nat)
      requires duration >= 0.0
      modifies this
      ensures At(now) == Next(old(At(now)), Enqueue(duration)) && id == old(nextId)
    {
      id := nextId;
      entries := entries + [Entry(nextId, now, duration, None)];
      nextId := nextId + 1;
    }

    method AbortQueue(now: real)
      modifies this`entries
      ensures At(now) == Next(old(At(now)), AbortAll)
    {
      var windows := ComputeWindows();
      ghost var before := entries;
      AbortedIs(before, None, now);
      for i := 0 to |windows|
        invariant |entries| == |before|
        invariant forall k | 0 <= k < i :: entries[k] == AbortedQueue(before, None, now)[k]
        invariant forall k | i <= k < |before| :: entries[k] == before[k]
      {
        if windows[i].finish > now && entries[i].abortedAt.None? {
          entries := entries[i := entries[i].(abortedAt := Some(now))];
        }
      }
    }

    method Remove(id: nat) returns (found: bool)
      modifies this`entries
      ensures forall now :: At(now) == Next(old(At(now)), Delete(id))
      ensures found == IndexOf(old(entries), id).Some?
    {
      WithoutIdIs(entries, id);
      ghost var before := IndexOf(entries, id);
      for i := 0 to |entries|
        invariant entries == old(entries) && forall k | 0 <= k < i :: entries[k].id != id
      {
        if entries[i].id == id {
          entries := entries[..i] + entries[i + 1..];
          return true;
        }
      }
      return false;
    }

    /** Empties the queue; nothing is left to have been executed. */
    method RemoveAll()
      modifies this`entries
      ensures forall now :: At(now) == Next(old(At(now)), Clear) && Odometer(At(now)) == 0.0
    {
      entries := [];
    }

    method ExecutedSeconds(clock: real) returns (total: real)
      ensures total == Odometer(At(clock))
    {
      var windows := ComputeWindows();
      total := 0.0;
      for i := 0 to |windows|
        invariant total == Executed(windows[..i], clock)
      {
        var end := if clock <= windows[i].finish then clock else windows[i].finish;
        if end - windows[i].start > 0.0 { total := total + (end - windows[i].start); }
        ExecutedAppend(windows[..i], windows[i], clock);
        assert windows[..i + 1] == windows[..i] + [windows[i]];
      }
      assert windows[..|windows|] == windows;
    }
  }
}
