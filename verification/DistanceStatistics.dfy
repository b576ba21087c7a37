/** behaviors.py: executed seconds bucketed by simulated day. */
module DistanceStatistics {
  import opened MissionTimeline

  const DAY := 86400.0

  /** The number of the day an instant falls on; floored, also before day 0. */
  function DayOf(t: real): int { (t / DAY).Floor }

  function DayStart(day: int): real { day as real * DAY }

  lemma DayBounds(t: real)
    ensures DayStart(DayOf(t)) <= t < DayStart(DayOf(t) + 1)
  {
    var q := t / DAY;
    assert q * DAY == t;
    assert DayOf(t) as real <= q < DayOf(t) as real + 1.0;
  }

  lemma DaysInOrder(a: int, b: int)
    requires a <= b
    ensures DayStart(a) <= DayStart(b)
  {
  }

  /** The seconds a window spends on a day, up to `clock`. */
  function OnDay(w: Window, clock: real, day: int): real {
    Clip(Window(w.start, Min(w.finish, clock)), DayStart(day), DayStart(day + 1))
  }

  /** The same for all windows: what the statistics of that day should say. */
  function DaySeconds(windows: seq<Window>, clock: real, day: int): real {
    if windows == [] then 0.0
    else DaySeconds(windows[..|windows| - 1], clock, day) + OnDay(windows[|windows| - 1], clock, day)
  }

  function Bucket(buckets: map<int, real>, day: int): real { if day in buckets then buckets[day] else 0.0 }

  lemma DayOfIs(t: real, day: int)
    requires DayStart(day) <= t < DayStart(day + 1)
    ensures DayOf(t) == day
  {
    var q := t / DAY;
    assert q * DAY == t;
    assert day as real <= q < (day + 1) as real;
  }

  lemma DayOfInOrder(a: real, b: real)
    requires a <= b
    ensures DayOf(a) <= DayOf(b)
  {
    DayBounds(a);
    DayBounds(b);
    if DayOf(a) > DayOf(b) { DaysInOrder(DayOf(b) + 1, DayOf(a)); }
  }

  /** Going on from `cursor` to `span` within one day adds to that day alone. */
  lemma SpanOnDays(w: Window, cursor: real, span: real, day: int)
    requires w.start <= cursor <= span <= w.finish
    requires DayStart(day) <= cursor && span <= DayStart(day + 1)
    ensures forall d :: OnDay(w, span, d) == OnDay(w, cursor, d) + (if d == day then span - cursor else 0.0)
  {
    forall d ensures OnDay(w, span, d) == OnDay(w, cursor, d) + (if d == day then span - cursor else 0.0) {
      if d < day { DaysInOrder(d + 1, day); }
      if d > day { DaysInOrder(day + 1, d); }
    }
  }

  /** `updated` is `buckets` plus what the window spends on each day up to `cursor`. */
  ghost predicate Added(updated: map<int, real>, buckets: map<int, real>, w: Window, cursor: real) {
    && (forall day :: Bucket(updated, day) == Bucket(buckets, day) + OnDay(w, cursor, day))
    && (forall day :: day in updated <==> day in buckets || OnDay(w, cursor, day) > 0.0)
  }

  lemma SpanAdds(updated: map<int, real>, buckets: map<int, real>, w: Window, cursor: real, span: real, day: int)
    requires Added(updated, buckets, w, cursor)
    requires w.start <= cursor < span <= w.finish && DayStart(day) <= cursor && span <= DayStart(day + 1)
    ensures Added(updated[day := Bucket(updated, day) + (span - cursor)], buckets, w, span)
  {
    SpanOnDays(w, cursor, span, day);
  }

  /** A span that stops short of the end stops at midnight, so the next one is on the next day. */
  lemma NextDay(cursor: real, end: real)
    requires cursor < end
    ensures DayOf(end) >= DayOf(cursor)
    ensures DayStart(DayOf(cursor)) + DAY == DayStart(DayOf(cursor) + 1) > cursor
    ensures DayOf(DayStart(DayOf(cursor) + 1)) == DayOf(cursor) + 1
  {
    DayBounds(cursor);
    DayOfInOrder(cursor, end);
    DayOfIs(DayStart(DayOf(cursor) + 1), DayOf(cursor) + 1);
  }

  // ------------------------------------------------------------- the loop

  /** Splits one window at midnight into the buckets of the days it touches. */
  method AddWindow(buckets: map<int, real>, w: Window, clock: real) returns (updated: map<int, real>)
    ensures forall day :: Bucket(updated, day) == Bucket(buckets, day) + OnDay(w, clock, day)
    ensures forall day :: day in updated <==> day in buckets || OnDay(w, clock, day) > 0.0
  {
    updated := buckets;
    var end := Min(w.finish, clock);
    var cursor := w.start;
    while cursor < end
      invariant w.start <= cursor && (cursor <= end || cursor == w.start)
      invariant Added(updated, buckets, w, cursor)
      decreases if cursor < end then DayOf(end) - DayOf(cursor) + 1 else 0
    {
      var day := DayOf(cursor);
      var dayEnd := DayStart(day) + DAY;
      var spanEnd := Min(end, dayEnd);
      NextDay(cursor, end);
      DayBounds(cursor);
      SpanAdds(updated, buckets, w, cursor, spanEnd, day);
      if spanEnd < end { DayOfInOrder(spanEnd, end); }
      updated := updated[day := Bucket(updated, day) + (spanEnd - cursor)];
      cursor := spanEnd;
    }
  }

  /** Executed seconds by day; today is always there. */
  method ByDay(windows: seq<Window>, clock: real) returns (buckets: map<int, real>)
    ensures forall day :: Bucket(buckets, day) == DaySeconds(windows, clock, day)
    ensures forall day :: day in buckets <==> day == DayOf(clock) || DaySeconds(windows, clock, day) > 0.0
  {
    buckets := map[DayOf(clock) := 0.0];
    for i := 0 to |windows|
      invariant forall day :: Bucket(buckets, day) == DaySeconds(windows[..i], clock, day)
      invariant forall day :: day in buckets <==> day == DayOf(clock) || DaySeconds(windows[..i], clock, day) > 0.0
      invariant forall day :: DaySeconds(windows[..i], clock, day) >= 0.0
    {
      assert windows[..i + 1][..i] == windows[..i];
      buckets := AddWindow(buckets, windows[i], clock);
    }
    assert windows[..|windows|] == windows;
  }

  // -------------------------------------------------------------- theorems

  lemma {:induction false} ClippedAppend(windows: seq<Window>, w: Window, from: real, to: real)
    ensures Clipped(windows + [w], from, to) == Clipped(windows, from, to) + Clip(w, from, to)
  {
    if windows != [] {
      ClippedAppend(windows[1..], w, from, to);
      assert (windows + [w])[1..] == windows[1..] + [w];
    }
  }

  /** A day's seconds are the overlap of the windows with that day, as far as it has passed. */
  lemma {:induction false} DaySecondsIsOverlap(windows: seq<Window>, clock: real, day: int)
    ensures DaySeconds(windows, clock, day) == Clipped(windows, DayStart(day), Min(DayStart(day + 1), clock))
  {
    if windows != [] {
      var init, last := windows[..|windows| - 1], windows[|windows| - 1];
      assert windows == init + [last];
      DaySecondsIsOverlap(init, clock, day);
      ClippedAppend(init, last, DayStart(day), Min(DayStart(day + 1), clock));
    }
  }

  lemma {:induction false} ClippedEmpty(windows: seq<Window>, from: real, to: real)
    requires InTurn(windows) && to <= from
    ensures Clipped(windows, from, to) == 0.0
    decreases |windows|
  {
    if windows != [] {
      InTurnTail(windows);
      ClippedEmpty(windows[1..], from, to);
    }
  }

  lemma {:induction false} ClippedSplits(windows: seq<Window>, from: real, mid: real, to: real)
    requires InTurn(windows) && from <= mid <= to
    ensures Clipped(windows, from, to) == Clipped(windows, from, mid) + Clipped(windows, mid, to)
    decreases |windows|
  {
    if windows != [] {
      InTurnTail(windows);
      ClippedSplits(windows[1..], from, mid, to);
    }
  }

  /** No day has more seconds than a day. */
  lemma DayIsNotOverbooked(windows: seq<Window>, clock: real, day: int)
    requires InTurn(windows)
    ensures 0.0 <= DaySeconds(windows, clock, day) <= 86400.0
  {
    DaySecondsIsOverlap(windows, clock, day);
    var from, to := DayStart(day), Min(DayStart(day + 1), clock);
    if from <= to { ClippedFits(windows, from, to); } else { ClippedEmpty(windows, from, to); }
  }

  /** The buckets of `count` days from day `from` on. */
  function SumOfDays(buckets: map<int, real>, from: int, count: nat): real {
    if count == 0 then 0.0 else SumOfDays(buckets, from, count - 1) + Bucket(buckets, from + count - 1)
  }

  lemma {:induction false} SumIsOverlap(windows: seq<Window>, clock: real, buckets: map<int, real>, from: int,
                                        count: nat)
    requires InTurn(windows) && DayStart(from) <= clock
    requires forall day :: Bucket(buckets, day) == DaySeconds(windows, clock, day)
    ensures SumOfDays(buckets, from, count) == Clipped(windows, DayStart(from), Min(DayStart(from + count), clock))
    decreases count
  {
    if count == 0 {
      ClippedEmpty(windows, DayStart(from), Min(DayStart(from), clock));
    } else {
      var last := from + count - 1;
      SumIsOverlap(windows, clock, buckets, from, count - 1);
      DaySecondsIsOverlap(windows, clock, last);
      DaysInOrder(from, last);
      var start, mid, end := DayStart(from), DayStart(last), Min(DayStart(last + 1), clock);
      if mid <= clock {
        ClippedSplits(windows, start, mid, end);
      } else {
        ClippedEmpty(windows, mid, end);
      }
    }
  }

  /** The days between the first mission and now add up to the executed seconds; no other day has
      any. */
  lemma DaysConserveSeconds(windows: seq<Window>, clock: real, buckets: map<int, real>, from: int, count: nat)
    requires InTurn(windows) && windows != [] && windows[0].start <= clock
    requires forall day :: Bucket(buckets, day) == DaySeconds(windows, clock, day)
    requires from == DayOf(windows[0].start) && from + count == DayOf(clock) + 1
    ensures SumOfDays(buckets, from, count) == Executed(windows, clock)
    ensures forall day | !(from <= day < from + count) :: Bucket(buckets, day) == 0.0
  {
    DayBounds(windows[0].start);
    DayBounds(clock);
    SumIsOverlap(windows, clock, buckets, from, count);
    ExecutedFrom(windows, DayStart(from), clock);
    forall day | !(from <= day < from + count) ensures Bucket(buckets, day) == 0.0 {
      DaySecondsIsOverlap(windows, clock, day);
      if day < from {
        DaysInOrder(day + 1, from);
        NothingBefore(windows, DayStart(day), Min(DayStart(day + 1), clock));
      } else {
        DaysInOrder(from + count, day);
        ClippedEmpty(windows, DayStart(day), Min(DayStart(day + 1), clock));
      }
    }
  }

  lemma {:induction false} NothingBefore(windows: seq<Window>, from: real, to: real)
    requires InTurn(windows) && forall i | 0 <= i < |windows| :: to <= windows[i].start
    ensures Clipped(windows, from, to) == 0.0
    decreases |windows|
  {
    if windows != [] {
      InTurnTail(windows);
      NothingBefore(windows[1..], from, to);
    }
  }
}
