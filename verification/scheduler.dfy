/** Step 3 of a planning run: one forward pass over the selected activities
    that fills days 1..N in order under a per-day count target and the daily
    hour ceiling. */
module Scheduler {
  import opened TravelConfig
  import opened Sequences
  import opened DayPlan

  /** Python's floor division `a // b`. Dafny's `/` rounds so that the
      remainder is non-negative, which agrees with flooring when the divisor
      is positive; for a negative divisor both operands are negated first. */
  function FloorDiv(a: int, b: int): int
    requires b != 0
  {
    if b > 0 then a / b else (-a) / (-b)
  }

  /** The per-day target `max(1, count // days)`. */
  function TargetPerDay(count: nat, numDays: int): (r: nat)
    requires numDays != 0
    ensures r >= 1
    ensures numDays > 0 && count >= numDays ==> r * numDays <= count < (r + 1) * numDays
    ensures numDays < 0 || count < 2 * numDays ==> r == 1
  {
    var q := FloorDiv(count, numDays);
    if q > 1 then q else 1
  }

  /** A day as the inner loop leaves it, with the cursor where it stopped. */
  datatype DayFill = DayFill(slot: DaySlot, cursor: nat)

  /** The inner loop for one day. While the day holds fewer than `target`
      activities and the cursor has not run off the list, the activity under
      the cursor is appended (with the running totals updated) when it fits
      in the remaining hours; either way the cursor moves past it, so an
      activity that does not fit is skipped for good. */
  function FillDay(acts: seq<Activity>, target: nat, slot: DaySlot, cursor: nat): (r: DayFill)
    requires cursor <= |acts|
    requires WellFormedSlot(slot) && |slot.activities| <= target
    ensures cursor <= r.cursor <= |acts|
    ensures r.slot.day == slot.day
    ensures WellFormedSlot(r.slot) && |r.slot.activities| <= target
    ensures |slot.activities| <= |r.slot.activities|
    ensures r.slot.activities[..|slot.activities|] == slot.activities
    ensures Subseq(r.slot.activities[|slot.activities|..], acts[cursor..r.cursor])
    ensures r.cursor < |acts| ==> |r.slot.activities| == target
    ensures NoNegativeDurations(acts) ==> slot.totalHours <= r.slot.totalHours
    decreases |acts| - cursor
  {
    if |slot.activities| < target && cursor < |acts| then
      var a := acts[cursor];
      if slot.totalHours + a.duration <= MaxHoursPerDay then
        SumsConcat(slot.activities, [a]);
        var grown := DaySlot(slot.day, slot.activities + [a], slot.totalHours + a.duration, slot.totalCost + a.cost);
        var r := FillDay(acts, target, grown, cursor + 1);
        KeptStep(slot.activities, r.slot.activities, acts, cursor, r.cursor);
        r
      else
        var r := FillDay(acts, target, slot, cursor + 1);
        SkippedStep(r.slot.activities[|slot.activities|..], acts, cursor, r.cursor);
        r
    else
      assert slot.activities[|slot.activities|..] == [];
      DayFill(slot, cursor)
  }

  /** The inner loop passes over an entry only when the day is still below
      its target and the entry does not fit on top of what the day holds
      at that moment; once the day is full it reads no further. */
  lemma {:induction false} FillDaySkipsOnlyMisfits(acts: seq<Activity>, target: nat, slot: DaySlot, cursor: nat)
    requires cursor <= |acts|
    requires WellFormedSlot(slot) && |slot.activities| <= target
    ensures var r := FillDay(acts, target, slot, cursor);
      SkippedDidNotFit(acts, cursor, r.cursor, r.slot.activities[|slot.activities|..], slot.totalHours,
                       target - |slot.activities|)
    decreases |acts| - cursor, 1
  {
    if |slot.activities| < target && cursor < |acts| {
      if slot.totalHours + acts[cursor].duration <= MaxHoursPerDay {
        FillDaySkipsAfterKeeping(acts, target, slot, cursor);
      } else {
        FillDaySkipsAfterPassing(acts, target, slot, cursor);
      }
    }
  }

  /** `FillDaySkipsOnlyMisfits` when the entry under the cursor is kept. */
  lemma {:induction false} FillDaySkipsAfterKeeping(acts: seq<Activity>, target: nat, slot: DaySlot, cursor: nat)
    requires cursor < |acts| && WellFormedSlot(slot) && |slot.activities| < target
    requires slot.totalHours + acts[cursor].duration <= MaxHoursPerDay
    ensures var r := FillDay(acts, target, slot, cursor);
      SkippedDidNotFit(acts, cursor, r.cursor, r.slot.activities[|slot.activities|..], slot.totalHours,
                       target - |slot.activities|)
    decreases |acts| - cursor, 0
  {
    var a := acts[cursor];
    SumsConcat(slot.activities, [a]);
    var grown := DaySlot(slot.day, slot.activities + [a], slot.totalHours + a.duration, slot.totalCost + a.cost);
    var r := FillDay(acts, target, grown, cursor + 1);
    assert FillDay(acts, target, slot, cursor) == r;
    FillDaySkipsOnlyMisfits(acts, target, grown, cursor + 1);
    KeptStepSkips(slot.activities, r.slot.activities, acts, cursor, r.cursor, slot.totalHours, target - |slot.activities|);
  }

  /** `FillDaySkipsOnlyMisfits` when the entry under the cursor is passed
      over. */
  lemma {:induction false} FillDaySkipsAfterPassing(acts: seq<Activity>, target: nat, slot: DaySlot, cursor: nat)
    requires cursor < |acts| && WellFormedSlot(slot) && |slot.activities| < target
    requires slot.totalHours + acts[cursor].duration > MaxHoursPerDay
    ensures var r := FillDay(acts, target, slot, cursor);
      SkippedDidNotFit(acts, cursor, r.cursor, r.slot.activities[|slot.activities|..], slot.totalHours,
                       target - |slot.activities|)
    decreases |acts| - cursor, 0
  {
    var r := FillDay(acts, target, slot, cursor + 1);
    assert FillDay(acts, target, slot, cursor) == r;
    FillDaySkipsOnlyMisfits(acts, target, slot, cursor + 1);
    SkippedStep(r.slot.activities[|slot.activities|..], acts, cursor, r.cursor);
    SkippedStepSkips(r.slot.activities[|slot.activities|..], acts, cursor, r.cursor, slot.totalHours, target - |slot.activities|);
  }

  /** No activity of the list has a negative duration, so a day's hours
      only grow as the inner loop goes on. */
  predicate NoNegativeDurations(acts: seq<Activity>)
  {
    forall k :: 0 <= k < |acts| ==> acts[k].duration >= 0
  }

  /** Every entry of the window `acts[lo..hi]` that the day did not add
      was passed over because it did not fit when the cursor reached it,
      the day then still being below its target. */
  predicate SkippedDidNotFit(acts: seq<Activity>, lo: nat, hi: nat, added: seq<Activity>, start: int, room: nat)
    requires lo <= hi <= |acts|
  {
    forall j :: lo <= j < hi && acts[j] !in added ==> TooLongWhenReached(acts, lo, hi, added, start, room, j)
  }

  /** When the cursor reached position `j`, the day held `start` hours plus
      those of the entries it had added so far, and fewer than `room`
      entries had been added (`room` being how many more the day could take
      when the window opened): the added list splits into a part kept from
      the window before `j` and a part kept after it, the first part is
      shorter than `room`, and `acts[j]` on top of it exceeds the daily
      ceiling. */
  predicate TooLongWhenReached(acts: seq<Activity>, lo: nat, hi: nat, added: seq<Activity>, start: int, room: nat, j: nat)
    requires lo <= j < hi <= |acts|
  {
    exists p :: 0 <= p <= |added| && p < room
      && Subseq(added[..p], acts[lo..j])
      && Subseq(added[p..], acts[j + 1..hi])
      && start + SumHours(added[..p]) + acts[j].duration > MaxHoursPerDay
  }

  /** The step where the inner loop appends `acts[c]`: the entry itself is
      kept, and an entry the rest of the loop passed over had the added
      entries before it, now preceded by `acts[c]`, in the day. */
  lemma KeptStepSkips(xs: seq<Activity>, ys: seq<Activity>, acts: seq<Activity>, c: nat, c': nat, start: int, room: nat)
    requires c < c' <= |acts| && 1 <= room
    requires |xs| + 1 <= |ys| && ys[..|xs| + 1] == xs + [acts[c]]
    requires SkippedDidNotFit(acts, c + 1, c', ys[|xs| + 1..], start + acts[c].duration, room - 1)
    ensures SkippedDidNotFit(acts, c, c', ys[|xs|..], start, room)
  {
    var n := |xs|;
    assert ys[n] == ys[..n + 1][n] == acts[c];
    assert ys[n..] == [acts[c]] + ys[n + 1..];
    forall j | c <= j < c' && acts[j] !in ys[n..]
      ensures TooLongWhenReached(acts, c, c', ys[n..], start, room, j)
    {
      assert acts[j] !in ys[n + 1..];
      KeptEntryBefore(acts, c, c', ys[n + 1..], start, room, j);
    }
  }

  /** One passed-over entry, seen from one position earlier in a window
      whose first entry was added. */
  lemma KeptEntryBefore(acts: seq<Activity>, c: nat, c': nat, rest: seq<Activity>, start: int, room: nat, j: nat)
    requires c < j < c' <= |acts| && 1 <= room
    requires TooLongWhenReached(acts, c + 1, c', rest, start + acts[c].duration, room - 1, j)
    ensures TooLongWhenReached(acts, c, c', [acts[c]] + rest, start, room, j)
  {
    var p :| 0 <= p <= |rest| && p < room - 1
      && Subseq(rest[..p], acts[c + 1..j])
      && Subseq(rest[p..], acts[j + 1..c'])
      && start + acts[c].duration + SumHours(rest[..p]) + acts[j].duration > MaxHoursPerDay;
    var added := [acts[c]] + rest;
    assert added[..p + 1] == [acts[c]] + rest[..p];
    assert added[p + 1..] == rest[p..];
    assert acts[c..j] == [acts[c]] + acts[c + 1..j];
    assert SumHours(added[..p + 1]) == acts[c].duration + SumHours(rest[..p]);
  }

  /** The step where the inner loop passes over `acts[c]` because it does
      not fit in the hours the day already holds, the day being below its
      target. */
  lemma SkippedStepSkips(zs: seq<Activity>, acts: seq<Activity>, c: nat, c': nat, start: int, room: nat)
    requires c < c' <= |acts| && 1 <= room
    requires start + acts[c].duration > MaxHoursPerDay
    requires Subseq(zs, acts[c + 1..c'])
    requires SkippedDidNotFit(acts, c + 1, c', zs, start, room)
    ensures SkippedDidNotFit(acts, c, c', zs, start, room)
  {
    forall j | c <= j < c' && acts[j] !in zs
      ensures TooLongWhenReached(acts, c, c', zs, start, room, j)
    {
      if j == c {
        assert zs[..0] == [] && zs[0..] == zs;
        SubseqNil(acts[c..c]);
      } else {
        SkippedEntryBefore(zs, acts, c, c', start, room, j);
      }
    }
  }

  /** One passed-over entry, seen from one position earlier in a window
      whose first entry was passed over too. */
  lemma SkippedEntryBefore(zs: seq<Activity>, acts: seq<Activity>, c: nat, c': nat, start: int, room: nat, j: nat)
    requires c < j < c' <= |acts|
    requires TooLongWhenReached(acts, c + 1, c', zs, start, room, j)
    ensures TooLongWhenReached(acts, c, c', zs, start, room, j)
  {
    var p :| 0 <= p <= |zs| && p < room
      && Subseq(zs[..p], acts[c + 1..j])
      && Subseq(zs[p..], acts[j + 1..c'])
      && start + SumHours(zs[..p]) + acts[j].duration > MaxHoursPerDay;
    SkippedStep(zs[..p], acts, c, j);
  }

  /** The step where the inner loop appends `acts[c]`: what the rest of the
      loop added after it is a sub-sequence of the rest of its window, so
      the day's new tail is one of the whole window. */
  lemma KeptStep(xs: seq<Activity>, ys: seq<Activity>, acts: seq<Activity>, c: nat, c': nat)
    requires c < c' <= |acts|
    requires |xs| + 1 <= |ys| && ys[..|xs| + 1] == xs + [acts[c]]
    requires Subseq(ys[|xs| + 1..], acts[c + 1..c'])
    ensures ys[..|xs|] == xs
    ensures Subseq(ys[|xs|..], acts[c..c'])
  {
    var n := |xs|;
    assert ys[..n] == ys[..n + 1][..n];
    assert ys[n] == ys[..n + 1][n];
    var tail := ys[n..];
    assert tail[0] == acts[c] && tail[1..] == ys[n + 1..];
    assert acts[c..c'][0] == acts[c] && acts[c..c'][1..] == acts[c + 1..c'];
  }

  /** The step where the inner loop passes over `acts[c]`. */
  lemma SkippedStep(zs: seq<Activity>, acts: seq<Activity>, c: nat, c': nat)
    requires c < c' <= |acts|
    requires Subseq(zs, acts[c + 1..c'])
    ensures Subseq(zs, acts[c..c'])
  {
    assert acts[c..c'][1..] == acts[c + 1..c'];
  }

  /** Where day `i` of a trace started reading: the cursor the previous day
      stopped at, or the initial cursor for the first day. */
  function WindowStart(fills: seq<DayFill>, cursor: nat, i: nat): nat
    requires i < |fills|
  {
    if i == 0 then cursor else fills[i - 1].cursor
  }

  function Slots(fills: seq<DayFill>): (r: seq<DaySlot>)
    ensures |r| == |fills|
    ensures forall i :: 0 <= i < |r| ==> r[i] == fills[i].slot
    decreases |fills|
  {
    if fills == [] then [] else [fills[0].slot] + Slots(fills[1..])
  }

  /** The outer loop from day `day` to `numDays`, one fill per day, the
      cursor carried from each day to the next. */
  function ScheduleTrace(acts: seq<Activity>, target: nat, day: int, numDays: int, cursor: nat): (r: seq<DayFill>)
    requires cursor <= |acts|
    ensures |r| == if day <= numDays then numDays - day + 1 else 0
    ensures forall i :: 0 <= i < |r| ==>
      r[i].slot.day == day + i && WellFormedSlot(r[i].slot) && |r[i].slot.activities| <= target
    ensures forall i :: 0 <= i < |r| && r[i].cursor < |acts| ==> |r[i].slot.activities| == target
    decreases if day <= numDays then numDays - day + 1 else 0
  {
    if day > numDays then []
    else
      var f := FillDay(acts, target, EmptySlot(day), cursor);
      [f] + ScheduleTrace(acts, target, day + 1, numDays, f.cursor)
  }

  /** Each day of a trace read a window of the list that starts where the
      previous day stopped; the windows advance monotonically, and each day
      keeps a sub-sequence of its own window. */
  predicate WindowsHold(acts: seq<Activity>, r: seq<DayFill>, cursor: nat)
  {
    && (forall i :: 0 <= i < |r| ==> cursor <= WindowStart(r, cursor, i) <= r[i].cursor <= |acts|)
    && (forall k, i :: 0 <= k < i < |r| ==> r[k].cursor <= WindowStart(r, cursor, i))
    && (forall i :: 0 <= i < |r| ==>
          Subseq(r[i].slot.activities, acts[WindowStart(r, cursor, i)..r[i].cursor]))
  }

  /** Day `i` of a trace read the window from `WindowStart` to its own
      cursor and kept a sub-sequence of it. */
  lemma {:induction false} TraceDayInWindow(acts: seq<Activity>, target: nat, day: int, numDays: int, cursor: nat, i: nat)
    requires cursor <= |acts|
    requires i < |ScheduleTrace(acts, target, day, numDays, cursor)|
    ensures var r := ScheduleTrace(acts, target, day, numDays, cursor);
      && cursor <= WindowStart(r, cursor, i) <= r[i].cursor <= |acts|
      && Subseq(r[i].slot.activities, acts[WindowStart(r, cursor, i)..r[i].cursor])
    decreases i
  {
    var r := ScheduleTrace(acts, target, day, numDays, cursor);
    var f := FillDay(acts, target, EmptySlot(day), cursor);
    var rest := ScheduleTrace(acts, target, day + 1, numDays, f.cursor);
    assert r == [f] + rest;
    if i == 0 {
      assert f.slot.activities[0..] == f.slot.activities;
    } else {
      TraceDayInWindow(acts, target, day + 1, numDays, f.cursor, i - 1);
      assert r[i] == rest[i - 1];
      assert WindowStart(r, cursor, i) == WindowStart(rest, f.cursor, i - 1);
    }
  }

  /** A day's window starts no earlier than where any earlier day stopped. */
  lemma {:induction false} TraceMonotone(acts: seq<Activity>, target: nat, day: int, numDays: int, cursor: nat, k: nat, i: nat)
    requires cursor <= |acts|
    requires k < i < |ScheduleTrace(acts, target, day, numDays, cursor)|
    ensures var r := ScheduleTrace(acts, target, day, numDays, cursor);
      r[k].cursor <= WindowStart(r, cursor, i)
    decreases k
  {
    var r := ScheduleTrace(acts, target, day, numDays, cursor);
    var f := FillDay(acts, target, EmptySlot(day), cursor);
    var rest := ScheduleTrace(acts, target, day + 1, numDays, f.cursor);
    assert r == [f] + rest;
    assert r[i] == rest[i - 1];
    assert WindowStart(r, cursor, i) == WindowStart(rest, f.cursor, i - 1);
    if k == 0 {
      TraceDayInWindow(acts, target, day + 1, numDays, f.cursor, i - 1);
    } else {
      TraceMonotone(acts, target, day + 1, numDays, f.cursor, k - 1, i - 1);
      assert r[k] == rest[k - 1];
    }
  }

  lemma TraceWindows(acts: seq<Activity>, target: nat, day: int, numDays: int, cursor: nat)
    requires cursor <= |acts|
    ensures WindowsHold(acts, ScheduleTrace(acts, target, day, numDays, cursor), cursor)
  {
    var r := ScheduleTrace(acts, target, day, numDays, cursor);
    forall i | 0 <= i < |r|
      ensures cursor <= WindowStart(r, cursor, i) <= r[i].cursor <= |acts|
      ensures Subseq(r[i].slot.activities, acts[WindowStart(r, cursor, i)..r[i].cursor])
    {
      TraceDayInWindow(acts, target, day, numDays, cursor, i);
    }
    forall k, i | 0 <= k < i < |r|
      ensures r[k].cursor <= WindowStart(r, cursor, i)
    {
      TraceMonotone(acts, target, day, numDays, cursor, k, i);
    }
  }

  /** The days of a trace, read in order, keep a sub-sequence of the list
      from the initial cursor on. */
  lemma {:induction false} TraceKeepsOrder(acts: seq<Activity>, target: nat, day: int, numDays: int, cursor: nat)
    requires cursor <= |acts|
    ensures Subseq(Flatten(Slots(ScheduleTrace(acts, target, day, numDays, cursor))), acts[cursor..])
    decreases if day <= numDays then numDays - day + 1 else 0
  {
    if day > numDays {
      SubseqNil(acts[cursor..]);
    } else {
      var f := FillDay(acts, target, EmptySlot(day), cursor);
      var rest := ScheduleTrace(acts, target, day + 1, numDays, f.cursor);
      TraceKeepsOrder(acts, target, day + 1, numDays, f.cursor);
      var r := [f] + rest;
      assert r == ScheduleTrace(acts, target, day, numDays, cursor);
      assert f.slot.activities[0..] == f.slot.activities;
      assert Slots(r) == [f.slot] + Slots(rest);
      assert Flatten(Slots(r)) == f.slot.activities + Flatten(Slots(rest));
      SuffixSplit(acts, cursor, f.cursor);
      SubseqConcat(f.slot.activities, acts[cursor..f.cursor], Flatten(Slots(rest)), acts[f.cursor..]);
    }
  }

  /** The trace of a full scheduling run over `numDays` days. */
  function Trace(acts: seq<Activity>, numDays: int): seq<DayFill>
    requires numDays != 0
  {
    ScheduleTrace(acts, TargetPerDay(|acts|, numDays), 1, numDays, 0)
  }

  /** The scheduler: exactly `numDays` day-slots keyed 1..N, each within the
      hour ceiling and the per-day target and with totals that match its
      list; the days, read in order, keep a sub-sequence of the selection, so
      nothing is placed twice or out of order. */
  function Schedule(acts: seq<Activity>, numDays: int): (r: seq<DaySlot>)
    requires numDays != 0
    ensures |r| == if numDays > 0 then numDays else 0
    ensures forall i :: 0 <= i < |r| ==> r[i].day == i + 1
    ensures WellFormedPlan(r)
    ensures forall i :: 0 <= i < |r| ==> |r[i].activities| <= TargetPerDay(|acts|, numDays)
    ensures Subseq(Flatten(r), acts)
  {
    assert acts[0..] == acts;
    TraceKeepsOrder(acts, TargetPerDay(|acts|, numDays), 1, numDays, 0);
    Slots(Trace(acts, numDays))
  }

  /** Day `i` of a trace passed over only entries of its window that did
      not fit in the hours the day held when the cursor reached them. */
  lemma {:induction false} TraceDaySkipsOnlyMisfits(acts: seq<Activity>, target: nat, day: int, numDays: int, cursor: nat, i: nat)
    requires cursor <= |acts|
    requires i < |ScheduleTrace(acts, target, day, numDays, cursor)|
    ensures var r := ScheduleTrace(acts, target, day, numDays, cursor);
      && WindowStart(r, cursor, i) <= r[i].cursor <= |acts|
      && SkippedDidNotFit(acts, WindowStart(r, cursor, i), r[i].cursor, r[i].slot.activities, 0, target)
    decreases i
  {
    var r := ScheduleTrace(acts, target, day, numDays, cursor);
    var f := FillDay(acts, target, EmptySlot(day), cursor);
    var rest := ScheduleTrace(acts, target, day + 1, numDays, f.cursor);
    assert r == [f] + rest;
    if i == 0 {
      FillDaySkipsOnlyMisfits(acts, target, EmptySlot(day), cursor);
      assert f.slot.activities[0..] == f.slot.activities;
    } else {
      var k: nat := i - 1;
      TraceDaySkipsOnlyMisfits(acts, target, day + 1, numDays, f.cursor, k);
      assert r[i] == rest[k];
      assert WindowStart(r, cursor, i) == WindowStart(rest, f.cursor, k);
    }
  }

  /** The day whose window holds position `j`, for a `j` between the initial
      cursor and where day `n` stopped. */
  lemma {:induction false} FindWindow(fills: seq<DayFill>, cursor: nat, j: nat, n: nat) returns (i: nat)
    requires n < |fills| && cursor <= j < fills[n].cursor
    ensures i <= n && WindowStart(fills, cursor, i) <= j < fills[i].cursor
    decreases n
  {
    if n == 0 || fills[n - 1].cursor <= j {
      i := n;
    } else {
      i := FindWindow(fills, cursor, j, n - 1);
    }
  }

  /** The scheduler leaves an activity out for one of the two reasons the
      inner loop has: some day's cursor reached it when the hours of the
      entries that day had kept so far left no room for it, or the days ran
      out before the cursor reached it, and then the last day holds its full
      target. A negative day count has no days at all. */
  lemma ScheduleSkipsOnlyMisfits(acts: seq<Activity>, numDays: int, j: nat)
    requires numDays != 0
    requires j < |acts| && acts[j] !in Flatten(Schedule(acts, numDays))
    ensures var t := Trace(acts, numDays);
      var plan := Schedule(acts, numDays);
      || numDays < 0
      || (exists i :: 0 <= i < numDays && WindowStart(t, 0, i) <= j < t[i].cursor <= |acts|
            && TooLongWhenReached(acts, WindowStart(t, 0, i), t[i].cursor, plan[i].activities, 0, TargetPerDay(|acts|, numDays), j))
      || (numDays > 0 && t[numDays - 1].cursor <= j && |plan[numDays - 1].activities| == TargetPerDay(|acts|, numDays))
  {
    var target := TargetPerDay(|acts|, numDays);
    var t := Trace(acts, numDays);
    var plan := Schedule(acts, numDays);
    if numDays < 0 {
      return;
    }
    var n := numDays - 1;
    assert plan[n] == t[n].slot;
    if j < t[n].cursor {
      var i := FindWindow(t, 0, j, n);
      TraceDaySkipsOnlyMisfits(acts, target, 1, numDays, 0, i);
      InFlattenIffOnSomeDay(plan, acts[j]);
      assert plan[i] == t[i].slot;
    }
  }

  /** Keeping a sub-sequence of a list with distinct names keeps the names
      distinct. */
  lemma {:induction false} SubseqUniqueNames(xs: seq<Activity>, ys: seq<Activity>)
    requires Subseq(xs, ys) && UniqueNames(ys)
    ensures UniqueNames(xs)
    decreases |ys|
  {
    if xs != [] {
      assert UniqueNames(ys[1..]);
      if xs[0] == ys[0] && Subseq(xs[1..], ys[1..]) {
        SubseqUniqueNames(xs[1..], ys[1..]);
        forall j | 0 < j < |xs| ensures xs[0].name != xs[j].name {
          assert xs[j] in xs[1..];
          SubseqMember(xs[1..], ys[1..], xs[j]);
          var m :| 0 <= m < |ys[1..]| && ys[1..][m] == xs[j];
          assert ys[m + 1] == xs[j];
        }
      } else {
        SubseqUniqueNames(xs, ys[1..]);
      }
    }
  }

  /** No activity is scheduled twice: with distinct names in the selection,
      the names across all days are distinct. */
  lemma ScheduleNoRepeats(acts: seq<Activity>, numDays: int)
    requires numDays != 0 && UniqueNames(acts)
    ensures UniqueNames(Flatten(Schedule(acts, numDays)))
  {
    SubseqUniqueNames(Flatten(Schedule(acts, numDays)), acts);
  }

  /** With distinct names, what a day keeps from its window cannot be an
      entry lying outside that window. */
  lemma OutsideWindowNotKept(acts: seq<Activity>, lo: nat, hi: nat, kept: seq<Activity>, j: nat)
    requires lo <= hi <= |acts| && j < |acts| && !(lo <= j < hi)
    requires UniqueNames(acts) && Subseq(kept, acts[lo..hi])
    ensures acts[j] !in kept
  {
    forall x | x in kept ensures x.name != acts[j].name {
      SubseqMember(kept, acts[lo..hi], x);
      var m :| 0 <= m < hi - lo && acts[lo..hi][m] == x;
      assert acts[lo + m] == x;
    }
  }

  /** An activity the cursor passed on some day without placing it (because
      it did not fit in that day's remaining hours) is on no day of the
      schedule: it is never retried later. */
  lemma SkippedNeverPlaced(acts: seq<Activity>, numDays: int, i: nat, j: nat)
    requires numDays != 0 && UniqueNames(acts) && j < |acts|
    requires i < |Trace(acts, numDays)|
    requires WindowStart(Trace(acts, numDays), 0, i) <= j < Trace(acts, numDays)[i].cursor
    requires acts[j] !in Trace(acts, numDays)[i].slot.activities
    ensures acts[j] !in Flatten(Schedule(acts, numDays))
  {
    var target := TargetPerDay(|acts|, numDays);
    var r := Trace(acts, numDays);
    var plan := Schedule(acts, numDays);
    forall k | 0 <= k < |plan| ensures acts[j] !in plan[k].activities {
      assert plan[k] == r[k].slot;
      if k != i {
        TraceDayInWindow(acts, target, 1, numDays, 0, k);
        if k < i {
          TraceMonotone(acts, target, 1, numDays, 0, k, i);
        } else {
          TraceMonotone(acts, target, 1, numDays, 0, i, k);
        }
        OutsideWindowNotKept(acts, WindowStart(r, 0, k), r[k].cursor, r[k].slot.activities, j);
      }
    }
    InFlattenIffOnSomeDay(plan, acts[j]);
  }
}
