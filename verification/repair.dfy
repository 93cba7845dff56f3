/** One pass of the budget repair loop: every day that holds activities is
    sorted by cost, most expensive first, and loses its head. */
module Repair {
  import opened TravelConfig
  import opened DayPlan

  predicate SortedByCostDesc(s: seq<Activity>)
  {
    forall i, j :: 0 <= i < j < |s| ==> s[i].cost >= s[j].cost
  }

  /** Inserts `x` into a list sorted most expensive first, ahead of every
      entry that costs the same or less; an entry inserted this way stays
      ahead of the equal-cost entries that came after it in the input. */
  function InsertByCost(x: Activity, t: seq<Activity>): (r: seq<Activity>)
    ensures |r| == |t| + 1
    ensures multiset(r) == multiset(t) + multiset{x}
    ensures r[0] == if t == [] || x.cost >= t[0].cost then x else t[0]
    decreases |t|
  {
    if t == [] || x.cost >= t[0].cost then [x] + t
    else
      assert t == [t[0]] + t[1..];
      [t[0]] + InsertByCost(x, t[1..])
  }

  lemma {:induction false} InsertKeepsSorted(x: Activity, t: seq<Activity>)
    requires SortedByCostDesc(t)
    ensures SortedByCostDesc(InsertByCost(x, t))
    decreases |t|
  {
    if t != [] && x.cost < t[0].cost {
      InsertKeepsSorted(x, t[1..]);
      var rest := InsertByCost(x, t[1..]);
      assert forall i :: 0 <= i < |t[1..]| ==> t[1..][i] == t[i + 1];
      InsertBounded(x, t[1..], t[0].cost);
      assert InsertByCost(x, t) == [t[0]] + rest;
    }
  }

  /** Inserting keeps every price under a common ceiling. */
  lemma {:induction false} InsertBounded(x: Activity, t: seq<Activity>, ceiling: int)
    requires x.cost <= ceiling
    requires forall i :: 0 <= i < |t| ==> t[i].cost <= ceiling
    ensures forall i :: 0 <= i < |InsertByCost(x, t)| ==> InsertByCost(x, t)[i].cost <= ceiling
    decreases |t|
  {
    if t != [] && x.cost < t[0].cost {
      assert forall i :: 0 <= i < |t[1..]| ==> t[1..][i] == t[i + 1];
      InsertBounded(x, t[1..], ceiling);
      assert InsertByCost(x, t) == [t[0]] + InsertByCost(x, t[1..]);
    }
  }

  lemma {:induction false} InsertSums(x: Activity, t: seq<Activity>)
    ensures SumCost(InsertByCost(x, t)) == x.cost + SumCost(t)
    ensures SumHours(InsertByCost(x, t)) == x.duration + SumHours(t)
    decreases |t|
  {
    if t != [] && x.cost < t[0].cost {
      InsertSums(x, t[1..]);
    }
  }

  /** The entries of `s` that cost exactly `c`, in their order in `s`. */
  function WithCost(s: seq<Activity>, c: int): seq<Activity>
    decreases |s|
  {
    if s == [] then [] else (if s[0].cost == c then [s[0]] else []) + WithCost(s[1..], c)
  }

  /** Insertion puts `x` ahead of every entry of its own cost and leaves the
      entries of every other cost in their order. */
  lemma {:induction false} InsertWithCost(x: Activity, t: seq<Activity>, c: int)
    ensures WithCost(InsertByCost(x, t), c) == (if x.cost == c then [x] else []) + WithCost(t, c)
    decreases |t|
  {
    if t == [] || x.cost >= t[0].cost {
      WithCostCons(x, t, c);
    } else {
      var rest := InsertByCost(x, t[1..]);
      assert InsertByCost(x, t) == [t[0]] + rest;
      assert t == [t[0]] + t[1..];
      WithCostCons(t[0], rest, c);
      WithCostCons(t[0], t[1..], c);
      InsertWithCost(x, t[1..], c);
      if x.cost == c {
        // t[0] costs more than x, so it is not in x's cost class.
        assert WithCost(t, c) == WithCost(t[1..], c);
        assert WithCost(InsertByCost(x, t), c) == WithCost(rest, c);
      } else {
        assert WithCost(rest, c) == WithCost(t[1..], c);
      }
    }
  }

  lemma WithCostCons(x: Activity, t: seq<Activity>, c: int)
    ensures WithCost([x] + t, c) == (if x.cost == c then [x] else []) + WithCost(t, c)
  {
    assert ([x] + t)[1..] == t;
  }

  /** Stable sort by cost, most expensive first: entries of equal cost keep
      their relative order, as Python's `sort(key=..., reverse=True)` does. */
  function SortByCostDesc(s: seq<Activity>): (r: seq<Activity>)
    ensures |r| == |s|
    ensures multiset(r) == multiset(s)
    ensures SortedByCostDesc(r)
    ensures forall c :: WithCost(r, c) == WithCost(s, c)
    ensures SumCost(r) == SumCost(s) && SumHours(r) == SumHours(s)
    decreases |s|
  {
    if s == [] then []
    else
      var rest := SortByCostDesc(s[1..]);
      assert s == [s[0]] + s[1..];
      InsertKeepsSorted(s[0], rest);
      InsertSums(s[0], rest);
      assert forall c :: WithCost(InsertByCost(s[0], rest), c) == WithCost(s, c) by {
        forall c ensures WithCost(InsertByCost(s[0], rest), c) == WithCost(s, c) {
          InsertWithCost(s[0], rest, c);
        }
      }
      InsertByCost(s[0], rest)
  }

  /** `i` holds a maximal cost and nothing before it costs as much: the entry
      a stable descending sort puts first. */
  predicate IsFirstMax(s: seq<Activity>, i: int)
  {
    && 0 <= i < |s|
    && (forall k :: 0 <= k < |s| ==> s[k].cost <= s[i].cost)
    && (forall k :: 0 <= k < i ==> s[k].cost < s[i].cost)
  }

  function FirstMaxIndex(s: seq<Activity>): (r: nat)
    requires |s| > 0
    ensures IsFirstMax(s, r)
    decreases |s|
  {
    if |s| == 1 then 0
    else
      var j := 1 + FirstMaxIndex(s[1..]);
      assert forall k :: 1 <= k < |s| ==> s[k] == s[1..][k - 1];
      if s[0].cost >= s[j].cost then 0 else j
  }

  lemma FirstMaxUnique(s: seq<Activity>, i: int, k: int)
    requires IsFirstMax(s, i) && IsFirstMax(s, k)
    ensures i == k
  {
    assert s[i].cost == s[k].cost;
  }

  /** The head of the sorted list is the first entry of maximal cost. */
  lemma {:induction false} SortHeadIsFirstMax(s: seq<Activity>)
    requires |s| > 0
    ensures SortByCostDesc(s)[0] == s[FirstMaxIndex(s)]
    decreases |s|
  {
    if |s| > 1 {
      SortHeadIsFirstMax(s[1..]);
      var t := SortByCostDesc(s[1..]);
      var j := 1 + FirstMaxIndex(s[1..]);
      assert t[0] == s[j];
    }
  }

  /** Dropping the head of a list drops it from its own cost class and
      leaves every other cost class as it was. */
  lemma DropHeadWithCost(s: seq<Activity>)
    requires |s| > 0
    ensures [s[0]] + WithCost(s[1..], s[0].cost) == WithCost(s, s[0].cost)
    ensures forall c :: c != s[0].cost ==> WithCost(s[1..], c) == WithCost(s, c)
  {
  }

  /** One day's share of a repair pass. A day with activities has them
      sorted by cost, most expensive first, and the head removed, its cost
      and hours subtracted from the running totals; an empty day is left
      alone. */
  function RepairDay(slot: DaySlot): (r: DaySlot)
    ensures r.day == slot.day
    ensures slot.activities == [] ==> r == slot
    ensures slot.activities != [] ==>
      var removed := slot.activities[FirstMaxIndex(slot.activities)];
      && multiset(r.activities) + multiset{removed} == multiset(slot.activities)
      && SortedByCostDesc(r.activities)
      && r.totalCost == slot.totalCost - removed.cost
      && r.totalHours == slot.totalHours - removed.duration
  {
    if slot.activities == [] then slot
    else
      var sorted := SortByCostDesc(slot.activities);
      SortHeadIsFirstMax(slot.activities);
      assert sorted == [sorted[0]] + sorted[1..];
      DaySlot(slot.day, sorted[1..], slot.totalHours - sorted[0].duration, slot.totalCost - sorted[0].cost)
  }

  /** The order a day is left in: the removed entry was the first of its
      cost in the day's list, and entries of equal cost keep their list
      order, so a later pass meets ties in scheduling order. */
  lemma RepairDayKeepsTieOrder(slot: DaySlot)
    requires slot.activities != []
    ensures var removed := slot.activities[FirstMaxIndex(slot.activities)];
      && [removed] + WithCost(RepairDay(slot).activities, removed.cost) == WithCost(slot.activities, removed.cost)
      && (forall c :: c != removed.cost ==> WithCost(RepairDay(slot).activities, c) == WithCost(slot.activities, c))
  {
    var sorted := SortByCostDesc(slot.activities);
    SortHeadIsFirstMax(slot.activities);
    DropHeadWithCost(sorted);
  }

  /** A repair pass touches every day independently. */
  function RepairPass(plan: seq<DaySlot>): (r: seq<DaySlot>)
    ensures |r| == |plan|
    ensures forall i :: 0 <= i < |plan| ==> r[i] == RepairDay(plan[i])
    decreases |plan|
  {
    if plan == [] then [] else [RepairDay(plan[0])] + RepairPass(plan[1..])
  }

  /** `k` repair passes in a row. */
  function PassN(plan: seq<DaySlot>, k: nat): seq<DaySlot>
    decreases k
  {
    if k == 0 then plan else RepairPass(PassN(plan, k - 1))
  }

  /** `plan'` is `plan` with zero or more activities taken off some days. */
  predicate TrimmedFrom(plan': seq<DaySlot>, plan: seq<DaySlot>)
  {
    && |plan'| == |plan|
    && forall i :: 0 <= i < |plan| ==>
         plan'[i].day == plan[i].day && multiset(plan'[i].activities) <= multiset(plan[i].activities)
  }

  /** Number of days that hold at least one activity. */
  function BusyDays(plan: seq<DaySlot>): nat
    decreases |plan|
  {
    if plan == [] then 0 else (if plan[0].activities != [] then 1 else 0) + BusyDays(plan[1..])
  }

  /** A pass keeps every day's totals equal to the sums over its list, every
      day under the hour ceiling, and every remaining activity a catalog-like
      one. */
  lemma PassPreservesInvariants(plan: seq<DaySlot>)
    requires WellFormedPlan(plan) && ActivitiesWellFormed(plan)
    ensures WellFormedPlan(RepairPass(plan)) && ActivitiesWellFormed(RepairPass(plan))
  {
    var r := RepairPass(plan);
    forall i | 0 <= i < |plan|
      ensures WellFormedSlot(r[i])
      ensures forall k :: 0 <= k < |r[i].activities| ==> WellFormedActivity(r[i].activities[k])
    {
      RepairDayInvariants(plan[i]);
    }
  }

  /** The same for one day. */
  lemma RepairDayInvariants(slot: DaySlot)
    requires WellFormedSlot(slot)
    requires forall k :: 0 <= k < |slot.activities| ==> WellFormedActivity(slot.activities[k])
    ensures WellFormedSlot(RepairDay(slot))
    ensures forall k :: 0 <= k < |RepairDay(slot).activities| ==> WellFormedActivity(RepairDay(slot).activities[k])
  {
    var s := slot.activities;
    if s != [] {
      var sorted := SortByCostDesc(s);
      var rest := RepairDay(slot).activities;
      assert sorted == [sorted[0]] + sorted[1..];
      SumsConcat([sorted[0]], sorted[1..]);
      assert rest == sorted[1..];
      assert sorted[0] in multiset(s);
      assert WellFormedActivity(sorted[0]);
      forall k | 0 <= k < |rest| ensures WellFormedActivity(rest[k]) {
        assert rest[k] in multiset(s);
      }
    }
  }

  /** A pass removes exactly one activity from each day that has any: the
      scheduled activities, laid end to end, lose one entry per busy day. */
  lemma PassRemovesOnePerBusyDay(plan: seq<DaySlot>)
    ensures ActivityCount(RepairPass(plan)) == ActivityCount(plan) - BusyDays(plan)
    ensures |Flatten(RepairPass(plan))| == |Flatten(plan)| - BusyDays(plan)
  {
    PassCountsOnePerBusyDay(plan);
    ActivityCountIsFlattenLength(plan);
    ActivityCountIsFlattenLength(RepairPass(plan));
  }

  lemma {:induction false} PassCountsOnePerBusyDay(plan: seq<DaySlot>)
    ensures ActivityCount(RepairPass(plan)) == ActivityCount(plan) - BusyDays(plan)
    decreases |plan|
  {
    if plan != [] {
      PassCountsOnePerBusyDay(plan[1..]);
      var r := RepairPass(plan);
      assert r[1..] == RepairPass(plan[1..]);
      if plan[0].activities != [] {
        assert |multiset(r[0].activities)| + 1 == |multiset(plan[0].activities)|;
      }
    }
  }

  /** With non-negative prices, a pass never raises the activity cost. */
  lemma {:induction false} PassCostNonIncreasing(plan: seq<DaySlot>)
    requires ActivitiesWellFormed(plan)
    ensures PlanActivityCost(RepairPass(plan)) <= PlanActivityCost(plan)
    decreases |plan|
  {
    if plan != [] {
      assert ActivitiesWellFormed(plan[1..]) by {
        forall i, k | 0 <= i < |plan[1..]| && 0 <= k < |plan[1..][i].activities|
          ensures WellFormedActivity(plan[1..][i].activities[k])
        {
          assert plan[1..][i] == plan[i + 1];
        }
      }
      PassCostNonIncreasing(plan[1..]);
      var r := RepairPass(plan);
      assert r[1..] == RepairPass(plan[1..]);
      var s := plan[0].activities;
      if s != [] {
        var m := FirstMaxIndex(s);
        assert WellFormedActivity(s[m]);
      }
    }
  }

  /** Repeated passes keep the day-slot invariants and the catalog
      invariant on every activity. */
  lemma {:induction false} PassNWellFormed(plan: seq<DaySlot>, k: nat)
    requires WellFormedPlan(plan) && ActivitiesWellFormed(plan)
    ensures WellFormedPlan(PassN(plan, k)) && ActivitiesWellFormed(PassN(plan, k))
    decreases k
  {
    if k > 0 {
      var j: nat := k - 1;
      var prev := PassN(plan, j);
      assert PassN(plan, k) == RepairPass(prev);
      PassNWellFormed(plan, j);
      PassPreservesInvariants(prev);
    }
  }

  /** Repeated passes only take activities away. */
  lemma {:induction false} PassNTrimmed(plan: seq<DaySlot>, k: nat)
    ensures TrimmedFrom(PassN(plan, k), plan)
    decreases k
  {
    if k > 0 {
      var j: nat := k - 1;
      var prev := PassN(plan, j);
      PassNTrimmed(plan, j);
      PassTrims(prev);
      TrimmedTransitive(RepairPass(prev), prev, plan);
    } else {
      TrimmedReflexive(plan);
    }
  }

  /** Repeated passes never raise the activity cost of a catalog plan. */
  lemma {:induction false} PassNCostNonIncreasing(plan: seq<DaySlot>, k: nat)
    requires WellFormedPlan(plan) && ActivitiesWellFormed(plan)
    ensures PlanActivityCost(PassN(plan, k)) <= PlanActivityCost(plan)
    decreases k
  {
    if k > 0 {
      var j: nat := k - 1;
      var prev := PassN(plan, j);
      PassNCostNonIncreasing(plan, j);
      PassNWellFormed(plan, j);
      PassCostNonIncreasing(prev);
      assert PassN(plan, k) == RepairPass(prev);
    }
  }

  /** The three facts above together. */
  lemma PassNInvariants(plan: seq<DaySlot>, k: nat)
    requires WellFormedPlan(plan) && ActivitiesWellFormed(plan)
    ensures WellFormedPlan(PassN(plan, k)) && ActivitiesWellFormed(PassN(plan, k))
    ensures TrimmedFrom(PassN(plan, k), plan)
    ensures PlanActivityCost(PassN(plan, k)) <= PlanActivityCost(plan)
  {
    PassNWellFormed(plan, k);
    PassNTrimmed(plan, k);
    PassNCostNonIncreasing(plan, k);
  }

  /** A pass takes at most one activity off each day and changes nothing
      else about the day's position. */
  lemma PassTrims(plan: seq<DaySlot>)
    ensures TrimmedFrom(RepairPass(plan), plan)
  {
    var r := RepairPass(plan);
    forall i | 0 <= i < |plan|
      ensures multiset(r[i].activities) <= multiset(plan[i].activities)
    {
      if plan[i].activities != [] {
        var s := plan[i].activities;
        assert multiset(r[i].activities) + multiset{s[FirstMaxIndex(s)]} == multiset(s);
      }
    }
  }

  lemma TrimmedReflexive(plan: seq<DaySlot>)
    ensures TrimmedFrom(plan, plan)
  {
  }

  lemma TrimmedTransitive(p3: seq<DaySlot>, p2: seq<DaySlot>, p1: seq<DaySlot>)
    requires TrimmedFrom(p3, p2) && TrimmedFrom(p2, p1)
    ensures TrimmedFrom(p3, p1)
  {
    forall i | 0 <= i < |p1|
      ensures multiset(p3[i].activities) <= multiset(p1[i].activities)
    {
      assert multiset(p3[i].activities) <= multiset(p2[i].activities);
    }
  }

  /** Slot `i` of the plan is day `i + 1`. */
  predicate NumberedFromOne(plan: seq<DaySlot>)
  {
    forall i :: 0 <= i < |plan| ==> plan[i].day == i + 1
  }

  /** Trimming keeps every slot's day number, so a plan numbered from 1
      stays numbered from 1. */
  lemma TrimmedKeepsNumbering(plan': seq<DaySlot>, plan: seq<DaySlot>)
    requires TrimmedFrom(plan', plan) && NumberedFromOne(plan)
    ensures NumberedFromOne(plan')
  {
  }

  /** Trimming only removes: whatever a trimmed plan schedules, the original
      scheduled too. */
  lemma TrimmedKeepsOnly(plan': seq<DaySlot>, plan: seq<DaySlot>, a: Activity)
    requires TrimmedFrom(plan', plan) && a in Flatten(plan')
    ensures a in Flatten(plan)
  {
    InFlattenIffOnSomeDay(plan', a);
    var i :| 0 <= i < |plan'| && a in plan'[i].activities;
    assert a in multiset(plan[i].activities);
    InFlattenIffOnSomeDay(plan, a);
  }
}
