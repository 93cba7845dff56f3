/** The per-day container the scheduler fills and the repair loop trims. */
module DayPlan {
  import opened TravelConfig

  /** One day of the plan: its 1-based index, the activities in the order
      they were placed, and the running hour and cost totals. */
  datatype DaySlot = DaySlot(day: int, activities: seq<Activity>, totalHours: int, totalCost: int)

  function EmptySlot(day: int): DaySlot
  {
    DaySlot(day, [], 0, 0)
  }

  function SumHours(s: seq<Activity>): int
    decreases |s|
  {
    if s == [] then 0 else s[0].duration + SumHours(s[1..])
  }

  function SumCost(s: seq<Activity>): int
    decreases |s|
  {
    if s == [] then 0 else s[0].cost + SumCost(s[1..])
  }

  lemma {:induction false} SumsConcat(a: seq<Activity>, b: seq<Activity>)
    ensures SumHours(a + b) == SumHours(a) + SumHours(b)
    ensures SumCost(a + b) == SumCost(a) + SumCost(b)
    decreases |a|
  {
    if a == [] {
      assert a + b == b;
    } else {
      assert (a + b)[1..] == a[1..] + b;
      SumsConcat(a[1..], b);
    }
  }

  /** The day-slot invariant: the running totals equal the sums over the
      activity list, and the hours stay within the daily ceiling. */
  predicate WellFormedSlot(s: DaySlot)
  {
    && s.totalHours == SumHours(s.activities)
    && s.totalCost == SumCost(s.activities)
    && s.totalHours <= MaxHoursPerDay
  }

  /** A day holding a single activity that fits in a day is well formed. */
  lemma SingleActivitySlot(day: int, a: Activity)
    requires 0 <= a.duration <= MaxHoursPerDay
    ensures WellFormedSlot(DaySlot(day, [a], a.duration, a.cost))
  {
    assert [a][1..] == [];
  }

  predicate WellFormedPlan(plan: seq<DaySlot>)
  {
    forall i :: 0 <= i < |plan| ==> WellFormedSlot(plan[i])
  }

  /** Every scheduled activity carries a non-negative price and a duration
      that fits in a day, as catalog entries do. */
  predicate ActivitiesWellFormed(plan: seq<DaySlot>)
  {
    forall i, k :: 0 <= i < |plan| && 0 <= k < |plan[i].activities| ==>
      WellFormedActivity(plan[i].activities[k])
  }

  /** The days' activity lists laid end to end, day 1 first. */
  function Flatten(plan: seq<DaySlot>): seq<Activity>
    decreases |plan|
  {
    if plan == [] then [] else plan[0].activities + Flatten(plan[1..])
  }

  /** Sum of the days' running cost totals: the activities line of the cost
      breakdown. */
  function PlanActivityCost(plan: seq<DaySlot>): int
    decreases |plan|
  {
    if plan == [] then 0 else plan[0].totalCost + PlanActivityCost(plan[1..])
  }

  /** Number of activities placed over all days. */
  function ActivityCount(plan: seq<DaySlot>): nat
    decreases |plan|
  {
    if plan == [] then 0 else |plan[0].activities| + ActivityCount(plan[1..])
  }

  /** When every day's totals are maintained, the activities line of the
      cost breakdown is the total price of everything scheduled. */
  lemma {:induction false} PlanActivityCostIsScheduledCost(plan: seq<DaySlot>)
    requires WellFormedPlan(plan)
    ensures PlanActivityCost(plan) == SumCost(Flatten(plan))
    decreases |plan|
  {
    if plan != [] {
      PlanActivityCostIsScheduledCost(plan[1..]);
      SumsConcat(plan[0].activities, Flatten(plan[1..]));
    }
  }

  lemma {:induction false} ActivityCountIsFlattenLength(plan: seq<DaySlot>)
    ensures ActivityCount(plan) == |Flatten(plan)|
    decreases |plan|
  {
    if plan != [] {
      ActivityCountIsFlattenLength(plan[1..]);
    }
  }

  /** An activity is scheduled exactly when it sits on some day. */
  lemma {:induction false} InFlattenIffOnSomeDay(plan: seq<DaySlot>, a: Activity)
    ensures a in Flatten(plan) <==> exists i :: 0 <= i < |plan| && a in plan[i].activities
    decreases |plan|
  {
    if plan != [] {
      InFlattenIffOnSomeDay(plan[1..], a);
      if a in Flatten(plan[1..]) {
        var i :| 0 <= i < |plan[1..]| && a in plan[1..][i].activities;
        assert a in plan[i + 1].activities;
      }
      if exists i :: 0 <= i < |plan| && a in plan[i].activities {
        var i :| 0 <= i < |plan| && a in plan[i].activities;
        if i > 0 {
          assert a in plan[1..][i - 1].activities;
        }
      }
    }
  }
}
