/** The planning session: allocate, select, schedule, price and repair, run
    in that order, and the result record assembled from the final state. */
module Planner {
  import opened Wrappers
  import opened TravelConfig
  import opened Sequences
  import opened Allocation
  import opened Selection
  import opened DayPlan
  import opened Scheduler
  import opened CostEstimator
  import opened Repair

  /** Removal passes the repair loop makes at most before settling for the
      best over-budget plan. */
  const MaxReplanAttempts: nat := 3

  /** Everything a planning session holds between steps. */
  datatype PlanState = PlanState(
    budget: int,
    numDays: int,
    city: string,
    allocation: map<string, real>,
    plan: seq<DaySlot>,
    cost: CostBreakdown,
    withinBudget: bool,
    iterations: nat)

  /** What the repair loop hands back: the session state it left and the
      value it returned. */
  datatype ReplanOutcome = ReplanOutcome(state: PlanState, accepted: bool)

  /** Why a session stops before producing an itinerary: a city outside
      the reference data (the selection step never records a selection, so
      scheduling fails), or a trip of zero days (the per-day target divides
      by the number of days). */
  datatype PlanError = UnknownCity(city: string) | ZeroDays

  /** The record a finished session produces. */
  datatype Itinerary = Itinerary(dailyPlan: seq<DaySlot>, costBreakdown: CostBreakdown, isWithinBudget: bool)

  predicate Priceable(st: PlanState)
  {
    st.city in MidHotelPrice && st.city in DailyMealCost
  }

  /** The stored breakdown and flag are what pricing the stored plan gives. */
  predicate Consistent(st: PlanState)
  {
    Priceable(st) && EstimateCost(st.city, st.numDays, st.plan, st.budget) == Estimate(st.cost, st.withinBudget)
  }

  /** Step 5, the repair loop. A plan within budget is accepted untouched.
      Otherwise the attempt counter is bumped first and, once it exceeds
      three, the loop gives up; below that one removal pass is made, the
      plan is re-priced, and the loop goes round again unless it now fits.
      The value returned is the final within-budget flag. */
  function Replan(st: PlanState): (r: ReplanOutcome)
    requires Priceable(st)
    ensures r.accepted == r.state.withinBudget
    ensures st.withinBudget ==> r.state == st && r.accepted
    ensures r.state.budget == st.budget && r.state.numDays == st.numDays && r.state.city == st.city
    ensures r.state.allocation == st.allocation
    ensures st.iterations <= MaxReplanAttempts ==> r.state.iterations <= MaxReplanAttempts + 1
    decreases if st.iterations <= MaxReplanAttempts then MaxReplanAttempts + 1 - st.iterations else 0
  {
    if st.withinBudget then ReplanOutcome(st, true)
    else
      var attempt := st.iterations + 1;
      if attempt > MaxReplanAttempts then ReplanOutcome(st.(iterations := attempt), false)
      else
        var next := RepairStep(st);
        if !next.withinBudget then Replan(next) else ReplanOutcome(next, true)
  }

  /** One round of the loop body below the attempt limit: count the attempt,
      make a removal pass, re-price. */
  function RepairStep(st: PlanState): (r: PlanState)
    requires Priceable(st)
    ensures r.plan == RepairPass(st.plan) && r.iterations == st.iterations + 1
    ensures Consistent(r)
    ensures r.budget == st.budget && r.numDays == st.numDays && r.city == st.city
    ensures r.allocation == st.allocation
  {
    var plan := RepairPass(st.plan);
    var est := EstimateCost(st.city, st.numDays, plan, st.budget);
    st.(plan := plan, cost := est.breakdown, withinBudget := est.withinBudget, iterations := st.iterations + 1)
  }

  /** How the loop ends from a state that is over budget: accepted after
      between one and three passes, the counter at the number of passes, or
      exhausted with the counter at four after exactly three passes (counted
      from a fresh counter); every state it leaves is consistent. */
  lemma ReplanPasses(st: PlanState)
    requires Priceable(st) && !st.withinBudget && st.iterations <= MaxReplanAttempts
    ensures var r := Replan(st);
      if r.accepted then
        && st.iterations < r.state.iterations <= MaxReplanAttempts
        && r.state.plan == PassN(st.plan, r.state.iterations - st.iterations)
        && Consistent(r.state)
      else
        && r.state.iterations == MaxReplanAttempts + 1
        && r.state.plan == PassN(st.plan, MaxReplanAttempts - st.iterations)
        && (Consistent(st) || st.iterations < MaxReplanAttempts ==> Consistent(r.state))
  {
    ReplanPassCount(st);
    ReplanLeavesConsistent(st);
  }

  /** The counter and the plan the loop ends with, from an over-budget
      state. */
  lemma {:induction false} ReplanPassCount(st: PlanState)
    requires Priceable(st) && !st.withinBudget && st.iterations <= MaxReplanAttempts
    ensures var r := Replan(st);
      if r.accepted then
        && st.iterations < r.state.iterations <= MaxReplanAttempts
        && r.state.plan == PassN(st.plan, r.state.iterations - st.iterations)
      else
        && r.state.iterations == MaxReplanAttempts + 1
        && r.state.plan == PassN(st.plan, MaxReplanAttempts - st.iterations)
    decreases MaxReplanAttempts + 1 - st.iterations
  {
    if st.iterations == MaxReplanAttempts {
      assert Replan(st) == ReplanOutcome(st.(iterations := MaxReplanAttempts + 1), false);
    } else {
      var next := RepairStep(st);
      if next.withinBudget {
        assert Replan(st) == ReplanOutcome(next, true);
        assert next.plan == PassN(st.plan, 1);
      } else {
        assert Replan(st) == Replan(next);
        ReplanPassCount(next);
        var r := Replan(next);
        if r.accepted {
          var d: nat := r.state.iterations - next.iterations;
          OnePassMore(st.plan, next.plan, r.state.plan, d);
          assert d + 1 == r.state.iterations - st.iterations;
        } else {
          OnePassMore(st.plan, next.plan, r.state.plan, MaxReplanAttempts - next.iterations);
        }
      }
    }
  }

  /** Every state the loop leaves after at least one pass was priced
      afresh. */
  lemma {:induction false} ReplanLeavesConsistent(st: PlanState)
    requires Priceable(st) && !st.withinBudget && st.iterations <= MaxReplanAttempts
    ensures Consistent(st) || st.iterations < MaxReplanAttempts ==> Consistent(Replan(st).state)
    decreases MaxReplanAttempts + 1 - st.iterations
  {
    if st.iterations == MaxReplanAttempts {
      assert Replan(st) == ReplanOutcome(st.(iterations := MaxReplanAttempts + 1), false);
    } else {
      var next := RepairStep(st);
      if next.withinBudget {
        assert Replan(st) == ReplanOutcome(next, true);
      } else {
        assert Replan(st) == Replan(next);
        ReplanLeavesConsistent(next);
      }
    }
  }

  /** The loop stops at the first re-pricing that fits: counted from an
      over-budget state, none of the plans its passes produced before the
      last one fitted the budget. */
  lemma {:induction false} ReplanStopsAtFirstFit(st: PlanState)
    requires Priceable(st) && !st.withinBudget && st.iterations <= MaxReplanAttempts
    ensures var r := Replan(st);
      var n := if r.accepted then r.state.iterations - st.iterations else MaxReplanAttempts - st.iterations;
      forall k :: 1 <= k < n ==> !EstimateCost(st.city, st.numDays, PassN(st.plan, k), st.budget).withinBudget
    decreases MaxReplanAttempts + 1 - st.iterations
  {
    if st.iterations < MaxReplanAttempts {
      var next := RepairStep(st);
      assert next.plan == PassN(st.plan, 1);
      if !next.withinBudget {
        assert Replan(st) == Replan(next);
        ReplanStopsAtFirstFit(next);
        forall k | 2 <= k
          ensures PassN(next.plan, k - 1) == PassN(st.plan, k)
        {
          PassNAfterOne(st.plan, k - 1);
        }
      }
    }
  }

  /** No plan reached from `plan` by fewer than `m` removal passes fits the
      budget once priced. */
  predicate NoEarlierFit(city: string, numDays: int, plan: seq<DaySlot>, budget: int, m: nat)
    requires city in MidHotelPrice && city in DailyMealCost
  {
    forall k :: 0 <= k < m ==> !EstimateCost(city, numDays, PassN(plan, k), budget).withinBudget
  }

  /** A plan `d` passes after the first pass of `plan` is `d + 1` passes
      after `plan`. */
  lemma OnePassMore(plan: seq<DaySlot>, first: seq<DaySlot>, last: seq<DaySlot>, d: nat)
    requires first == RepairPass(plan) && last == PassN(first, d)
    ensures last == PassN(plan, d + 1)
  {
    PassNAfterOne(plan, d);
  }

  /** `k` passes after a first one are `k + 1` passes. */
  lemma {:induction false} PassNAfterOne(plan: seq<DaySlot>, k: nat)
    ensures PassN(RepairPass(plan), k) == PassN(plan, k + 1)
    decreases k
  {
    if k > 0 {
      var j: nat := k - 1;
      calc {
        PassN(RepairPass(plan), k);
        RepairPass(PassN(RepairPass(plan), j));
        { PassNAfterOne(plan, j); }
        RepairPass(PassN(plan, j + 1));
      }
    }
  }

  /** The number of removal passes the loop makes from `st`. */
  function PassesMade(st: PlanState): nat
    requires Priceable(st)
  {
    var r := Replan(st);
    if st.withinBudget then 0
    else if r.accepted && st.iterations <= r.state.iterations then r.state.iterations - st.iterations
    else if !r.accepted && st.iterations <= MaxReplanAttempts then MaxReplanAttempts - st.iterations
    else 0
  }

  /** The loop's final plan is the initial plan after the passes it made:
      one per attempt counted, three when it gave up. It stops either
      within budget or with the counter past the limit. */
  lemma ReplanIsPassN(st: PlanState)
    requires Consistent(st) && st.iterations <= MaxReplanAttempts
    ensures Replan(st).state.plan == PassN(st.plan, PassesMade(st))
    ensures var n := Replan(st).state.iterations;
      PassesMade(st) == (if n <= MaxReplanAttempts then n else MaxReplanAttempts) - st.iterations
    ensures Replan(st).state.withinBudget || Replan(st).state.iterations == MaxReplanAttempts + 1
    ensures Consistent(Replan(st).state)
  {
    if !st.withinBudget {
      var r := Replan(st);
      ReplanPasses(st);
      if r.accepted {
        assert PassesMade(st) == r.state.iterations - st.iterations;
      } else {
        assert PassesMade(st) == MaxReplanAttempts - st.iterations;
      }
    }
  }

  /** No plan before the one the loop ends with fitted the budget: the
      loop takes the first plan that does, the starting one included. */
  lemma ReplanNoEarlierFit(st: PlanState)
    requires Consistent(st) && st.iterations <= MaxReplanAttempts
    ensures NoEarlierFit(st.city, st.numDays, st.plan, st.budget, PassesMade(st))
  {
    if !st.withinBudget {
      var r := Replan(st);
      ReplanPassCount(st);
      ReplanStopsAtFirstFit(st);
      assert PassN(st.plan, 0) == st.plan;
    }
  }

  /** With a consistent starting state holding catalog-like activities, the
      loop leaves a plan that still satisfies the day-slot invariants, only
      has activities taken away, and never costs more in total. */
  lemma ReplanNeverRaisesCost(st: PlanState)
    requires Consistent(st) && WellFormedPlan(st.plan) && ActivitiesWellFormed(st.plan)
    requires st.iterations <= MaxReplanAttempts
    ensures var r := Replan(st).state;
      && WellFormedPlan(r.plan) && ActivitiesWellFormed(r.plan)
      && TrimmedFrom(r.plan, st.plan)
      && Consistent(r)
      && r.cost.total <= st.cost.total
  {
    var rs := Replan(st).state;
    var k := PassesMade(st);
    ReplanIsPassN(st);
    PassNInvariants(st.plan, k);
    TotalMonotone(st.city, st.numDays, st.plan, rs.plan, st.budget);
  }

  /** Scheduling keeps only catalog entries: every activity of the schedule
      is a well-formed catalog activity. */
  lemma ScheduledFromCatalog(sel: Catalog, catalog: Catalog, numDays: int)
    requires numDays != 0 && Subseq(sel, catalog) && WellFormedCatalog(catalog)
    ensures ActivitiesWellFormed(Schedule(sel, numDays))
    ensures forall a :: a in Flatten(Schedule(sel, numDays)) ==> a in catalog
  {
    var plan := Schedule(sel, numDays);
    forall a | a in Flatten(plan) ensures a in catalog {
      SubseqMember(Flatten(plan), sel, a);
      SubseqMember(sel, catalog, a);
    }
    forall i, k | 0 <= i < |plan| && 0 <= k < |plan[i].activities|
      ensures WellFormedActivity(plan[i].activities[k])
    {
      var a := plan[i].activities[k];
      InFlattenIffOnSomeDay(plan, a);
      assert a in catalog;
    }
  }

  /** The session up to the repair loop: allocate, select, schedule and
      price, with the attempt counter at zero. `None` for an unknown city. */
  function Prepare(budget: int, numDays: int, city: string, preferences: seq<string>): (r: Option<PlanState>)
    requires numDays != 0
    ensures r.None? <==> city !in ActivitiesDatabase
    ensures r.Some? ==>
      && r.value.budget == budget && r.value.numDays == numDays && r.value.city == city
      && r.value.allocation == Allocate(budget)
      && Consistent(r.value)
      && r.value.iterations == 0
      && r.value.plan == Schedule(SelectActivities(city, preferences).value, numDays)
      && WellFormedPlan(r.value.plan) && ActivitiesWellFormed(r.value.plan)
      && (forall a :: a in Flatten(r.value.plan) ==> a in ActivitiesDatabase[city])
  {
    match SelectActivities(city, preferences)
    case None => None
    case Some(selected) =>
      CityTablesAgree();
      DatabaseWellFormed();
      ScheduledFromCatalog(selected, ActivitiesDatabase[city], numDays);
      var plan := Schedule(selected, numDays);
      var est := EstimateCost(city, numDays, plan, budget);
      Some(PlanState(budget, numDays, city, Allocate(budget), plan, est.breakdown, est.withinBudget, 0))
  }

  /** A whole planning session, returning its final state. An unknown city
      ends the session before scheduling, and so, for a known city, does a
      trip of zero days. Otherwise the final plan has one
      slot per day, numbered from 1, each within the hour ceiling with
      totals that match its list; it is the initial schedule after at most
      three removal passes; its stored breakdown prices it; it holds only
      catalog activities; and the counter ends at four at most. */
  function PlanTrip(budget: int, numDays: int, city: string, preferences: seq<string>): (r: Result<PlanState, PlanError>)
    ensures r.Failure? <==> city !in ActivitiesDatabase || numDays == 0
    ensures city !in ActivitiesDatabase ==> r == Failure(UnknownCity(city))
    ensures city in ActivitiesDatabase && numDays == 0 ==> r == Failure(ZeroDays)
    ensures r.Success? ==>
      var st := r.value;
      var schedule := Schedule(SelectActivities(city, preferences).value, numDays);
      var passes := if st.iterations <= MaxReplanAttempts then st.iterations else MaxReplanAttempts;
      && st.budget == budget && st.numDays == numDays && st.city == city
      && st.allocation == Allocate(budget)
      && |st.plan| == (if numDays > 0 then numDays else 0)
      && NumberedFromOne(st.plan)
      && WellFormedPlan(st.plan)
      && (forall a :: a in Flatten(st.plan) ==> a in ActivitiesDatabase[city])
      && Consistent(st)
      && (st.withinBudget <==> budget as real - st.cost.total >= 0.0)
      && st.iterations <= MaxReplanAttempts + 1
      && (st.withinBudget || st.iterations == MaxReplanAttempts + 1)
      && st.plan == PassN(schedule, passes)
      && NoEarlierFit(city, numDays, schedule, budget, passes)
  {
    if city !in ActivitiesDatabase then Failure(UnknownCity(city))
    else if numDays == 0 then Failure(ZeroDays)
    else
      SessionOutcome(budget, numDays, city, preferences);
      Success(Replan(Prepare(budget, numDays, city, preferences).value).state)
  }

  /** The state a session over a known city and a non-zero number of days
      ends in: the facts `PlanTrip` promises on success. */
  lemma SessionOutcome(budget: int, numDays: int, city: string, preferences: seq<string>)
    requires city in ActivitiesDatabase && numDays != 0
    ensures
      var st := Replan(Prepare(budget, numDays, city, preferences).value).state;
      var schedule := Schedule(SelectActivities(city, preferences).value, numDays);
      var passes := if st.iterations <= MaxReplanAttempts then st.iterations else MaxReplanAttempts;
      && st.budget == budget && st.numDays == numDays && st.city == city
      && st.allocation == Allocate(budget)
      && |st.plan| == (if numDays > 0 then numDays else 0)
      && NumberedFromOne(st.plan)
      && WellFormedPlan(st.plan)
      && (forall a :: a in Flatten(st.plan) ==> a in ActivitiesDatabase[city])
      && Consistent(st)
      && (st.withinBudget <==> budget as real - st.cost.total >= 0.0)
      && st.iterations <= MaxReplanAttempts + 1
      && (st.withinBudget || st.iterations == MaxReplanAttempts + 1)
      && st.plan == PassN(schedule, passes)
      && NoEarlierFit(city, numDays, schedule, budget, passes)
  {
    var selected := SelectActivities(city, preferences).value;
    var initial := Prepare(budget, numDays, city, preferences).value;
    assert initial.plan == Schedule(selected, numDays);
    RepairFromFreshCounter(initial);
    TrimmedKeepsNumbering(Replan(initial).state.plan, initial.plan);
  }

  /** The repair loop run from a freshly priced plan: the plan it leaves is
      the initial plan after one pass per attempt counted (three when it
      gives up), it keeps the day invariants and only catalog entries, and
      it stops either within budget or with the counter past the limit. */
  lemma RepairFromFreshCounter(initial: PlanState)
    requires Consistent(initial) && initial.iterations == 0
    requires WellFormedPlan(initial.plan) && ActivitiesWellFormed(initial.plan)
    ensures var final := Replan(initial).state;
      && WellFormedPlan(final.plan)
      && TrimmedFrom(final.plan, initial.plan)
      && (forall a :: a in Flatten(final.plan) ==> a in Flatten(initial.plan))
      && Consistent(final)
      && final.iterations <= MaxReplanAttempts + 1
      && (final.withinBudget || final.iterations == MaxReplanAttempts + 1)
      && final.plan == PassN(initial.plan,
                             if final.iterations <= MaxReplanAttempts then final.iterations else MaxReplanAttempts)
      && NoEarlierFit(initial.city, initial.numDays, initial.plan, initial.budget,
                      if final.iterations <= MaxReplanAttempts then final.iterations else MaxReplanAttempts)
  {
    var final := Replan(initial).state;
    ReplanIsPassN(initial);
    var m := if final.iterations <= MaxReplanAttempts then final.iterations else MaxReplanAttempts;
    assert PassesMade(initial) == m;
    ReplanNoEarlierFit(initial);
    ReplanNeverRaisesCost(initial);
    forall a | a in Flatten(final.plan) ensures a in Flatten(initial.plan) {
      TrimmedKeepsOnly(final.plan, initial.plan, a);
    }
  }

  /** The result record of a finished session. */
  function GenerateItinerary(st: PlanState): Itinerary
  {
    Itinerary(st.plan, st.cost, st.withinBudget)
  }

  /** The session as a caller sees it: the itinerary, or why there is
      none. */
  function Run(budget: int, numDays: int, city: string, preferences: seq<string>): (r: Result<Itinerary, PlanError>)
    ensures r.Failure? <==> city !in ActivitiesDatabase || numDays == 0
    ensures r.Success? ==>
      && |r.value.dailyPlan| == (if numDays > 0 then numDays else 0)
      && WellFormedPlan(r.value.dailyPlan)
      && (r.value.isWithinBudget <==> budget as real >= r.value.costBreakdown.total)
      && r.value.costBreakdown == EstimateCost(city, numDays, r.value.dailyPlan, budget).breakdown
      && (exists k: nat :: k <= MaxReplanAttempts
            && r.value.dailyPlan == PassN(Schedule(SelectActivities(city, preferences).value, numDays), k)
            && NoEarlierFit(city, numDays, Schedule(SelectActivities(city, preferences).value, numDays), budget, k))
      && (!r.value.isWithinBudget ==>
            r.value.dailyPlan == PassN(Schedule(SelectActivities(city, preferences).value, numDays), MaxReplanAttempts))
  {
    match PlanTrip(budget, numDays, city, preferences)
    case Failure(e) => Failure(e)
    case Success(st) =>
      var initial := Schedule(SelectActivities(city, preferences).value, numDays);
      var k: nat := if st.iterations <= MaxReplanAttempts then st.iterations else MaxReplanAttempts;
      assert st.plan == PassN(initial, k);
      assert !st.withinBudget ==> k == MaxReplanAttempts;
      Success(GenerateItinerary(st))
  }
}
