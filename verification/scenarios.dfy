/** Two complete planning sessions worked out from the reference tables. */
module Scenarios {
  import opened Wrappers
  import opened TravelConfig
  import opened Selection
  import opened DayPlan
  import opened Scheduler
  import opened CostEstimator
  import opened Repair
  import opened Planner
  import Allocation

  const WaterSports := Activity("Water Sports", 3000, 6, "adventure")
  const SpicePlantationTour := Activity("Spice Plantation Tour", 1500, 4, "nature")

  lemma GoaFilter()
    ensures Filter(GoaCatalog, ["adventure", "nature"]) == [WaterSports, SpicePlantationTour]
  {
    var prefs := ["adventure", "nature"];
    var c := GoaCatalog;
    assert !Matches(c[4], prefs);
    assert Filter(c[4..], prefs) == [];
    assert Matches(c[3], prefs);
    assert Filter(c[3..], prefs) == [SpicePlantationTour];
    assert !Matches(c[2], prefs);
    assert Filter(c[2..], prefs) == [SpicePlantationTour];
    assert Filter(c[1..], prefs) == [WaterSports, SpicePlantationTour];
    assert !Matches(c[0], prefs);
  }

  lemma GoaSelection()
    ensures SelectActivities("Goa", ["adventure", "nature"]) == Some([WaterSports, SpicePlantationTour])
  {
    GoaFilter();
    assert SelectFrom(GoaCatalog, ["adventure", "nature"]) == [WaterSports, SpicePlantationTour];
  }

  lemma GoaSchedule()
    ensures Schedule([WaterSports, SpicePlantationTour], 3) == [
      DaySlot(1, [WaterSports], 6, 3000),
      DaySlot(2, [SpicePlantationTour], 4, 1500),
      DaySlot(3, [], 0, 0)]
  {
    var acts := [WaterSports, SpicePlantationTour];
    assert TargetPerDay(2, 3) == 1;
    var d1 := DaySlot(1, [WaterSports], 6, 3000);
    var d2 := DaySlot(2, [SpicePlantationTour], 4, 1500);
    var d3 := DaySlot(3, [], 0, 0);
    SingleActivitySlot(1, WaterSports);
    SingleActivitySlot(2, SpicePlantationTour);
    assert FillDay(acts, 1, d1, 1) == DayFill(d1, 1);
    assert FillDay(acts, 1, EmptySlot(1), 0) == DayFill(d1, 1);
    assert FillDay(acts, 1, d2, 2) == DayFill(d2, 2);
    assert FillDay(acts, 1, EmptySlot(2), 1) == DayFill(d2, 2);
    assert FillDay(acts, 1, EmptySlot(3), 2) == DayFill(d3, 2);
    assert ScheduleTrace(acts, 1, 4, 3, 2) == [];
    assert ScheduleTrace(acts, 1, 3, 3, 2) == [DayFill(d3, 2)];
    assert ScheduleTrace(acts, 1, 2, 3, 1) == [DayFill(d2, 2), DayFill(d3, 2)];
    assert Trace(acts, 3) == [DayFill(d1, 1), DayFill(d2, 2), DayFill(d3, 2)];
  }

  lemma GoaEstimate()
    ensures EstimateCost("Goa", 3, [
      DaySlot(1, [WaterSports], 6, 3000),
      DaySlot(2, [SpicePlantationTour], 4, 1500),
      DaySlot(3, [], 0, 0)], 50000)
      == Estimate(CostBreakdown(7500, 1200, 4500, 1500, 1470.0, 16170.0), true)
  {
    var plan := [
      DaySlot(1, [WaterSports], 6, 3000),
      DaySlot(2, [SpicePlantationTour], 4, 1500),
      DaySlot(3, [], 0, 0)];
    assert PlanActivityCost(plan[2..]) == 0;
    assert PlanActivityCost(plan[1..]) == 1500;
    assert PlanActivityCost(plan) == 4500;
    assert 14700 as real * 0.10 == 1470.0;
  }

  /** Goa for three days, adventure and nature: Water Sports on day 1, the
      Spice Plantation Tour on day 2, day 3 free; 14700 plus a 1470 buffer
      is 16170, within a 50000 budget, so no repair is made. */
  lemma GoaAdventureAndNature()
    ensures var r := PlanTrip(50000, 3, "Goa", ["adventure", "nature"]);
      && r.Success?
      && r.value.plan == [
           DaySlot(1, [WaterSports], 6, 3000),
           DaySlot(2, [SpicePlantationTour], 4, 1500),
           DaySlot(3, [], 0, 0)]
      && r.value.cost == CostBreakdown(7500, 1200, 4500, 1500, 1470.0, 16170.0)
      && r.value.withinBudget
      && r.value.iterations == 0
  {
    GoaSelection();
    GoaSchedule();
    GoaEstimate();
    var p := Prepare(50000, 3, "Goa", ["adventure", "nature"]);
    assert p.Some? && p.value.withinBudget && p.value.iterations == 0;
    assert Replan(p.value).state == p.value;
  }

  const RedFort := Activity("Red Fort", 500, 3, "historical")
  const TajMahalTour := Activity("Taj Mahal Tour", 1500, 5, "historical")
  const IndiaGate := Activity("India Gate", 0, 2, "sightseeing")
  const ShoppingAtCP := Activity("Shopping at CP", 2000, 4, "shopping")
  const AdventureSports := Activity("Adventure Sports", 3000, 6, "adventure")

  const DelhiInitialPlan := [
    DaySlot(1, [RedFort, TajMahalTour], 8, 2000),
    DaySlot(2, [IndiaGate, ShoppingAtCP], 6, 2000)]

  lemma DelhiSelection()
    ensures SelectActivities("Delhi", ["all"]) == Some(DelhiCatalog)
  {
    WildcardSelectsCity("Delhi", ["all"]);
  }

  lemma DelhiDays()
    ensures FillDay(DelhiCatalog, 2, EmptySlot(1), 0) == DayFill(DelhiInitialPlan[0], 2)
    ensures FillDay(DelhiCatalog, 2, EmptySlot(2), 2) == DayFill(DelhiInitialPlan[1], 4)
  {
    DelhiDayOne();
    DelhiDayTwo();
  }

  /** Day 1 takes Red Fort, then the Taj Mahal Tour brings it to eight
      hours and two activities. */
  lemma DelhiDayOne()
    ensures FillDay(DelhiCatalog, 2, EmptySlot(1), 0) == DayFill(DelhiInitialPlan[0], 2)
  {
    var acts := DelhiCatalog;
    var d1 := DaySlot(1, [RedFort, TajMahalTour], 8, 2000);
    SingleActivitySlot(1, RedFort);
    assert [RedFort, TajMahalTour][1..] == [TajMahalTour];
    assert SumHours([TajMahalTour]) == 5 && SumCost([TajMahalTour]) == 1500;
    assert WellFormedSlot(d1);
    assert FillDay(acts, 2, d1, 2) == DayFill(d1, 2);
    assert FillDay(acts, 2, DaySlot(1, [RedFort], 3, 500), 1) == DayFill(d1, 2);
  }

  /** Day 2 starts at India Gate and takes Shopping at CP as its second
      activity. */
  lemma DelhiDayTwo()
    ensures FillDay(DelhiCatalog, 2, EmptySlot(2), 2) == DayFill(DelhiInitialPlan[1], 4)
  {
    var acts := DelhiCatalog;
    var d2 := DaySlot(2, [IndiaGate, ShoppingAtCP], 6, 2000);
    SingleActivitySlot(2, IndiaGate);
    assert [IndiaGate, ShoppingAtCP][1..] == [ShoppingAtCP];
    assert SumHours([ShoppingAtCP]) == 4 && SumCost([ShoppingAtCP]) == 2000;
    assert WellFormedSlot(d2);
    assert FillDay(acts, 2, d2, 4) == DayFill(d2, 4);
    assert FillDay(acts, 2, DaySlot(2, [IndiaGate], 2, 0), 3) == DayFill(d2, 4);
  }

  /** Two days at two activities a day: Red Fort and the Taj Mahal Tour fill
      day 1 to the 8-hour ceiling, India Gate and Shopping at CP take day 2,
      and Adventure Sports is never reached. */
  lemma DelhiSchedule()
    ensures Schedule(DelhiCatalog, 2) == DelhiInitialPlan
  {
    var acts := DelhiCatalog;
    assert TargetPerDay(5, 2) == 2;
    DelhiDays();
    var f1 := DayFill(DelhiInitialPlan[0], 2);
    var f2 := DayFill(DelhiInitialPlan[1], 4);
    assert ScheduleTrace(acts, 2, 3, 2, 4) == [];
    assert ScheduleTrace(acts, 2, 2, 2, 2) == [f2];
    assert Trace(acts, 2) == [f1, f2];
  }

  const DelhiAfterOnePass := [DaySlot(1, [RedFort], 3, 500), DaySlot(2, [IndiaGate], 2, 0)]
  const DelhiEmptyDays := [DaySlot(1, [], 0, 0), DaySlot(2, [], 0, 0)]

  lemma DelhiSorts()
    ensures SortByCostDesc([RedFort, TajMahalTour]) == [TajMahalTour, RedFort]
    ensures SortByCostDesc([IndiaGate, ShoppingAtCP]) == [ShoppingAtCP, IndiaGate]
    ensures SortByCostDesc([RedFort]) == [RedFort]
    ensures SortByCostDesc([IndiaGate]) == [IndiaGate]
  {
    assert [RedFort, TajMahalTour][1..] == [TajMahalTour];
    assert SortByCostDesc([TajMahalTour]) == [TajMahalTour];
    assert InsertByCost(RedFort, [TajMahalTour]) == [TajMahalTour, RedFort];
    assert [IndiaGate, ShoppingAtCP][1..] == [ShoppingAtCP];
    assert SortByCostDesc([ShoppingAtCP]) == [ShoppingAtCP];
    assert InsertByCost(IndiaGate, [ShoppingAtCP]) == [ShoppingAtCP, IndiaGate];
  }

  lemma DelhiFirstPass()
    ensures RepairPass(DelhiInitialPlan) == DelhiAfterOnePass
  {
    DelhiSorts();
    assert RepairDay(DelhiInitialPlan[0]) == DelhiAfterOnePass[0];
    assert RepairDay(DelhiInitialPlan[1]) == DelhiAfterOnePass[1];
  }

  lemma DelhiSecondPass()
    ensures RepairPass(DelhiAfterOnePass) == DelhiEmptyDays
    ensures RepairPass(DelhiEmptyDays) == DelhiEmptyDays
  {
    DelhiSorts();
    assert RepairDay(DelhiAfterOnePass[0]) == DelhiEmptyDays[0];
    assert RepairDay(DelhiAfterOnePass[1]) == DelhiEmptyDays[1];
  }

  /** The first pass takes the Taj Mahal Tour and Shopping at CP, the second
      Red Fort and India Gate; the third finds both days empty. */
  lemma DelhiPasses()
    ensures PassN(DelhiInitialPlan, 1) == DelhiAfterOnePass
    ensures PassN(DelhiInitialPlan, 2) == DelhiEmptyDays
    ensures PassN(DelhiInitialPlan, 3) == DelhiEmptyDays
  {
    DelhiFirstPass();
    DelhiSecondPass();
  }

  lemma DelhiEstimates()
    ensures EstimateCost("Delhi", 2, DelhiInitialPlan, 5000)
      == Estimate(CostBreakdown(6000, 800, 4000, 1000, 1180.0, 12980.0), false)
    ensures EstimateCost("Delhi", 2, DelhiAfterOnePass, 5000)
      == Estimate(CostBreakdown(6000, 800, 500, 1000, 830.0, 9130.0), false)
    ensures EstimateCost("Delhi", 2, DelhiEmptyDays, 5000)
      == Estimate(CostBreakdown(6000, 800, 0, 1000, 780.0, 8580.0), false)
  {
    assert DelhiInitialPlan[1..] == [DelhiInitialPlan[1]];
    assert DelhiAfterOnePass[1..] == [DelhiAfterOnePass[1]];
    assert PlanActivityCost([DelhiInitialPlan[1]]) == 2000;
    assert PlanActivityCost(DelhiInitialPlan) == 4000;
    assert PlanActivityCost([DelhiAfterOnePass[1]]) == 0;
    assert PlanActivityCost(DelhiAfterOnePass) == 500;
    assert PlanActivityCost(DelhiEmptyDays) == 0;
    assert 11800 as real * 0.10 == 1180.0;
    assert 8300 as real * 0.10 == 830.0;
    assert 7800 as real * 0.10 == 780.0;
  }

  /** The Delhi session's state at a given point of the repair loop. */
  function DelhiState(plan: seq<DaySlot>, cost: CostBreakdown, iterations: nat): PlanState
  {
    PlanState(5000, 2, "Delhi", Allocation.Allocate(5000), plan, cost, false, iterations)
  }

  const DelhiInitialCost := CostBreakdown(6000, 800, 4000, 1000, 1180.0, 12980.0)
  const DelhiCostAfterOnePass := CostBreakdown(6000, 800, 500, 1000, 830.0, 9130.0)
  const DelhiFinalCost := CostBreakdown(6000, 800, 0, 1000, 780.0, 8580.0)

  lemma DelhiPrepared()
    ensures Prepare(5000, 2, "Delhi", ["all"]) == Some(DelhiState(DelhiInitialPlan, DelhiInitialCost, 0))
  {
    DelhiSelection();
    DelhiSchedule();
    DelhiEstimates();
  }

  lemma DelhiRepairSteps()
    ensures RepairStep(DelhiState(DelhiInitialPlan, DelhiInitialCost, 0))
      == DelhiState(DelhiAfterOnePass, DelhiCostAfterOnePass, 1)
    ensures RepairStep(DelhiState(DelhiAfterOnePass, DelhiCostAfterOnePass, 1))
      == DelhiState(DelhiEmptyDays, DelhiFinalCost, 2)
    ensures RepairStep(DelhiState(DelhiEmptyDays, DelhiFinalCost, 2))
      == DelhiState(DelhiEmptyDays, DelhiFinalCost, 3)
  {
    DelhiPasses();
    DelhiEstimates();
  }

  lemma DelhiReplan()
    ensures Replan(DelhiState(DelhiInitialPlan, DelhiInitialCost, 0))
      == ReplanOutcome(DelhiState(DelhiEmptyDays, DelhiFinalCost, 4), false)
  {
    DelhiRepairSteps();
    var s3 := DelhiState(DelhiEmptyDays, DelhiFinalCost, 3);
    assert Replan(s3) == ReplanOutcome(DelhiState(DelhiEmptyDays, DelhiFinalCost, 4), false);
    var s2 := DelhiState(DelhiEmptyDays, DelhiFinalCost, 2);
    assert Replan(s2) == Replan(s3);
    var s1 := DelhiState(DelhiAfterOnePass, DelhiCostAfterOnePass, 1);
    assert Replan(s1) == Replan(s2);
  }

  lemma DelhiPlanTrip()
    ensures PlanTrip(5000, 2, "Delhi", ["all"]) == Success(DelhiState(DelhiEmptyDays, DelhiFinalCost, 4))
  {
    DelhiPrepared();
    DelhiReplan();
  }

  lemma DelhiSkipsAdventure()
    ensures AdventureSports !in Flatten(DelhiInitialPlan)
  {
    var tail := DelhiInitialPlan[1..];
    assert tail == [DaySlot(2, [IndiaGate, ShoppingAtCP], 6, 2000)];
    assert tail[1..] == [];
    assert Flatten(tail) == [IndiaGate, ShoppingAtCP] + Flatten([]);
    assert Flatten(DelhiInitialPlan) == [RedFort, TajMahalTour] + Flatten(tail);
  }

  /** Delhi for two days on a 5000 budget with every category: the initial
      plan costs 12980 and leaves Adventure Sports out; three removal passes
      bring it to 9130, then 8580, then (both days already empty) 8580
      again; the counter then reaches four and the loop gives up over
      budget. */
  lemma DelhiAllOnSmallBudget()
    ensures var p := Prepare(5000, 2, "Delhi", ["all"]);
      && p.Some?
      && p.value.plan == DelhiInitialPlan
      && AdventureSports !in Flatten(p.value.plan)
      && p.value.cost.total == 12980.0
      && !p.value.withinBudget
    ensures var r := PlanTrip(5000, 2, "Delhi", ["all"]);
      && r.Success?
      && r.value.plan == DelhiEmptyDays
      && r.value.cost == DelhiFinalCost
      && !r.value.withinBudget
      && r.value.iterations == 4
  {
    DelhiPrepared();
    DelhiPlanTrip();
    DelhiSkipsAdventure();
  }
}
