/** Step 4 of a planning run: pricing the plan and comparing it with the
    budget. */
module CostEstimator {
  import opened TravelConfig
  import opened DayPlan

  /** Fixed local-transport estimate per day, the same in every city. */
  const TransportPerDay: int := 500

  /** The cost lines of a plan. The four lines before the buffer are whole
      rupees; the buffer and the total are exact fractions. */
  datatype CostBreakdown = CostBreakdown(
    accommodation: int, food: int, activities: int, transport: int, buffer: real, total: real)

  /** A priced plan: the breakdown and whether it fits the budget. */
  datatype Estimate = Estimate(breakdown: CostBreakdown, withinBudget: bool)

  /** The pricing step for `numDays` days in `city` (a city the selector has
      accepted, so its hotel and meal prices exist). */
  function EstimateCost(city: string, numDays: int, plan: seq<DaySlot>, budget: int): (r: Estimate)
    requires city in MidHotelPrice && city in DailyMealCost
    ensures r.breakdown.accommodation == MidHotelPrice[city] * numDays
    ensures r.breakdown.food == DailyMealCost[city] * numDays
    ensures r.breakdown.transport == TransportPerDay * numDays
    ensures r.breakdown.activities == PlanActivityCost(plan)
    ensures var b := r.breakdown;
      && b.buffer == (b.accommodation + b.food + b.activities + b.transport) as real * BufferPercentage
      && b.total == (b.accommodation + b.food + b.activities + b.transport) as real + b.buffer
    ensures r.withinBudget <==> budget as real - r.breakdown.total >= 0.0
  {
    var accommodation := MidHotelPrice[city] * numDays;
    var food := DailyMealCost[city] * numDays;
    var activities := PlanActivityCost(plan);
    var transport := TransportPerDay * numDays;
    var subtotal := accommodation + food + activities + transport;
    var buffer := subtotal as real * BufferPercentage;
    var total := subtotal as real + buffer;
    Estimate(CostBreakdown(accommodation, food, activities, transport, buffer, total), budget as real - total >= 0.0)
  }

  /** When every day's totals are maintained, the activities line is the
      total price of every scheduled activity. */
  lemma ActivitiesLineIsScheduledCost(city: string, numDays: int, plan: seq<DaySlot>, budget: int)
    requires city in MidHotelPrice && city in DailyMealCost
    requires WellFormedPlan(plan)
    ensures EstimateCost(city, numDays, plan, budget).breakdown.activities == SumCost(Flatten(plan))
  {
    PlanActivityCostIsScheduledCost(plan);
  }

  /** A corollary of the pricing contract: the total is the subtotal grown
      by the ten-percent buffer. */
  lemma TotalIsSubtotalPlusTenth(city: string, numDays: int, plan: seq<DaySlot>, budget: int)
    requires city in MidHotelPrice && city in DailyMealCost
    ensures var b := EstimateCost(city, numDays, plan, budget).breakdown;
      b.total * 10.0 == 11.0 * (b.accommodation + b.food + b.activities + b.transport) as real
  {
  }

  /** Pricing depends on the plan only through its activity cost, and a
      cheaper plan never costs more in total. */
  lemma TotalMonotone(city: string, numDays: int, plan: seq<DaySlot>, plan': seq<DaySlot>, budget: int)
    requires city in MidHotelPrice && city in DailyMealCost
    requires PlanActivityCost(plan') <= PlanActivityCost(plan)
    ensures EstimateCost(city, numDays, plan', budget).breakdown.total
         <= EstimateCost(city, numDays, plan, budget).breakdown.total
  {
    var b := EstimateCost(city, numDays, plan, budget).breakdown;
    var b' := EstimateCost(city, numDays, plan', budget).breakdown;
    var s := b.accommodation + b.food + b.activities + b.transport;
    var s' := b'.accommodation + b'.food + b'.activities + b'.transport;
    assert s' <= s;
    assert b.total == s as real * 1.1;
    assert b'.total == s' as real * 1.1;
  }
}
