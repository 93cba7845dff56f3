# Travel planner core, modelled in Dafny

This project models the planning pipeline of a small travel-planner agent. A
session does the following, in order:

1. It allocates a budget across four expense categories.
2. It selects the requested city's activities by category.
3. It schedules them into days under an eight-hour daily ceiling.
4. It prices the plan: hotel, meals, activities and transport, plus a 10% buffer.
5. It repairs an over-budget plan by removing the most expensive activity of
   every non-empty day, for at most three passes.
6. It packages the outcome as a result record.

The static reference tables are transcribed as Dafny constants: the budget
split, the four city catalogs, mid-tier hotel prices, daily meal costs, the
hour ceiling and the buffer ratio.

The model is functional:

- Activities, day slots, cost breakdowns and the session state are immutable
  datatypes.
- A catalog is a `seq` kept in the listed order, because that order drives
  both selection and scheduling.
- Each pipeline step is a pure function.
- The repair loop is a recursive function. Its measure is the distance of the
  attempt counter from the limit.

Money modelling:

- Table prices and the budget are `int`.
- The allocated amounts, the buffer and the total are exact `real`s.

Modules, one per step of the program:

| module | file | contents |
|---|---|---|
| `TravelConfig` | travel_config.dfy | the constant tables and their well-formedness |
| `Allocation` | allocation.dfy | step 1 |
| `Selection` | selection.dfy | step 2 |
| `DayPlan` | day_plan.dfy | the day-slot container and its invariant |
| `Scheduler` | scheduler.dfy | step 3 |
| `CostEstimator` | cost_estimator.dfy | step 4 |
| `Repair` | repair.dfy | one removal pass of step 5 |
| `Planner` | planner.dfy | the loop of step 5, the call order of a run, and the result record |
| `Scenarios` | scenarios.dfy | two complete sessions, computed from the tables |
| `Sequences` | sequences.dfy | order-preserving sub-sequences |
| `Wrappers` | wrappers.dfy | `Option` and `Result` |

Three behaviours of the code, and how the model treats them:

- **Attempt counter**, modelled as the code has it. The repair loop
  increments its counter before testing `> 3`. So a loop that never gets within budget makes three passes and
  leaves the counter at 4 (`Planner.ReplanPasses`,
  `Scenarios.DelhiAllOnSmallBudget`).
- **Unknown city**, where the model departs from the code. Selection
  returns an empty list without recording a selection, so the program then
  crashes on the missing attribute when it schedules. The model returns an
  explicit `UnknownCity` failure instead and never schedules.
- **Zero days**, where the model departs from the code. A trip of zero days
  makes the per-day target raise a division by zero. The model returns a
  `ZeroDays` failure instead.

## Model

| member | source | states |
|---|---|---|
| TravelConfig.DatabaseWellFormed | config/travel_config.py:15-42 | every catalog entry of every city has a non-negative cost and a duration in 1..8 hours, and names are distinct within a city |
| TravelConfig.CityTablesAgree | config/travel_config.py:14-75 | the activity, hotel and meal tables are keyed by the same four cities, so any city the selector accepts can be priced |
| Allocation.AllocateFromShares | agents/travel_planner_agent.py:45-51 | the allocation loop produces exactly the table's categories; when these are distinct, each gets budget × its own ratio |
| Allocation.Allocate | agents/travel_planner_agent.py:45-53 | the split has exactly the keys accommodation, food, activities and transport, each mapped to budget × its configured ratio |
| Allocation.FractionsSumToOne | config/travel_config.py:6-11 | the ratios 0.40, 0.25, 0.25 and 0.10 sum to exactly 1 |
| Allocation.AllocatedSumScales | agents/travel_planner_agent.py:45-53 | amounts of the form budget × ratio add up to budget × (sum of the ratios) |
| Allocation.AllocationSumsToBudget | agents/travel_planner_agent.py:45-53 | the allocated amounts add up to the whole budget: nothing is lost or invented |
| Selection.Filter | agents/travel_planner_agent.py:71-75 | the kept entries are an order-preserving sub-sequence of the catalog; every kept entry matches (its category was requested, or 'all' was); every matching entry is kept |
| Selection.SelectFrom | agents/travel_planner_agent.py:71-79 | when some entry matches: only matching entries, all of them, in catalog order; when none matches: the whole catalog |
| Selection.WildcardSelectsAll | agents/travel_planner_agent.py:74 | with 'all' among the preferences, the whole catalog is selected in order |
| Selection.SelectActivities | agents/travel_planner_agent.py:64-87 | no selection exactly when the city is not in the database; otherwise the selection within that city's catalog |
| Selection.WildcardSelectsCity | agents/travel_planner_agent.py:64-79 | for a known city, 'all' selects that city's full catalog |
| Scheduler.TargetPerDay | agents/travel_planner_agent.py:100 | the per-day target is at least 1; for a positive day count it is the floor quotient once there are at least as many activities as days; it is 1 when there are fewer than two activities per day or the day count is negative |
| Scheduler.FillDay | agents/travel_planner_agent.py:110-128 | one day's inner loop keeps the day's earlier entries, adds an in-order sub-sequence of the cursor window it scans, never passes the target or the 8-hour ceiling, keeps the hour and cost totals equal to the sums over the list, and stops before the end of the list only once the target is reached; with no negative duration the day's hours never drop |
| Scheduler.FillDaySkipsOnlyMisfits | agents/travel_planner_agent.py:112-128 | every entry of the window the inner loop leaves out was reached while the day was still below its target and when the entries kept so far (an in-order prefix of what it adds, the rest coming after that entry) left too little room: those hours plus its duration exceed 8; so a full day reads no further |
| Scheduler.ScheduleTrace | agents/travel_planner_agent.py:103-128 | the outer loop yields one slot per remaining day with consecutive day numbers; each slot is well formed and within the target; a day that stopped before the end of the list holds exactly the target |
| Scheduler.TraceKeepsOrder | agents/travel_planner_agent.py:102-128 | the days, read in order, keep an order-preserving sub-sequence of the list from the initial cursor |
| Scheduler.TraceWindows | agents/travel_planner_agent.py:102-128 | each day reads the window from where the previous day stopped to its own cursor, windows advance monotonically, and each day keeps a sub-sequence of its window |
| Scheduler.Schedule | agents/travel_planner_agent.py:98-128 | exactly num_days slots numbered 1..N (none for a negative count); each slot has at most 8 hours, at most max(1, n div N) activities, and totals equal to its list's sums; the concatenated days are an in-order sub-sequence of the selection |
| Scheduler.ScheduleNoRepeats | agents/travel_planner_agent.py:112-128 | with distinct names in the selection, no activity is scheduled twice |
| Scheduler.SkippedNeverPlaced | agents/travel_planner_agent.py:115-128 | with distinct names in the selection, an activity the cursor passed on some day without placing it appears on no day of the schedule: it is never retried |
| Scheduler.TraceDaySkipsOnlyMisfits | agents/travel_planner_agent.py:112-128 | every day of the outer loop leaves out of its window only entries it reached while still below its target and that, on top of the entries that day had kept before reaching them, would take it past 8 hours |
| Scheduler.ScheduleSkipsOnlyMisfits | agents/travel_planner_agent.py:98-128 | an activity of the selection that is on no day was either reached by some day's cursor while that day was still below its target and the hours of the entries it had kept so far left no room for it, or never reached because the days ran out, in which case the last day holds its full target (a negative day count has no days) |
| DayPlan.PlanActivityCostIsScheduledCost | agents/travel_planner_agent.py:123-124 | when every day's running totals are maintained, the sum of the days' cost totals is the total price of all scheduled activities |
| CostEstimator.EstimateCost | agents/travel_planner_agent.py:150-194 | accommodation = mid-tier price × days, food = meal cost × days, activities = the sum of the days' cost totals, transport = 500 × days; buffer = subtotal × 0.10; total = subtotal + buffer; within budget ⇔ budget − total ≥ 0 |
| CostEstimator.ActivitiesLineIsScheduledCost | agents/travel_planner_agent.py:158 | for a plan whose day totals are maintained, the activities line equals the summed price of every scheduled activity |
| CostEstimator.TotalIsSubtotalPlusTenth | agents/travel_planner_agent.py:164-166 | a corollary of the pricing contract: the total is exactly 11/10 of the subtotal |
| CostEstimator.TotalMonotone | agents/travel_planner_agent.py:158-166 | a plan with a lower activity cost never has a higher total |
| Repair.InsertByCost | agents/travel_planner_agent.py:223 | insertion adds exactly the new entry (the multiset grows by it and nothing else) and the new entry leads whenever it costs at least as much as the current head, which is how equal costs keep the new entry in front |
| Repair.InsertKeepsSorted | agents/travel_planner_agent.py:223 | insertion into a descending-by-cost list keeps it descending |
| Repair.InsertWithCost | agents/travel_planner_agent.py:223 | insertion puts the new entry ahead of every entry of its own cost and leaves the entries of each cost in their order |
| Repair.SortByCostDesc | agents/travel_planner_agent.py:223 | the sort is a permutation (same multiset), sorted by cost descending, and stable: for every cost, the entries of that cost appear in their input order; length, cost sum and hour sum are kept |
| Repair.FirstMaxIndex | agents/travel_planner_agent.py:223-224 | the index of the first entry of maximum cost |
| Repair.FirstMaxUnique | agents/travel_planner_agent.py:223-224 | there is only one first maximum |
| Repair.SortHeadIsFirstMax | agents/travel_planner_agent.py:223-224 | the head of the stable descending sort is the first entry of maximum cost, which is the one removed among ties |
| Repair.RepairDay | agents/travel_planner_agent.py:221-226 | an empty day is unchanged; otherwise exactly the first maximum-cost entry is removed (remaining multiset plus the removed entry equals the original), the rest is left sorted by cost descending, and its cost and hours are subtracted from the day totals |
| Repair.RepairDayInvariants | agents/travel_planner_agent.py:224-226 | removal keeps a day's totals equal to its list's sums and within 8 hours, and every remaining entry still has a non-negative price and a duration of 1..8 hours |
| Repair.RepairPass | agents/travel_planner_agent.py:220-226 | a pass treats every day independently and keeps the number of days |
| Repair.PassPreservesInvariants | agents/travel_planner_agent.py:220-226 | a pass keeps every day well formed and within 8 hours |
| Repair.PassTrims | agents/travel_planner_agent.py:220-226 | a pass only takes activities away: each day keeps its number and a sub-multiset of its entries |
| Repair.RepairDayKeepsTieOrder | agents/travel_planner_agent.py:221-224 | the removed entry was the first of its cost in the day's list, the other entries of that cost stay in list order, and every other cost class is left exactly as it was |
| Repair.PassRemovesOnePerBusyDay | agents/travel_planner_agent.py:220-224 | a pass removes exactly one activity from each non-empty day: the count of scheduled activities, laid end to end, drops by the number of busy days |
| Repair.PassCostNonIncreasing | agents/travel_planner_agent.py:225 | with non-negative prices, a pass never raises the activity cost |
| Repair.PassNWellFormed | agents/travel_planner_agent.py:211-234 | any number of passes keeps the day invariants and the hour ceiling |
| Repair.PassNTrimmed | agents/travel_planner_agent.py:211-234 | any number of passes only removes activities |
| Repair.PassNCostNonIncreasing | agents/travel_planner_agent.py:211-234 | any number of passes never raises the activity cost |
| Repair.PassNInvariants | agents/travel_planner_agent.py:211-234 | the three facts above together |
| Planner.Replan | agents/travel_planner_agent.py:207-236 | a plan within budget on entry is returned unchanged (counter included) and accepted; the returned flag is the final within-budget flag; budget, days, city and allocation never change; from a counter of at most 3 the counter ends at most at 4 |
| Planner.RepairStep | agents/travel_planner_agent.py:211-230 | one attempt counts itself, makes one pass, and stores the breakdown and flag that pricing the new plan gives |
| Planner.ReplanPasses | agents/travel_planner_agent.py:211-236 | from an over-budget state, either the plan is accepted after k passes (1 ≤ k ≤ 3 from a fresh counter), with the counter advanced by k and the stored cost pricing the stored plan, or the loop is exhausted after exactly 3 − counter passes with the counter at 4 (the stored cost prices the stored plan whenever at least one pass ran or it did so on entry) |
| Planner.ReplanStopsAtFirstFit | agents/travel_planner_agent.py:228-236 | from an over-budget state, none of the plans produced by the passes before the last one fits the budget once priced: the loop stops at the first re-pricing that fits |
| Planner.ReplanNoEarlierFit | agents/travel_planner_agent.py:211-236 | from a consistent state, no plan reached by fewer passes than the loop made fits the budget, the starting plan included |
| Planner.ReplanIsPassN | agents/travel_planner_agent.py:207-236 | the final plan is the initial plan after the number of passes the loop made, which is one per attempt counted and three when the loop gives up; the loop ends within budget or with the counter past 3; the final state is consistent |
| Planner.RepairFromFreshCounter | agents/travel_planner_agent.py:207-236 | from a freshly priced plan with the counter at 0, the loop leaves the plan after min(counter, 3) passes, keeps the day invariants, only removes activities, prices its plan, and ends within budget or with the counter at 4; no plan after fewer passes fits the budget |
| Planner.ReplanNeverRaisesCost | agents/travel_planner_agent.py:219-234 | the loop keeps the day invariants, only removes activities, leaves a consistent state, and never raises the total cost |
| Planner.ScheduledFromCatalog | agents/travel_planner_agent.py:98-128 | scheduling a sub-sequence of a well-formed catalog places only well-formed entries of that catalog |
| Planner.Prepare | agents/travel_planner_agent.py:292-302 | steps 1-4 fail exactly for an unknown city; otherwise the state holds the schedule of the selection, priced consistently, with the counter at 0 and only catalog activities |
| Planner.PlanTrip | agents/travel_planner_agent.py:284-305 | failure exactly for an unknown city (UnknownCity) or, for a known city, zero days (ZeroDays); otherwise the final state has num_days well-formed slots numbered 1..N, only catalog activities, a breakdown that prices its plan, a flag ⇔ budget − total ≥ 0, a counter of at most 4, and the inputs and allocation unchanged; the plan is the schedule of the selection after min(counter, 3) removal passes, the plan after any fewer passes would be over budget, and the session ends within budget or with the counter at 4 |
| Planner.Run | agents/travel_planner_agent.py:278-308 | the result record, built by `GenerateItinerary`, has a daily plan with one well-formed slot per day; its cost breakdown is what pricing that plan gives; its flag ⇔ total ≤ budget; the plan is the schedule of the selection after the least number k ≤ 3 of removal passes whose plan fits the budget, and after exactly three, none fitting, when the flag is false; failure exactly for an unknown city or zero days |
| Scenarios.GoaSelection | agents/travel_planner_agent.py:64-87 | Goa with ['adventure','nature'] selects Water Sports and the Spice Plantation Tour, in that order |
| Scenarios.GoaSchedule | agents/travel_planner_agent.py:98-128 | over 3 days: Water Sports on day 1, the Spice Plantation Tour on day 2, day 3 empty |
| Scenarios.GoaEstimate | agents/travel_planner_agent.py:150-194 | that plan costs 7500 + 1200 + 4500 + 1500, plus a 1470 buffer, for a total of 16170, within a 50000 budget |
| Scenarios.GoaAdventureAndNature | agents/travel_planner_agent.py:284-308 | the whole Goa session ends with that plan and cost, accepted with no repair and the counter at 0 |
| Scenarios.DelhiSelection | agents/travel_planner_agent.py:64-87 | Delhi with ['all'] selects the whole Delhi catalog |
| Scenarios.DelhiSchedule | agents/travel_planner_agent.py:98-128 | over 2 days: Red Fort and the Taj Mahal Tour on day 1, India Gate and Shopping at CP on day 2 |
| Scenarios.DelhiSkipsAdventure | agents/travel_planner_agent.py:112-128 | Adventure Sports is left unplaced |
| Scenarios.DelhiPasses | agents/travel_planner_agent.py:219-226 | the first pass removes the Taj Mahal Tour and Shopping at CP, the second Red Fort and India Gate, and the third finds both days empty |
| Scenarios.DelhiEstimates | agents/travel_planner_agent.py:150-194 | the three plans cost 12980, 9130 and 8580, each over a 5000 budget |
| Scenarios.DelhiReplan | agents/travel_planner_agent.py:207-236 | the Delhi loop makes three passes and gives up over budget with the counter at 4 |
| Scenarios.DelhiAllOnSmallBudget | agents/travel_planner_agent.py:284-308 | the initial Delhi plan totals 12980 and leaves Adventure Sports out; the session ends with both days empty, a total of 8580 (6000 + 800 + 0 + 1000 + 780), not within budget, and the counter at 4 |

## Left out

- The console front end: prompts, input validation, the restart loop, preference parsing and writing the itinerary to a file. All of it is I/O around the core.
- Every `print`, all currency and text formatting, and the display part of the final-itinerary step. Only the returned record is modelled.
- The `sys.path` manipulation and the imports.
- Floating-point arithmetic. The allocated amounts, the buffer and the total are exact reals, so the model abstracts away IEEE-double rounding. For example, a subtotal of 3 gives a buffer of exactly 3/10 here, where a double computes `3 * 0.1` as 0.30000000000000004.
- The two crashes: the missing-attribute error for an unknown city and the division by zero for a zero-day trip. The model reports them as the failures `UnknownCity` and `ZeroDays` rather than modelling an exception.
- The budget and luxury hotel tiers. No planning step reads them.
- `MinRestHours`. It is transcribed, but no planning step reads it.
- The unused instance fields `plan` and `spent`, which the agent initialises and never reads.
- Catalog entries are `Activity` values that carry their own name. The source uses name-keyed dictionaries. Within a city the names are distinct (`TravelConfig.DatabaseWellFormed`), so the two representations hold the same information.
- In-place mutation. Each repair pass rewrites the day dictionaries in place in the source. In the model, it returns a new plan.
- Scheduler.Schedule: requires a non-zero day count, because the source divides by it. The session functions report a zero count as `ZeroDays` instead.
- Planner.Prepare: requires a non-zero day count for the same reason. `Planner.PlanTrip` and `Planner.Run` handle that case.
- Scheduler.FillDay: the clause that the day's hours never drop is stated for lists with no negative duration. Every catalog entry lasts 1 to 8 hours (`TravelConfig.DatabaseWellFormed`), so every selection meets that condition. `Scheduler.FillDaySkipsOnlyMisfits`, about left-out entries, holds for any list.
