/** The planner's static reference data: the budget split, the per-city
    activity catalogs, mid-tier hotel prices, daily meal costs and the
    scheduling constants. Amounts are whole rupees. */
module TravelConfig {

  /** One catalog entry. The name is the entry's key within its city. */
  datatype Activity = Activity(name: string, cost: int, duration: int, category: string)

  /** A city's catalog, in the order the entries are listed (the order the
      selector and the scheduler walk them in). */
  type Catalog = seq<Activity>

  /** Budget split ratios, in listing order. */
  const BudgetAllocation: seq<(string, real)> :=
    [("accommodation", 0.40), ("food", 0.25), ("activities", 0.25), ("transport", 0.10)]

  const DelhiCatalog: Catalog := [
    Activity("Red Fort", 500, 3, "historical"),
    Activity("Taj Mahal Tour", 1500, 5, "historical"),
    Activity("India Gate", 0, 2, "sightseeing"),
    Activity("Shopping at CP", 2000, 4, "shopping"),
    Activity("Adventure Sports", 3000, 6, "adventure")]

  const MumbaiCatalog: Catalog := [
    Activity("Gateway of India", 0, 2, "sightseeing"),
    Activity("Marine Drive Walk", 200, 3, "sightseeing"),
    Activity("Bandra Beach Sunset", 500, 4, "relaxation"),
    Activity("Bollywood Studio Tour", 2500, 5, "entertainment"),
    Activity("Island Hopping", 3500, 6, "adventure")]

  const BangaloreCatalog: Catalog := [
    Activity("Vidhana Soudha", 0, 2, "historical"),
    Activity("Cubbon Park", 100, 3, "nature"),
    Activity("Lalbagh Botanical Garden", 500, 4, "nature"),
    Activity("Tech Park Tour", 1000, 3, "educational"),
    Activity("Adventure Park", 2500, 6, "adventure")]

  const GoaCatalog: Catalog := [
    Activity("Beach Day", 500, 8, "relaxation"),
    Activity("Water Sports", 3000, 6, "adventure"),
    Activity("Old Goa Churches", 500, 5, "historical"),
    Activity("Spice Plantation Tour", 1500, 4, "nature"),
    Activity("Nightlife Exploring", 2000, 5, "entertainment")]

  /** The activity catalog of every supported city. */
  const ActivitiesDatabase: map<string, Catalog> :=
    map["Delhi" := DelhiCatalog, "Mumbai" := MumbaiCatalog, "Bangalore" := BangaloreCatalog, "Goa" := GoaCatalog]

  /** Mid-range hotel price per night; the only hotel tier the planner reads. */
  const MidHotelPrice: map<string, int> :=
    map["Delhi" := 3000, "Mumbai" := 4000, "Bangalore" := 3500, "Goa" := 2500]

  /** Food cost per day. */
  const DailyMealCost: map<string, int> :=
    map["Delhi" := 400, "Mumbai" := 600, "Bangalore" := 500, "Goa" := 400]

  /** Ceiling on the activity hours scheduled on one day. */
  const MaxHoursPerDay: int := 8

  /** Declared alongside the other constraints but read by no planning step. */
  const MinRestHours: int := 4

  /** Safety margin added on top of the estimated subtotal. */
  const BufferPercentage: real := 0.10

  /** The fields a catalog entry must satisfy for scheduling and repair to
      behave: a non-negative price and a duration that can fit in one day. */
  predicate WellFormedActivity(a: Activity)
  {
    a.cost >= 0 && 0 < a.duration <= MaxHoursPerDay
  }

  predicate UniqueNames(c: seq<Activity>)
  {
    forall i, j :: 0 <= i < j < |c| ==> c[i].name != c[j].name
  }

  predicate WellFormedCatalog(c: Catalog)
  {
    (forall i :: 0 <= i < |c| ==> WellFormedActivity(c[i])) && UniqueNames(c)
  }

  /** Every city catalog holds well-formed entries with distinct names. */
  lemma DatabaseWellFormed()
    ensures forall city :: city in ActivitiesDatabase ==> WellFormedCatalog(ActivitiesDatabase[city])
  {
    DelhiCatalogWellFormed();
    MumbaiCatalogWellFormed();
    BangaloreCatalogWellFormed();
    GoaCatalogWellFormed();
  }

  lemma DelhiCatalogWellFormed() ensures WellFormedCatalog(DelhiCatalog) {}
  lemma MumbaiCatalogWellFormed() ensures WellFormedCatalog(MumbaiCatalog) {}
  lemma BangaloreCatalogWellFormed() ensures WellFormedCatalog(BangaloreCatalog) {}
  lemma GoaCatalogWellFormed() ensures WellFormedCatalog(GoaCatalog) {}

  /** The three per-city tables are keyed by the same four cities, so a city
      the selector accepts can always be priced. */
  lemma CityTablesAgree()
    ensures ActivitiesDatabase.Keys == MidHotelPrice.Keys == DailyMealCost.Keys
    ensures ActivitiesDatabase.Keys == {"Delhi", "Mumbai", "Bangalore", "Goa"}
  {
  }
}
