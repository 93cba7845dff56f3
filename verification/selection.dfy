/** Step 2 of a planning run: picking the activities of the requested city
    whose category the traveller asked for. */
module Selection {
  import opened Wrappers
  import opened TravelConfig
  import opened Sequences

  /** The preference that stands for every category. */
  const AllCategories: string := "all"

  /** An activity is wanted when its category was requested or when the
      wildcard was. */
  predicate Matches(a: Activity, preferences: seq<string>)
  {
    a.category in preferences || AllCategories in preferences
  }

  /** The catalog entries that match, in catalog order. */
  function Filter(catalog: Catalog, preferences: seq<string>): (r: Catalog)
    ensures Subseq(r, catalog)
    ensures forall i :: 0 <= i < |r| ==> Matches(r[i], preferences)
    ensures forall i :: 0 <= i < |catalog| && Matches(catalog[i], preferences) ==> catalog[i] in r
    decreases |catalog|
  {
    if catalog == [] then []
    else
      var rest := Filter(catalog[1..], preferences);
      assert forall i :: 1 <= i < |catalog| ==> catalog[i] == catalog[1..][i - 1];
      if Matches(catalog[0], preferences) then [catalog[0]] + rest else rest
  }

  /** Selection within one city's catalog: the matching entries, or the
      whole catalog when none match. */
  function SelectFrom(catalog: Catalog, preferences: seq<string>): (r: Catalog)
    ensures Subseq(r, catalog)
    ensures (exists a :: a in catalog && Matches(a, preferences)) ==>
      (forall i :: 0 <= i < |r| ==> Matches(r[i], preferences))
      && (forall a :: a in catalog && Matches(a, preferences) ==> a in r)
    ensures (forall a :: a in catalog ==> !Matches(a, preferences)) ==> r == catalog
  {
    var filtered := Filter(catalog, preferences);
    forall a | a in catalog && Matches(a, preferences) ensures a in filtered {
      var i :| 0 <= i < |catalog| && catalog[i] == a;
    }
    if filtered == [] then
      SubseqRefl(catalog);
      catalog
    else
      SubseqMember(filtered, catalog, filtered[0]);
      filtered
  }

  /** With the wildcard among the preferences every entry is kept, in
      catalog order. */
  lemma {:induction false} WildcardSelectsAll(catalog: Catalog, preferences: seq<string>)
    requires AllCategories in preferences
    ensures Filter(catalog, preferences) == catalog
    ensures SelectFrom(catalog, preferences) == catalog
    decreases |catalog|
  {
    if catalog != [] {
      WildcardSelectsAll(catalog[1..], preferences);
      assert catalog == [catalog[0]] + catalog[1..];
    }
  }

  /** The selection step. An unknown city yields `None` (no selection is
      made); otherwise the selection within that city's catalog. */
  function SelectActivities(city: string, preferences: seq<string>): (r: Option<Catalog>)
    ensures r.None? <==> city !in ActivitiesDatabase
    ensures r.Some? ==> r.value == SelectFrom(ActivitiesDatabase[city], preferences)
  {
    if city !in ActivitiesDatabase then None
    else Some(SelectFrom(ActivitiesDatabase[city], preferences))
  }

  /** The wildcard selects a known city's whole catalog. */
  lemma WildcardSelectsCity(city: string, preferences: seq<string>)
    requires city in ActivitiesDatabase && AllCategories in preferences
    ensures SelectActivities(city, preferences) == Some(ActivitiesDatabase[city])
  {
    WildcardSelectsAll(ActivitiesDatabase[city], preferences);
  }
}
