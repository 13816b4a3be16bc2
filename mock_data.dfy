/** The drink-type catalog the application ships with (src/data/mockData.ts). */
module MockData {
  import opened Options
  import opened DrinkUtils

  const DrinkTypes: seq<DrinkType> := [
    DrinkType("dt1", "Beer", "\U{1F37A}", 5.0, 1.0, 355.0),
    DrinkType("dt2", "Wine", "\U{1F377}", 12.0, 1.5, 150.0),
    DrinkType("dt3", "Cocktail", "\U{1F378}", 15.0, 2.0, 180.0),
    DrinkType("dt4", "Shot", "\U{1F943}", 40.0, 1.5, 45.0),
    DrinkType("dt5", "Cider", "\U{1F34E}", 4.5, 0.8, 330.0),
    DrinkType("dt6", "Seltzer", "\U{1F942}", 5.0, 1.0, 355.0)
  ]

  /** The catalog's ids are distinct, and no volume or strength is negative. */
  lemma CatalogWellFormed()
    ensures CatalogNonNegative(DrinkTypes)
    ensures forall i, j :: 0 <= i < j < |DrinkTypes| ==> DrinkTypes[i].id != DrinkTypes[j].id
  {
    assert forall k :: 0 <= k < |DrinkTypes| ==> DrinkTypes[k].id[2] as int == '1' as int + k;
  }

  /** Looking up an entry's id finds that entry. */
  lemma CatalogLookupFindsEntry(k: int)
    requires 0 <= k < |DrinkTypes|
    ensures GetDrinkTypeById(DrinkTypes, DrinkTypes[k].id) == Some(DrinkTypes[k])
  {
    CatalogWellFormed();
    var r := GetDrinkTypeById(DrinkTypes, DrinkTypes[k].id);
    var m :| 0 <= m < |DrinkTypes| && DrinkTypes[m] == r.value && forall j :: 0 <= j < m ==> DrinkTypes[j].id != DrinkTypes[k].id;
    assert DrinkTypes[m].id == DrinkTypes[k].id;
  }
}
