/**
 * The BAC estimation and risk engine of src/utils/drinkUtils.ts.
 *
 * The drink-type catalog (a module-level table in the source) and the current
 * time (read from the clock in the source) are parameters here. Timestamps are
 * integer milliseconds since the epoch; quantities are exact reals.
 */
module DrinkUtils {
  import opened Options
  import opened NumberText

  // ---------------------------------------------------------------------------
  // Data model (src/types/models.ts)
  // ---------------------------------------------------------------------------

  datatype Location = Location(name: string, lat: Option<real>, lng: Option<real>)

  /** A catalog entry: `alcoholContent` is percent by volume, `volume` is ml. */
  datatype DrinkType = DrinkType(
    id: string,
    name: string,
    icon: string,
    alcoholContent: real,
    standardDrinks: real,
    volume: real)

  /** One logged drink; location and photo are carried along and never read. */
  datatype Drink = Drink(
    id: string,
    userId: string,
    typeId: string,
    timestamp: int,
    location: Option<Location>,
    photo: Option<string>)

  const DefaultWeightKg: real := 70.0
  /** The male constant; the source notes 0.55 for females. */
  const DefaultGenderConstant: real := 0.68
  /** BAC eliminated per hour. */
  const MetabolismRate: real := 0.015
  /** Grams per millilitre of ethanol. */
  const EthanolDensity: real := 0.789
  const MsPerHour: int := 60 * 60 * 1000

  function Min(a: int, b: int): int {
    if a <= b then a else b
  }

  /** `Math.max(a, b)` on reals. */
  function Max(a: real, b: real): real {
    if a >= b then a else b
  }

  // ---------------------------------------------------------------------------
  // Catalog lookup
  // ---------------------------------------------------------------------------

  /** The first catalog entry with the given id, as `Array.prototype.find` gives it. */
  function GetDrinkTypeById(catalog: seq<DrinkType>, id: string): (r: Option<DrinkType>)
    ensures r.None? <==> forall k :: 0 <= k < |catalog| ==> catalog[k].id != id
    ensures r.Some? ==> (r.value.id == id &&
                         exists k :: 0 <= k < |catalog| && catalog[k] == r.value &&
                                     forall j :: 0 <= j < k ==> catalog[j].id != id)
  {
    if |catalog| == 0 then None
    else if catalog[0].id == id then
      assert catalog[0] == catalog[0];
      Some(catalog[0])
    else
      var r := GetDrinkTypeById(catalog[1..], id);
      assert r.Some? ==> (exists k :: 0 <= k < |catalog| && catalog[k] == r.value &&
                                     forall j :: 0 <= j < k ==> catalog[j].id != id) by {
        if r.Some? {
          var k :| 0 <= k < |catalog[1..]| && catalog[1..][k] == r.value &&
            forall j :: 0 <= j < k ==> catalog[1..][j].id != id;
          assert catalog[k + 1] == r.value;
          assert forall j :: 0 <= j < k + 1 ==> catalog[j].id != id by {
            forall j | 0 <= j < k + 1 ensures catalog[j].id != id {
              if j > 0 { assert catalog[j] == catalog[1..][j - 1]; }
            }
          }
        }
      }
      r
  }

  // ---------------------------------------------------------------------------
  // Counting helpers
  // ---------------------------------------------------------------------------

  /** `calculateTotalDrinks`: no type occurs more often than the total, which is 0 exactly when no type occurs. */
  function CalculateTotalDrinks(drinks: seq<Drink>): (n: nat)
    ensures forall t :: CountOfType(drinks, t) <= n
    ensures n == 0 <==> TypeIds(drinks) == {}
  {
    if |drinks| > 0 then
      assert drinks[0].typeId in TypeIds(drinks);
      |drinks|
    else |drinks|
  }

  /** Number of drinks in `drinks` whose type is `typeId`. */
  function CountOfType(drinks: seq<Drink>, typeId: string): (c: nat)
    ensures c <= |drinks|
  {
    if |drinks| == 0 then 0
    else CountOfType(drinks[..|drinks| - 1], typeId) + (if drinks[|drinks| - 1].typeId == typeId then 1 else 0)
  }

  /** The type ids that occur in `drinks`. */
  function TypeIds(drinks: seq<Drink>): set<string> {
    set i | 0 <= i < |drinks| :: drinks[i].typeId
  }

  lemma TypeIdsSnoc(drinks: seq<Drink>, i: int)
    requires 0 <= i < |drinks|
    ensures TypeIds(drinks[..i + 1]) == TypeIds(drinks[..i]) + {drinks[i].typeId}
  {
    var a, b := drinks[..i + 1], drinks[..i];
    forall t | t in TypeIds(a) ensures t in TypeIds(b) + {drinks[i].typeId} {
      var j :| 0 <= j < i + 1 && a[j].typeId == t;
      if j < i { assert b[j] == a[j]; }
    }
    forall t | t in TypeIds(b) ensures t in TypeIds(a) {
      var j :| 0 <= j < i && b[j].typeId == t;
      assert a[j] == b[j];
    }
  }

  lemma {:induction false} CountOfTypePositive(drinks: seq<Drink>, typeId: string)
    ensures CountOfType(drinks, typeId) > 0 <==> typeId in TypeIds(drinks)
  {
    if |drinks| > 0 {
      var n := |drinks| - 1;
      CountOfTypePositive(drinks[..n], typeId);
      TypeIdsSnoc(drinks, n);
      assert drinks[..n + 1] == drinks;
    }
  }

  lemma CountOfTypeSnoc(drinks: seq<Drink>, i: int, typeId: string)
    requires 0 <= i < |drinks|
    ensures CountOfType(drinks[..i + 1], typeId)
         == CountOfType(drinks[..i], typeId) + (if drinks[i].typeId == typeId then 1 else 0)
  {
    assert drinks[..i + 1][..i] == drinks[..i];
  }

  /** Value of `counts` at `k`, reading a missing key as 0. */
  function CountAt(counts: map<string, nat>, k: string): nat {
    if k in counts then counts[k] else 0
  }

  /** Sum of `counts` over the keys in `keys`. */
  ghost function SumOver(counts: map<string, nat>, keys: set<string>): nat
    decreases keys
  {
    if keys == {} then 0
    else
      var k :| k in keys;
      CountAt(counts, k) + SumOver(counts, keys - {k})
  }

  /** Sum of all counts in a count dictionary. */
  ghost function MapTotal(counts: map<string, nat>): nat {
    SumOver(counts, counts.Keys)
  }

  lemma {:induction false} SumOverRemove(counts: map<string, nat>, keys: set<string>, x: string)
    requires x in keys
    ensures SumOver(counts, keys) == CountAt(counts, x) + SumOver(counts, keys - {x})
    decreases keys
  {
    var k :| k in keys && SumOver(counts, keys) == CountAt(counts, k) + SumOver(counts, keys - {k});
    if k != x {
      SumOverRemove(counts, keys - {k}, x);
      SumOverRemove(counts, keys - {x}, k);
      assert keys - {k} - {x} == keys - {x} - {k};
    }
  }

  lemma {:induction false} SumOverAgree(c1: map<string, nat>, c2: map<string, nat>, keys: set<string>)
    requires forall k :: k in keys ==> CountAt(c1, k) == CountAt(c2, k)
    ensures SumOver(c1, keys) == SumOver(c2, keys)
    decreases keys
  {
    if keys != {} {
      var k :| k in keys && SumOver(c1, keys) == CountAt(c1, k) + SumOver(c1, keys - {k});
      SumOverRemove(c2, keys, k);
      SumOverAgree(c1, c2, keys - {k});
    }
  }

  /** Incrementing one entry of a count dictionary (adding it at 1 when absent) adds one to the total. */
  lemma MapTotalIncrement(counts: map<string, nat>, t: string)
    ensures MapTotal(counts[t := CountAt(counts, t) + 1]) == MapTotal(counts) + 1
  {
    var next := counts[t := CountAt(counts, t) + 1];
    SumOverRemove(next, next.Keys, t);
    SumOverAgree(next, counts, next.Keys - {t});
    if t in counts {
      SumOverRemove(counts, counts.Keys, t);
      assert next.Keys - {t} == counts.Keys - {t};
    } else {
      assert next.Keys - {t} == counts.Keys;
    }
  }

  /** One iteration of the counting loop keeps its invariants. */
  lemma CountStep(drinks: seq<Drink>, i: int, counts: map<string, nat>)
    requires 0 <= i < |drinks|
    requires counts.Keys == TypeIds(drinks[..i])
    requires forall t :: t in counts ==> counts[t] == CountOfType(drinks[..i], t)
    requires MapTotal(counts) == i
    ensures var t := drinks[i].typeId;
      var next := counts[t := CountAt(counts, t) + 1];
      && next.Keys == TypeIds(drinks[..i + 1])
      && (forall u :: u in next ==> next[u] == CountOfType(drinks[..i + 1], u))
      && MapTotal(next) == i + 1
  {
    var t := drinks[i].typeId;
    MapTotalIncrement(counts, t);
    CountOfTypePositive(drinks[..i], t);
    TypeIdsSnoc(drinks, i);
    forall u ensures CountOfType(drinks[..i + 1], u) == CountOfType(drinks[..i], u) + (if t == u then 1 else 0) {
      CountOfTypeSnoc(drinks, i, u);
    }
  }

  /**
   * The per-type count dictionary. The loop mirrors the source's `forEach`:
   * a missing key is first set to 0, then the entry is incremented.
   */
  method CalculateDrinkCountByType(drinks: seq<Drink>) returns (counts: map<string, nat>)
    ensures counts.Keys == TypeIds(drinks)
    ensures forall t :: t in counts ==> counts[t] == CountOfType(drinks, t)
    ensures MapTotal(counts) == CalculateTotalDrinks(drinks)
  {
    counts := map[];
    var i := 0;
    while i < |drinks|
      invariant 0 <= i <= |drinks|
      invariant counts.Keys == TypeIds(drinks[..i])
      invariant forall t :: t in counts ==> counts[t] == CountOfType(drinks[..i], t)
      invariant MapTotal(counts) == i
    {
      var t := drinks[i].typeId;
      CountStep(drinks, i, counts);
      ghost var next := counts[t := CountAt(counts, t) + 1];
      if t !in counts {
        counts := counts[t := 0];
      }
      counts := counts[t := counts[t] + 1];
      assert counts == next;
      i := i + 1;
    }
    assert drinks[..i] == drinks;
  }

  /** A list of drinks all of one type is counted as that one key with the list's length. */
  lemma {:induction false} SingleTypeCount(drinks: seq<Drink>, typeId: string)
    requires |drinks| > 0
    requires forall i :: 0 <= i < |drinks| ==> drinks[i].typeId == typeId
    ensures TypeIds(drinks) == {typeId}
    ensures CountOfType(drinks, typeId) == |drinks|
  {
    assert drinks[0].typeId in TypeIds(drinks);
    if |drinks| > 1 {
      SingleTypeCount(drinks[..|drinks| - 1], typeId);
    }
  }

  /** The drinks that belong to `userId`, in their original order. */
  function CalculateUserDrinks(drinks: seq<Drink>, userId: string): (r: seq<Drink>)
    ensures forall i :: 0 <= i < |r| ==> r[i].userId == userId
    ensures |r| <= |drinks|
  {
    if |drinks| == 0 then []
    else (if drinks[0].userId == userId then [drinks[0]] else []) + CalculateUserDrinks(drinks[1..], userId)
  }

  /** The filter keeps every drink of the user, as often as it occurs, and nothing else. */
  lemma {:induction false} UserDrinksExactly(drinks: seq<Drink>, userId: string)
    ensures forall d :: multiset(CalculateUserDrinks(drinks, userId))[d]
                     == if d.userId == userId then multiset(drinks)[d] else 0
  {
    if |drinks| > 0 {
      assert drinks == [drinks[0]] + drinks[1..];
      UserDrinksExactly(drinks[1..], userId);
    }
  }

  /** Filtering distributes over concatenation, so it keeps the order of the input. */
  lemma {:induction false} UserDrinksConcat(a: seq<Drink>, b: seq<Drink>, userId: string)
    ensures CalculateUserDrinks(a + b, userId) == CalculateUserDrinks(a, userId) + CalculateUserDrinks(b, userId)
  {
    if |a| > 0 {
      assert (a + b)[1..] == a[1..] + b;
      UserDrinksConcat(a[1..], b, userId);
    } else {
      assert a + b == b;
    }
  }

  lemma {:induction false} UserDrinksEmpty(drinks: seq<Drink>, userId: string)
    requires forall i :: 0 <= i < |drinks| ==> drinks[i].userId != userId
    ensures CalculateUserDrinks(drinks, userId) == []
  {
    if |drinks| > 0 {
      UserDrinksEmpty(drinks[1..], userId);
    }
  }

  /** Dropping another user's drink from anywhere in the list leaves the user's drinks unchanged. */
  lemma UserDrinksSkipOther(before: seq<Drink>, d: Drink, after: seq<Drink>, userId: string)
    requires d.userId != userId
    ensures CalculateUserDrinks(before + [d] + after, userId) == CalculateUserDrinks(before + after, userId)
  {
    UserDrinksConcat(before + [d], after, userId);
    UserDrinksConcat(before, [d], userId);
    UserDrinksConcat(before, after, userId);
    assert CalculateUserDrinks([d], userId) == [];
  }

  // ---------------------------------------------------------------------------
  // BAC estimate
  // ---------------------------------------------------------------------------

  /** Grams of ethanol in one serving of `t`. */
  function AlcoholGrams(t: DrinkType): (g: real)
    ensures t.volume >= 0.0 && t.alcoholContent >= 0.0 ==> g >= 0.0
  {
    (t.volume * t.alcoholContent) / 100.0 * EthanolDensity
  }

  /** Grams a drink contributes: a type missing from the catalog contributes nothing. */
  function DrinkGrams(catalog: seq<DrinkType>, d: Drink): (g: real)
    ensures GetDrinkTypeById(catalog, d.typeId).None? ==> g == 0.0
    ensures CatalogNonNegative(catalog) ==> g >= 0.0
  {
    match GetDrinkTypeById(catalog, d.typeId)
    case None => 0.0
    case Some(t) => AlcoholGrams(t)
  }

  predicate CatalogNonNegative(catalog: seq<DrinkType>) {
    forall k :: 0 <= k < |catalog| ==> catalog[k].volume >= 0.0 && catalog[k].alcoholContent >= 0.0
  }

  /** Grams of alcohol in `drinks`, summed in list order as the source's loop does. */
  function TotalAlcohol(drinks: seq<Drink>, catalog: seq<DrinkType>): (g: real)
    ensures CatalogNonNegative(catalog) ==> g >= 0.0
  {
    if |drinks| == 0 then 0.0
    else TotalAlcohol(drinks[..|drinks| - 1], catalog) + DrinkGrams(catalog, drinks[|drinks| - 1])
  }

  lemma {:induction false} TotalAlcoholConcat(a: seq<Drink>, b: seq<Drink>, catalog: seq<DrinkType>)
    ensures TotalAlcohol(a + b, catalog) == TotalAlcohol(a, catalog) + TotalAlcohol(b, catalog)
    decreases |b|
  {
    if |b| == 0 {
      assert a + b == a;
    } else {
      assert (a + b)[..|a + b| - 1] == a + b[..|b| - 1];
      TotalAlcoholConcat(a, b[..|b| - 1], catalog);
    }
  }

  /**
   * The source's `reduce`: the earliest of `seed` and the drinks' timestamps,
   * taken left to right with a strict `<`.
   */
  function EarliestDrinkTime(drinks: seq<Drink>, seed: int): (e: int)
    ensures e <= seed
    ensures forall k :: 0 <= k < |drinks| ==> e <= drinks[k].timestamp
    ensures e == seed || exists k :: 0 <= k < |drinks| && e == drinks[k].timestamp
  {
    if |drinks| == 0 then seed
    else
      var init := drinks[..|drinks| - 1];
      var e := EarliestDrinkTime(init, seed);
      assert forall k :: 0 <= k < |init| ==> init[k] == drinks[k];
      if drinks[|drinks| - 1].timestamp < e then drinks[|drinks| - 1].timestamp else e
  }

  /** Moving the seed forward moves the earliest time forward by no more than that. */
  lemma {:induction false} EarliestDrinkTimeShift(drinks: seq<Drink>, s1: int, s2: int)
    requires s1 <= s2
    ensures EarliestDrinkTime(drinks, s1) <= EarliestDrinkTime(drinks, s2)
    ensures EarliestDrinkTime(drinks, s2) - EarliestDrinkTime(drinks, s1) <= s2 - s1
  {
    if |drinks| > 0 {
      EarliestDrinkTimeShift(drinks[..|drinks| - 1], s1, s2);
    }
  }

  /** Hours from the given user's first drink (or from `now`, if none is earlier) to `now`. */
  function HoursSinceFirstDrink(userDrinks: seq<Drink>, now: int): (h: real)
    ensures h >= 0.0
  {
    (now - EarliestDrinkTime(userDrinks, now)) as real / MsPerHour as real
  }

  /** The Widmark estimate before any metabolism. */
  function RawBac(drinks: seq<Drink>, userId: string, catalog: seq<DrinkType>, weightKg: real, genderConstant: real): (raw: real)
    requires weightKg * genderConstant > 0.0
    ensures CatalogNonNegative(catalog) ==> raw >= 0.0
  {
    TotalAlcohol(CalculateUserDrinks(drinks, userId), catalog) / (weightKg * genderConstant)
  }

  /** The BAC the source returns for `userId` at time `now`. */
  function BacAt(drinks: seq<Drink>, userId: string, catalog: seq<DrinkType>, weightKg: real,
                 genderConstant: real, now: int): (bac: real)
    requires weightKg * genderConstant > 0.0
    ensures bac >= 0.0
  {
    var userDrinks := CalculateUserDrinks(drinks, userId);
    Max(0.0, RawBac(drinks, userId, catalog, weightKg, genderConstant)
             - HoursSinceFirstDrink(userDrinks, now) * MetabolismRate)
  }

  /**
   * `calculateBAC`: one loop sums the grams of the user's drinks, a second
   * takes the earliest timestamp seeded with `now`, as the `reduce` does.
   */
  method CalculateBac(drinks: seq<Drink>, userId: string, catalog: seq<DrinkType>, weightKg: real,
                      genderConstant: real, now: int) returns (bac: real)
    requires weightKg * genderConstant > 0.0
    ensures bac == BacAt(drinks, userId, catalog, weightKg, genderConstant, now)
  {
    var userDrinks := CalculateUserDrinks(drinks, userId);
    var totalAlcohol := 0.0;
    var i := 0;
    while i < |userDrinks|
      invariant 0 <= i <= |userDrinks|
      invariant totalAlcohol == TotalAlcohol(userDrinks[..i], catalog)
    {
      TotalAlcoholStep(userDrinks, i, catalog);
      var drinkType := GetDrinkTypeById(catalog, userDrinks[i].typeId);
      if drinkType.Some? {
        totalAlcohol := totalAlcohol + AlcoholGrams(drinkType.value);
      }
      i := i + 1;
    }
    assert userDrinks[..i] == userDrinks;
    var raw := totalAlcohol / (weightKg * genderConstant);

    var earliest := ReduceEarliest(userDrinks, now);

    var hoursSinceFirstDrink := (now - earliest) as real / MsPerHour as real;
    var metabolizedBac := hoursSinceFirstDrink * MetabolismRate;
    BacAtFromParts(drinks, userId, catalog, weightKg, genderConstant, now, raw, metabolizedBac);
    bac := Max(0.0, raw - metabolizedBac);
  }

  /** `calculateBAC` called without a weight or gender constant: 70 kg and 0.68. */
  method CalculateBacWithDefaults(drinks: seq<Drink>, userId: string, catalog: seq<DrinkType>, now: int)
    returns (bac: real)
    ensures bac == BacAt(drinks, userId, catalog, DefaultWeightKg, DefaultGenderConstant, now)
  {
    bac := CalculateBac(drinks, userId, catalog, DefaultWeightKg, DefaultGenderConstant, now);
  }

  /** The `reduce` of `calculateBAC`: the earliest timestamp, seeded with `now`. */
  method ReduceEarliest(userDrinks: seq<Drink>, now: int) returns (earliest: int)
    ensures earliest == EarliestDrinkTime(userDrinks, now)
  {
    earliest := now;
    var i := 0;
    while i < |userDrinks|
      invariant 0 <= i <= |userDrinks|
      invariant earliest == EarliestDrinkTime(userDrinks[..i], now)
    {
      EarliestDrinkTimeStep(userDrinks, i, now);
      if userDrinks[i].timestamp < earliest {
        earliest := userDrinks[i].timestamp;
      }
      i := i + 1;
    }
    assert userDrinks[..i] == userDrinks;
  }

  lemma BacAtFromParts(drinks: seq<Drink>, userId: string, catalog: seq<DrinkType>, weightKg: real,
                       genderConstant: real, now: int, raw: real, metabolized: real)
    requires weightKg * genderConstant > 0.0
    requires raw == TotalAlcohol(CalculateUserDrinks(drinks, userId), catalog) / (weightKg * genderConstant)
    requires metabolized == HoursSinceFirstDrink(CalculateUserDrinks(drinks, userId), now) * MetabolismRate
    ensures BacAt(drinks, userId, catalog, weightKg, genderConstant, now) == Max(0.0, raw - metabolized)
  {
  }

  lemma TotalAlcoholStep(ds: seq<Drink>, i: int, catalog: seq<DrinkType>)
    requires 0 <= i < |ds|
    ensures TotalAlcohol(ds[..i + 1], catalog) == TotalAlcohol(ds[..i], catalog) + DrinkGrams(catalog, ds[i])
  {
    assert ds[..i + 1][..i] == ds[..i];
  }

  lemma EarliestDrinkTimeStep(ds: seq<Drink>, i: int, seed: int)
    requires 0 <= i < |ds|
    ensures EarliestDrinkTime(ds[..i + 1], seed)
         == if ds[i].timestamp < EarliestDrinkTime(ds[..i], seed) then ds[i].timestamp else EarliestDrinkTime(ds[..i], seed)
  {
    assert ds[..i + 1][..i] == ds[..i];
  }

  /** A user with no drinks in the list has a BAC of exactly 0. */
  lemma BacNoDrinksIsZero(drinks: seq<Drink>, userId: string, catalog: seq<DrinkType>, weightKg: real,
                          genderConstant: real, now: int)
    requires weightKg * genderConstant > 0.0
    requires forall i :: 0 <= i < |drinks| ==> drinks[i].userId != userId
    ensures BacAt(drinks, userId, catalog, weightKg, genderConstant, now) == 0.0
  {
    UserDrinksEmpty(drinks, userId);
  }

  /** A drink of another user, wherever it stands in the list, leaves the estimate unchanged. */
  lemma BacIgnoresOtherUsers(before: seq<Drink>, d: Drink, after: seq<Drink>, userId: string,
                             catalog: seq<DrinkType>, weightKg: real, genderConstant: real, now: int)
    requires weightKg * genderConstant > 0.0
    requires d.userId != userId
    ensures BacAt(before + [d] + after, userId, catalog, weightKg, genderConstant, now)
         == BacAt(before + after, userId, catalog, weightKg, genderConstant, now)
  {
    UserDrinksSkipOther(before, d, after, userId);
  }

  /**
   * A drink of a type missing from the catalog adds no alcohol, but its
   * timestamp still takes part in finding the earliest drink.
   */
  lemma UnknownTypeAddsNoAlcohol(drinks: seq<Drink>, d: Drink, userId: string, catalog: seq<DrinkType>, now: int)
    requires d.userId == userId
    requires GetDrinkTypeById(catalog, d.typeId).None?
    ensures TotalAlcohol(CalculateUserDrinks(drinks + [d], userId), catalog)
         == TotalAlcohol(CalculateUserDrinks(drinks, userId), catalog)
    ensures EarliestDrinkTime(CalculateUserDrinks(drinks + [d], userId), now)
         == Min(EarliestDrinkTime(CalculateUserDrinks(drinks, userId), now), d.timestamp)
  {
    var u := CalculateUserDrinks(drinks, userId);
    UserDrinksConcat(drinks, [d], userId);
    assert CalculateUserDrinks([d], userId) == [d];
    assert (u + [d])[..|u + [d]| - 1] == u;
  }

  /** Holding the drinks fixed, a later `now` never gives a higher estimate. */
  lemma BacMonotoneInTime(drinks: seq<Drink>, userId: string, catalog: seq<DrinkType>, weightKg: real,
                          genderConstant: real, now1: int, now2: int)
    requires weightKg * genderConstant > 0.0
    requires now1 <= now2
    ensures BacAt(drinks, userId, catalog, weightKg, genderConstant, now2)
         <= BacAt(drinks, userId, catalog, weightKg, genderConstant, now1)
  {
    var userDrinks := CalculateUserDrinks(drinks, userId);
    HoursSinceFirstDrinkMonotone(userDrinks, now1, now2);
    MetabolismMonotone(RawBac(drinks, userId, catalog, weightKg, genderConstant),
                       HoursSinceFirstDrink(userDrinks, now1), HoursSinceFirstDrink(userDrinks, now2));
  }

  lemma HoursSinceFirstDrinkMonotone(userDrinks: seq<Drink>, now1: int, now2: int)
    requires now1 <= now2
    ensures HoursSinceFirstDrink(userDrinks, now1) <= HoursSinceFirstDrink(userDrinks, now2)
  {
    EarliestDrinkTimeShift(userDrinks, now1, now2);
  }

  lemma MetabolismMonotone(raw: real, h1: real, h2: real)
    requires h1 <= h2
    ensures Max(0.0, raw - h2 * MetabolismRate) <= Max(0.0, raw - h1 * MetabolismRate)
  {
  }

  /**
   * Metabolism only lowers the estimate: it never exceeds the raw Widmark
   * value (clamped at 0), and with a catalog of non-negative volumes and
   * strengths it never exceeds the raw value itself.
   */
  lemma BacAtMostRaw(drinks: seq<Drink>, userId: string, catalog: seq<DrinkType>, weightKg: real,
                     genderConstant: real, now: int)
    requires weightKg * genderConstant > 0.0
    ensures BacAt(drinks, userId, catalog, weightKg, genderConstant, now)
         <= Max(0.0, RawBac(drinks, userId, catalog, weightKg, genderConstant))
    ensures CatalogNonNegative(catalog) ==>
              RawBac(drinks, userId, catalog, weightKg, genderConstant) >= 0.0 &&
              BacAt(drinks, userId, catalog, weightKg, genderConstant, now)
              <= RawBac(drinks, userId, catalog, weightKg, genderConstant)
  {
    var h := HoursSinceFirstDrink(CalculateUserDrinks(drinks, userId), now);
    assert h * MetabolismRate >= 0.0;
    if CatalogNonNegative(catalog) {
      var g := TotalAlcohol(CalculateUserDrinks(drinks, userId), catalog);
      assert g / (weightKg * genderConstant) >= 0.0;
    }
  }

  // ---------------------------------------------------------------------------
  // Risk tiers
  // ---------------------------------------------------------------------------

  datatype BacTier = Sober | Buzzed | Tipsy | Drunk | Danger

  /** What `getBacLevel` returns: the tier and the CSS colour class shown for it. */
  datatype BacLevel = BacLevel(level: BacTier, color: string)

  /** Position of a tier in the order sober < buzzed < tipsy < drunk < danger. */
  function TierRank(t: BacTier): nat {
    match t
    case Sober => 0
    case Buzzed => 1
    case Tipsy => 2
    case Drunk => 3
    case Danger => 4
  }

  /** Inclusive lower bound of a tier (sober has none). */
  function TierLowerBound(t: BacTier): real
    requires t != Sober
  {
    match t
    case Buzzed => 0.02
    case Tipsy => 0.05
    case Drunk => 0.08
    case Danger => 0.15
  }

  /** Exclusive upper bound of a tier (danger has none). */
  function TierUpperBound(t: BacTier): real
    requires t != Danger
  {
    match t
    case Sober => 0.02
    case Buzzed => 0.05
    case Tipsy => 0.08
    case Drunk => 0.15
  }

  predicate InTier(bac: real, t: BacTier) {
    (t != Sober ==> TierLowerBound(t) <= bac) && (t != Danger ==> bac < TierUpperBound(t))
  }

  function TierColor(t: BacTier): string {
    match t
    case Sober => "bg-green-500"
    case Buzzed => "bg-emerald-500"
    case Tipsy => "bg-yellow-500"
    case Drunk => "bg-orange-500"
    case Danger => "bg-red-500"
  }

  /** The tier whose half-open interval holds `bac`, with that tier's colour. */
  function GetBacLevel(bac: real): (r: BacLevel)
    ensures InTier(bac, r.level)
    ensures r.color == TierColor(r.level)
  {
    if bac < 0.02 then BacLevel(Sober, "bg-green-500")
    else if bac < 0.05 then BacLevel(Buzzed, "bg-emerald-500")
    else if bac < 0.08 then BacLevel(Tipsy, "bg-yellow-500")
    else if bac < 0.15 then BacLevel(Drunk, "bg-orange-500")
    else BacLevel(Danger, "bg-red-500")
  }

  /** The tiers' intervals do not overlap, so a BAC in a tier's interval gets that tier. */
  lemma GetBacLevelExact(bac: real, t: BacTier)
    requires InTier(bac, t)
    ensures GetBacLevel(bac).level == t
  {
  }

  /** The tier boundaries, in increasing order. */
  const Breakpoints: seq<real> := [0.02, 0.05, 0.08, 0.15]

  /** How many of `points` lie at or below `bac`. */
  function CountAtOrBelow(points: seq<real>, bac: real): nat {
    if |points| == 0 then 0 else (if points[0] <= bac then 1 else 0) + CountAtOrBelow(points[1..], bac)
  }

  lemma {:induction false} CountAtOrBelowMonotone(points: seq<real>, b1: real, b2: real)
    requires b1 <= b2
    ensures CountAtOrBelow(points, b1) <= CountAtOrBelow(points, b2)
  {
    if |points| > 0 {
      CountAtOrBelowMonotone(points[1..], b1, b2);
    }
  }

  /** A tier's rank is the number of boundaries the BAC has reached. */
  lemma TierRankCountsBreakpoints(bac: real)
    ensures TierRank(GetBacLevel(bac).level) == CountAtOrBelow(Breakpoints, bac)
  {
    var p3: seq<real> := [0.15];
    var p2: seq<real> := [0.08] + p3;
    var p1: seq<real> := [0.05] + p2;
    assert Breakpoints == [0.02] + p1;
    assert p3[1..] == [] && p2[1..] == p3 && p1[1..] == p2 && Breakpoints[1..] == p1;
    assert CountAtOrBelow(p3, bac) == if 0.15 <= bac then 1 else 0;
    assert CountAtOrBelow(p2, bac) == (if 0.08 <= bac then 1 else 0) + CountAtOrBelow(p3, bac);
    assert CountAtOrBelow(p1, bac) == (if 0.05 <= bac then 1 else 0) + CountAtOrBelow(p2, bac);
  }

  /** A higher BAC never gives a lower tier. */
  lemma GetBacLevelMonotone(b1: real, b2: real)
    requires b1 <= b2
    ensures TierRank(GetBacLevel(b1).level) <= TierRank(GetBacLevel(b2).level)
  {
    TierRankCountsBreakpoints(b1);
    TierRankCountsBreakpoints(b2);
    CountAtOrBelowMonotone(Breakpoints, b1, b2);
  }

  // ---------------------------------------------------------------------------
  // Threshold policy
  // ---------------------------------------------------------------------------

  /** BAC units per configured "drink" of a threshold. */
  const BacPerDrink: real := 0.02

  predicate ShouldCallUber(bac: real, threshold: real)
    ensures ShouldCallUber(bac, threshold) <==> bac / BacPerDrink >= threshold
  {
    bac >= threshold * BacPerDrink
  }

  predicate ShouldOrderFood(bac: real, threshold: real)
    ensures ShouldOrderFood(bac, threshold) <==> bac / BacPerDrink >= threshold
  {
    bac >= threshold * BacPerDrink
  }

  predicate ShouldNotify(bac: real, threshold: real)
    ensures ShouldNotify(bac, threshold) <==> bac / BacPerDrink >= threshold
  {
    bac >= threshold * BacPerDrink
  }

  /** The three policies are one rule, a BAC cut-off at 0.02 per threshold drink. */
  lemma ThresholdPoliciesAgree(bac: real, threshold: real)
    ensures ShouldCallUber(bac, threshold) == ShouldOrderFood(bac, threshold) == ShouldNotify(bac, threshold)
    ensures ShouldNotify(bac, threshold) <==> bac / BacPerDrink >= threshold
  {
  }

  /** Once a policy fires it keeps firing as the BAC rises, and fires sooner for a lower threshold. */
  lemma ThresholdPoliciesMonotone(b1: real, b2: real, t1: real, t2: real)
    requires b1 <= b2 && t2 <= t1
    ensures ShouldCallUber(b1, t1) ==> ShouldCallUber(b2, t2)
    ensures ShouldOrderFood(b1, t1) ==> ShouldOrderFood(b2, t2)
    ensures ShouldNotify(b1, t1) ==> ShouldNotify(b2, t2)
  {
  }

  // ---------------------------------------------------------------------------
  // Life impact
  // ---------------------------------------------------------------------------

  /** Years of life lost, by the source's rough rule on a year's total of drinks. */
  function EstimateLifeImpact(totalDrinks: real): (years: real)
    ensures years >= 0.0
    ensures years == 0.0 <==> totalDrinks <= 364.0
    ensures totalDrinks >= 364.0 ==> years == (totalDrinks - 364.0) / 2600.0
  {
    var weeklyAverage := totalDrinks / 52.0;
    if weeklyAverage < 7.0 then 0.0 else (weeklyAverage - 7.0) * 0.02
  }

  lemma EstimateLifeImpactMonotone(t1: real, t2: real)
    requires t1 <= t2
    ensures EstimateLifeImpact(t1) <= EstimateLifeImpact(t2)
  {
  }

  // ---------------------------------------------------------------------------
  // "Time ago" text
  // ---------------------------------------------------------------------------

  datatype TimeUnit = Seconds | Minutes | Hours | Days | Months

  /** The number and unit `getTimeAgo` prints. */
  datatype TimeAgo = TimeAgo(value: int, unit: TimeUnit)

  /** Length of a unit in seconds; a month is taken as 30 days. */
  function UnitSeconds(u: TimeUnit): nat {
    match u
    case Seconds => 1
    case Minutes => 60
    case Hours => 60 * 60
    case Days => 24 * 60 * 60
    case Months => 30 * 24 * 60 * 60
  }

  /**
   * The bucket `getTimeAgo` picks for `elapsedMs` milliseconds: whole seconds
   * below a minute, then minutes below an hour, hours below a day, days below
   * 30 days, and months beyond, each value floored.
   */
  function TimeAgoBucket(elapsedMs: int): (r: TimeAgo)
    ensures var s := elapsedMs / 1000;
      && (r.unit == Seconds <==> s < 60)
      && (r.unit == Minutes <==> 60 <= s < 3600)
      && (r.unit == Hours <==> 3600 <= s < 86400)
      && (r.unit == Days <==> 86400 <= s < 2592000)
      && (r.unit == Months <==> 2592000 <= s)
      && r.value == s / UnitSeconds(r.unit)
    ensures r.unit != Seconds ==> r.value >= 1
  {
    var seconds := elapsedMs / 1000;
    if seconds < 60 then TimeAgo(seconds, Seconds)
    else
      var minutes := seconds / 60;
      if minutes < 60 then TimeAgo(minutes, Minutes)
      else
        var hours := minutes / 60;
        assert hours == seconds / 3600;
        if hours < 24 then TimeAgo(hours, Hours)
        else
          var days := hours / 24;
          assert days == seconds / 86400;
          if days < 30 then TimeAgo(days, Days)
          else
            var months := days / 30;
            assert months == seconds / 2592000;
            TimeAgo(months, Months)
  }

  function SingularWord(u: TimeUnit): string {
    match u
    case Seconds => "second"
    case Minutes => "minute"
    case Hours => "hour"
    case Days => "day"
    case Months => "month"
  }

  /**
   * The word printed after the number: singular exactly for a value of 1
   * outside the seconds bucket, the plural with "s" otherwise.
   */
  function UnitWord(u: TimeUnit, value: int): (w: string)
    ensures w == SingularWord(u) <==> u != Seconds && value == 1
    ensures w != SingularWord(u) ==> w == SingularWord(u) + "s"
  {
    match u
    case Seconds => "seconds"
    case Minutes => if value == 1 then "minute" else "minutes"
    case Hours => if value == 1 then "hour" else "hours"
    case Days => if value == 1 then "day" else "days"
    case Months => if value == 1 then "month" else "months"
  }

  /** `getTimeAgo`: the bucket of `now - timestamp`, printed as "<n> <unit> ago". */
  function GetTimeAgo(timestamp: int, now: int): (text: string)
    ensures var b := TimeAgoBucket(now - timestamp);
      var n := IntToString(b.value);
      && |text| == |n| + 1 + |UnitWord(b.unit, b.value)| + 4
      && ParseInt(text[..|n|]) == b.value
      && DecimalText(text[..|n|])
      && (text[0] == '-' <==> b.value < 0)
      && text[|n|..] == " " + UnitWord(b.unit, b.value) + " ago"
  {
    var b := TimeAgoBucket(now - timestamp);
    var text := IntToString(b.value) + " " + UnitWord(b.unit, b.value) + " ago";
    IntToStringRoundTrip(b.value);
    assert text[..|IntToString(b.value)|] == IntToString(b.value);
    text
  }
}
