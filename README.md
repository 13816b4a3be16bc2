# Swamped: BAC engine and night lifecycle

This project is a Dafny model of the two core pieces of Swamped, a web app
for tracking drinks on a night out with a group. It has two parts:

- **The BAC engine** (`src/utils/drinkUtils.ts`), modelled in `drink_utils.dfy`:
  - it looks drink types up in the catalog;
  - it counts drinks, per type and in total, and filters them by user;
  - it estimates a user's blood-alcohol concentration with the Widmark
    formula, less a linear metabolism since the user's first drink;
  - it maps a BAC to a tier and a colour;
  - it applies the three threshold policies (ride, food, notification);
  - it estimates years of life lost from a year's total of drinks;
  - it renders a "time ago" text.
- **The night lifecycle** (`src/hooks/useNightManagement.ts`), modelled in
  `night_management.dfy`. It holds a list of nights, derives the active
  night and the past nights (inactive, newest first), and starts, ends and
  selects nights.

Supporting files:
- `options.dfy`: an `Option` type.
- `number_text.dfy`: integers printed in decimal and parsed back, used for
  the "time ago" text and for night ids.
- `mock_data.dfy`: the catalog the app ships with (`src/data/mockData.ts`).
- `scenarios.dfy`: worked cases on that catalog.

Modelling choices:
- **The clock.** Every clock reading (`new Date()`, `Date.now()`) is a parameter, and
  timestamps are integer milliseconds since the epoch.
  - `calculateBAC` and `getTimeAgo` read the clock once; it is their parameter `now`.
  - `startNight` reads it several times, and `NightManagement.StartClock` keeps
    the readings apart: the ended night's end time (taken inside `endNight`'s
    updater), the new id's `Date.now()`, the date and the start time.
  - A night's `date` (an ISO day string in the hook) is the UTC day number of
    its reading, `dateAt / 86400000`.
- **Default body.** `calculateBAC`'s default arguments, 70 kg and 0.68, are
  `DefaultWeightKg` and `DefaultGenderConstant`. `DrinkUtils.CalculateBacWithDefaults`
  is the call that omits them, as every caller in the app does.
- **The catalog.** The catalog the engine imports is an explicit `catalog` parameter, and
  `MockData.DrinkTypes` is the catalog the app passes.
- **Numbers.** Floating-point numbers are modelled as exact reals.
- **BAC computation.** `DrinkUtils.CalculateBac` keeps the source's two passes over the
  user's drinks as loops. It is proved equal to the specification function
  `DrinkUtils.BacAt`, and BAC's properties are proved about `BacAt`.
- **Per-type counting.** `DrinkUtils.CalculateDrinkCountByType` keeps the source's loop over
  a mutable dictionary. It has three guarantees:
  - its keys are exactly the types that occur;
  - each count is the number of drinks of that type;
  - the counts add up to `calculateTotalDrinks`, the length of the list.
- **Night state.** The hook's `allNights` state is the field of
  `NightManagement.NightManager`. Each of its three methods sets the field
  to a function of the old list. The class invariant `Valid()` has three parts:
  - ids are distinct;
  - each id is made from a clock reading no later than its night's start time;
  - at most one night is active.

  `SetActiveNight` and `EndNight` always preserve the invariant. `StartNight`
  preserves it under two extra conditions: the id is read after every existing
  night's start, and no later than the new night's own start.

## Model

| member | source | states |
|---|---|---|
| `DrinkUtils.CalculateTotalDrinks` | src/utils/drinkUtils.ts:14-16 | no type occurs more often than the total, and the total is 0 exactly when no type occurs |
| `DrinkUtils.GetDrinkTypeById` | src/utils/drinkUtils.ts:10-12 | no result exactly when no catalog entry has the id; otherwise the first entry with that id |
| `DrinkUtils.CountOfTypePositive` | src/utils/drinkUtils.ts:18-29 | a type's count is positive exactly when the type occurs among the drinks |
| `DrinkUtils.CalculateDrinkCountByType` | src/utils/drinkUtils.ts:18-29 | the keys are exactly the occurring type ids, each count is that type's number of drinks, and the counts sum to the total number of drinks |
| `DrinkUtils.SingleTypeCount` | src/utils/drinkUtils.ts:18-29 | drinks all of one type give a single key whose count is the list length |
| `DrinkUtils.CalculateUserDrinks` | src/utils/drinkUtils.ts:31-33 | every kept drink belongs to the user; never longer than the input |
| `DrinkUtils.UserDrinksExactly` | src/utils/drinkUtils.ts:31-33 | each drink of the user is kept exactly as often as it occurs; no other drink is kept |
| `DrinkUtils.UserDrinksConcat` | src/utils/drinkUtils.ts:31-33 | filtering a concatenation is concatenating the filtered parts (order is kept) |
| `DrinkUtils.AlcoholGrams` | src/utils/drinkUtils.ts:47 | grams of ethanol in a drink type are non-negative for non-negative volume and strength |
| `DrinkUtils.DrinkGrams` | src/utils/drinkUtils.ts:45-49 | a drink whose type is not in the catalog contributes 0 grams; over a non-negative catalog no drink contributes negative grams |
| `DrinkUtils.TotalAlcohol` | src/utils/drinkUtils.ts:44-50 | total grams are non-negative over a catalog of non-negative entries |
| `DrinkUtils.TotalAlcoholConcat` | src/utils/drinkUtils.ts:44-50 | total grams are additive over concatenation |
| `DrinkUtils.EarliestDrinkTime` | src/utils/drinkUtils.ts:57-60 | the reduce result is at most the seed and every timestamp, and is the seed or one of the timestamps |
| `DrinkUtils.ReduceEarliest` | src/utils/drinkUtils.ts:57-60 | the loop computes exactly the earliest timestamp seeded with `now` |
| `DrinkUtils.HoursSinceFirstDrink` | src/utils/drinkUtils.ts:62 | elapsed hours since the first drink are never negative |
| `DrinkUtils.RawBac` | src/utils/drinkUtils.ts:53 | the Widmark estimate before metabolism is non-negative over a catalog of non-negative entries |
| `DrinkUtils.BacAt` | src/utils/drinkUtils.ts:53-65 | the estimate is never negative |
| `DrinkUtils.CalculateBac` | src/utils/drinkUtils.ts:35-66 | the two-pass computation returns exactly `BacAt`: raw Widmark estimate less 0.015 per hour since the first drink, floored at 0 |
| `DrinkUtils.CalculateBacWithDefaults` | src/utils/drinkUtils.ts:35-40 | with the default 70 kg and 0.68, the result is `BacAt` for the default body |
| `DrinkUtils.BacNoDrinksIsZero` | src/utils/drinkUtils.ts:41-65 | a user without drinks has BAC 0 |
| `DrinkUtils.BacIgnoresOtherUsers` | src/utils/drinkUtils.ts:41 | inserting another user's drink anywhere leaves the BAC unchanged |
| `DrinkUtils.UnknownTypeAddsNoAlcohol` | src/utils/drinkUtils.ts:45-49 | a drink whose type is not in the catalog adds no grams, though its timestamp still moves the first-drink time |
| `DrinkUtils.BacMonotoneInTime` | src/utils/drinkUtils.ts:56-65 | for the same drinks, a later `now` never gives a higher BAC |
| `DrinkUtils.BacAtMostRaw` | src/utils/drinkUtils.ts:53-65 | metabolism never raises the estimate above the raw Widmark value |
| `DrinkUtils.GetBacLevel` | src/utils/drinkUtils.ts:68-83 | the tier returned is the one whose half-open range holds the BAC, with that tier's colour |
| `DrinkUtils.GetBacLevelExact` | src/utils/drinkUtils.ts:68-83 | a BAC lies in a tier's range exactly when that tier is returned |
| `DrinkUtils.TierRankCountsBreakpoints` | src/utils/drinkUtils.ts:72-81 | the tier's rank is the number of breakpoints 0.02, 0.05, 0.08, 0.15 at or below the BAC |
| `DrinkUtils.GetBacLevelMonotone` | src/utils/drinkUtils.ts:68-83 | a higher BAC never gives a lower tier |
| `DrinkUtils.ShouldCallUber` | src/utils/drinkUtils.ts:115-118 | a ride is suggested exactly when BAC / 0.02 reaches the threshold |
| `DrinkUtils.ShouldOrderFood` | src/utils/drinkUtils.ts:120-122 | food is suggested exactly when BAC / 0.02 reaches the threshold |
| `DrinkUtils.ShouldNotify` | src/utils/drinkUtils.ts:124-126 | a notification fires exactly when BAC / 0.02 reaches the threshold |
| `DrinkUtils.ThresholdPoliciesAgree` | src/utils/drinkUtils.ts:115-126 | the ride, food and notification policies are one rule: fire when BAC / 0.02 reaches the threshold |
| `DrinkUtils.ThresholdPoliciesMonotone` | src/utils/drinkUtils.ts:115-126 | a policy that fires keeps firing for a higher BAC or a lower threshold |
| `DrinkUtils.EstimateLifeImpact` | src/utils/drinkUtils.ts:128-134 | the impact is never negative, is zero exactly up to 364 drinks a year, and beyond is (total − 364) / 2600 years |
| `DrinkUtils.EstimateLifeImpactMonotone` | src/utils/drinkUtils.ts:128-134 | more drinks never give a smaller impact |
| `DrinkUtils.TimeAgoBucket` | src/utils/drinkUtils.ts:95-111 | each unit is chosen exactly on its range of whole elapsed seconds, the value is the elapsed seconds floored by that unit's length, and every unit above seconds shows at least 1 |
| `DrinkUtils.UnitWord` | src/utils/drinkUtils.ts:100-112 | the unit word is singular exactly for a value of 1 in minutes, hours, days or months; "seconds" is always plural |
| `DrinkUtils.GetTimeAgo` | src/utils/drinkUtils.ts:95-113 | the text is the decimal value (an optional '-', then digits without leading zeros, reading back as the bucket value, with '-' exactly for a negative value), then a space, the unit word and " ago" |
| `NumberText.IntToString` | src/utils/drinkUtils.ts:100-112 | a printed integer is an optional '-' then digits without leading zeros, with '-' exactly for a negative integer |
| `NumberText.IntToStringRoundTrip` | src/utils/drinkUtils.ts:100-112 | a printed integer parses back to itself |
| `NightManagement.FirstActive` | src/hooks/useNightManagement.ts:8 | no night is found exactly when none is active; otherwise the first active night in list order |
| `NightManagement.FirstActiveUnique` | src/hooks/useNightManagement.ts:8 | with at most one active night, the active night is that night |
| `NightManagement.InactiveNights` | src/hooks/useNightManagement.ts:11 | only inactive nights are kept; never longer than the list |
| `NightManagement.InactiveNightsExactly` | src/hooks/useNightManagement.ts:11 | each inactive night is kept exactly as often as it occurs; no active night is kept |
| `NightManagement.InsertByStart` | src/hooks/useNightManagement.ts:12 | the insertion adds exactly the one night |
| `NightManagement.InsertByStartSorted` | src/hooks/useNightManagement.ts:12 | inserting into a newest-first list keeps it newest first |
| `NightManagement.SortByStartDesc` | src/hooks/useNightManagement.ts:12 | the result is a permutation of the input, newest start first |
| `NightManagement.PastNightsOf` | src/hooks/useNightManagement.ts:10-12 | past nights are exactly the inactive nights, with multiplicity, newest first |
| `NightManagement.EndNightIn` | src/hooks/useNightManagement.ts:47-55 | nights with the id become inactive with end time `now`; every other field and every other night is unchanged |
| `NightManagement.EndNightPreserves` | src/hooks/useNightManagement.ts:47-55 | ending keeps ids distinct, ids made from readings no later than their starts, and at most one night active; the ended night is inactive |
| `NightManagement.SetActiveIn` | src/hooks/useNightManagement.ts:14-20 | exactly the nights with the given night's id become active (none for no night); nothing else changes |
| `NightManagement.SetActivePreserves` | src/hooks/useNightManagement.ts:14-20 | with distinct ids, at most one night is active afterwards; selecting no night leaves no active night |
| `NightManagement.SetActiveSelects` | src/hooks/useNightManagement.ts:14-20 | with distinct ids, the selected night (if listed) becomes the active night |
| `NightManagement.NightIdAt` | src/hooks/useNightManagement.ts:34 | a night id is "n" followed by at least one character |
| `NightManagement.NightIdTimeRoundTrip` | src/hooks/useNightManagement.ts:34 | the clock reading can be read back from the id made from it |
| `NightManagement.NightIdAtInjective` | src/hooks/useNightManagement.ts:34 | ids made from different clock readings are different |
| `NightManagement.NewNight` | src/hooks/useNightManagement.ts:27-42 | the new night is active, has no drinks or end time, takes its id, date and start time from their own readings (the date is the UTC day of its reading), and has the given settings or the defaults 4/3/5 |
| `NightManagement.StartNightIn` | src/hooks/useNightManagement.ts:22-45 | the new night comes first; every older night keeps its place, and exactly those sharing the previously active night's id are ended with the end reading |
| `NightManagement.StartNightOnlyNewActive` | src/hooks/useNightManagement.ts:22-45 | with at most one active night before, the new night comes first and is the only active one; the previously active night is ended with the end reading; the rest keep their order and ids |
| `NightManagement.StartNightKeepsIdsDistinct` | src/hooks/useNightManagement.ts:22-45 | a fresh id keeps all ids distinct |
| `NightManagement.StartNightFreshId` | src/hooks/useNightManagement.ts:33-44 | if ids come from readings no later than their starts and every night started before the id reading, the new id is fresh; if that reading is also no later than the new start, the invariant on ids holds afterwards |
| `NightManagement.NightManager.constructor` | src/hooks/useNightManagement.ts:6 | the hook starts with no nights, which satisfies the invariant |
| `NightManagement.NightManager.ActiveNight` | src/hooks/useNightManagement.ts:8 | no active night exactly when no night in the state is active; otherwise an active night of the state |
| `NightManagement.NightManager.PastNights` | src/hooks/useNightManagement.ts:10-12 | exactly the inactive nights of the state, with multiplicity, newest first |
| `NightManagement.NightManager.SetActiveNight` | src/hooks/useNightManagement.ts:14-20 | the new list is the selection of the old; the invariant is kept; with no night, no night is active |
| `NightManagement.NightManager.EndNight` | src/hooks/useNightManagement.ts:47-55 | the new list is the old one with the night ended; the invariant is kept |
| `NightManagement.NightManager.StartNight` | src/hooks/useNightManagement.ts:22-45 | the new list is the old one with its active night ended and the new night prepended; the new night is the active night; the invariant is kept when the id is read after every existing start and no later than the new start |
| `MockData.CatalogWellFormed` | src/data/mockData.ts:49-98 | the shipped catalog has distinct ids and no negative volume or strength |
| `MockData.CatalogLookupFindsEntry` | src/data/mockData.ts:49-98 | looking up any shipped entry's id finds that entry |
| `Scenarios.OneBeerOneHourAgo` | src/utils/drinkUtils.ts:35-66 | one 355 ml, 5% beer an hour ago gives 14.00475 / 47.6 − 0.015 (about 0.2792) for the default body |
| `Scenarios.SomeoneElsesBeer` | src/utils/drinkUtils.ts:41 | a beer logged by another user leaves this user at BAC 0 |
| `Scenarios.UnknownTypeIsSober` | src/utils/drinkUtils.ts:45-49 | a drink of an unlisted type yields BAC 0 |
| `Scenarios.TierBoundaries` | src/utils/drinkUtils.ts:72-81 | each breakpoint belongs to the higher tier |
| `Scenarios.NotifyAtFiveDrinks` | src/utils/drinkUtils.ts:124-126 | the default notification threshold of 5 drinks fires exactly from a BAC of 0.10 |
| `Scenarios.LifeImpactCases` | src/utils/drinkUtils.ts:131-133 | 0 and 364 drinks a year cost nothing; 520 cost 0.06 years |
| `Scenarios.TimeAgoCases` | src/utils/drinkUtils.ts:98-111 | 90 s is 1 minute, 49 h is 2 days, 999 ms is 0 seconds |
| `Scenarios.TwoNightsInARow` | src/hooks/useNightManagement.ts:22-55 | a second night started an hour later ends the first with the end reading; the first becomes the only past night |
| `Scenarios.TwoNightsKeepIdsApart` | src/hooks/useNightManagement.ts:33-38 | with the id read a millisecond before the start, the two nights still have distinct ids, each from a reading no later than its start |

## Left out

- `formatTime` and `formatDate` (src/utils/drinkUtils.ts:85-93) are not modelled. They are locale-dependent formatting by the JavaScript runtime.
- Timestamps are integer milliseconds, not ISO-8601 strings. Parsing and printing dates would add nothing to the logic: the hook sorts by parsed time, which the model compares directly.
- A night's `date` is the UTC day number, not its "YYYY-MM-DD" text.
- Floating point is not modelled: all BAC arithmetic is exact real arithmetic, and NaN and infinities do not arise.
- `DrinkUtils.CalculateBac` requires a positive weight × gender constant. Every caller in the app passes the defaults, whose product is 47.6. The source behaves as follows outside that range:
  - for a product of zero, it divides by zero: it returns Infinity when the user has alcohol, and NaN when the total is 0, which reals cannot express;
  - for a negative product over a catalog without negative entries (the shipped one), the raw estimate is at most 0, so it returns 0.
- `DrinkUtils.CalculateDrinkCountByType` does not model JavaScript's object-key quirks:
  - a type id such as `__proto__` or `constructor` would hit the object's prototype;
  - keys are plain strings in a map.
- `NightManagement.NightManager.StartNight` ends the night that is active in the current list. The hook instead ends the `activeNight` computed at the last render (src/hooks/useNightManagement.ts:8, :23-24). The two agree when `startNight` runs on a rendered state with no update queued since that render. When updates are queued in the same handler, the hook can differ:
  - `setActiveNight(x)` followed by `startNight(...)` ends the previously active night and leaves both `x` and the new night active;
  - two `startNight` calls before a re-render leave both new nights active;
  - if both calls fall in the same millisecond, the two nights also get the same `n${Date.now()}` id, which is why `StartNight` keeps `Valid()` only when the id is read after every existing start.
- `NightManagement.SortByStartDesc`, `NightManagement.PastNightsOf` and `NightManagement.NightManager.PastNights` prove sorted order and permutation. They do not prove that ties keep their input order, although the insertion places a night ahead of equal start times, as a stable sort does.
- A night's optional `name` and `mainLocation` fields (src/types/models.ts:53-58) are not modelled: nothing in the core reads them.
- A group's members are reduced to their user ids.
- User records are not modelled; the engine uses only a user's id.
- Everything outside the two core files is not part of this model, apart from the catalog and the types. That includes mock users and night generation, Supabase storage, real-time hooks, geolocation and the pages and components.
