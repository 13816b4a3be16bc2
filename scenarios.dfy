/**
 * Worked cases on the shipped catalog: the numbers the BAC engine and the
 * night lifecycle give for small, concrete inputs.
 */
module Scenarios {
  import opened Options
  import opened DrinkUtils
  import opened MockData
  import opened NightManagement

  const Beer: Drink := Drink("d1", "u1", "dt1", 0, None, None)
  const OneHourMs: int := 60 * 60 * 1000

  /**
   * One beer (355 ml at 5%) an hour ago, for the default 70 kg and 0.68:
   * 14.00475 g of ethanol over 47.6, less one hour's 0.015.
   */
  lemma OneBeerOneHourAgo()
    ensures BacAt([Beer], "u1", DrinkTypes, DefaultWeightKg, DefaultGenderConstant, OneHourMs)
            == 14.00475 / 47.6 - 0.015
    ensures 0.279 < BacAt([Beer], "u1", DrinkTypes, DefaultWeightKg, DefaultGenderConstant, OneHourMs) < 0.2793
  {
    assert GetDrinkTypeById(DrinkTypes, "dt1") == Some(DrinkTypes[0]);
    assert AlcoholGrams(DrinkTypes[0]) == 14.00475;
    assert CalculateUserDrinks([Beer], "u1") == [Beer];
    assert [Beer][..0] == [];
    assert TotalAlcohol([Beer], DrinkTypes) == 14.00475;
    assert EarliestDrinkTime([Beer], OneHourMs) == 0;
    assert HoursSinceFirstDrink([Beer], OneHourMs) == 1.0;
  }

  /** The same beer logged by someone else leaves user "u2" sober. */
  lemma SomeoneElsesBeer()
    ensures BacAt([Beer], "u2", DrinkTypes, DefaultWeightKg, DefaultGenderConstant, OneHourMs) == 0.0
  {
    assert CalculateUserDrinks([Beer], "u2") == [];
  }

  /** A drink of a type the catalog does not list adds nothing. */
  lemma UnknownTypeIsSober()
    ensures BacAt([Beer.(typeId := "dt9")], "u1", DrinkTypes, DefaultWeightKg, DefaultGenderConstant, 0) == 0.0
  {
    var d := Beer.(typeId := "dt9");
    assert CalculateUserDrinks([d], "u1") == [d];
    assert forall k :: 0 <= k < |DrinkTypes| ==> DrinkTypes[k].id[2] != '9';
    assert GetDrinkTypeById(DrinkTypes, "dt9").None?;
    assert DrinkGrams(DrinkTypes, d) == 0.0;
    assert [d][..0] == [];
    assert TotalAlcohol([d], DrinkTypes) == 0.0;
    assert RawBac([d], "u1", DrinkTypes, DefaultWeightKg, DefaultGenderConstant) == 0.0;
  }

  /** The tier boundaries fall on the lower bound of the higher tier. */
  lemma TierBoundaries()
    ensures GetBacLevel(0.0).level == Sober
    ensures GetBacLevel(0.019).level == Sober
    ensures GetBacLevel(0.02).level == Buzzed
    ensures GetBacLevel(0.08).level == Drunk
    ensures GetBacLevel(0.15).level == Danger
  {
  }

  /** A notification threshold of 5 drinks fires from a BAC of 0.10 on. */
  lemma NotifyAtFiveDrinks(bac: real)
    ensures ShouldNotify(bac, 5.0) <==> bac >= 0.10
  {
  }

  /** Seven drinks a week is the free allowance; ten a week costs 0.06 years. */
  lemma LifeImpactCases()
    ensures EstimateLifeImpact(0.0) == 0.0
    ensures EstimateLifeImpact(364.0) == 0.0
    ensures EstimateLifeImpact(520.0) == 0.06
  {
  }

  /** Ninety seconds ago reads as one minute; two days and an hour as two days. */
  lemma TimeAgoCases()
    ensures TimeAgoBucket(90 * 1000) == TimeAgo(1, Minutes)
    ensures TimeAgoBucket((2 * 24 + 1) * OneHourMs) == TimeAgo(2, Days)
    ensures TimeAgoBucket(999) == TimeAgo(0, Seconds)
  {
  }

  const Crew: NightManagement.Group := NightManagement.Group("g1", "Crew", ["u1", "u2"], 0, "u1")

  /** The first night starts at time 0, every reading the same. */
  const FirstClock: StartClock := StartClock(0, 0, 0, 0)

  /**
   * The second starts an hour later; the id is read a millisecond before the
   * start, and the first night is ended a millisecond after it.
   */
  const SecondClock: StartClock := StartClock(OneHourMs + 1, OneHourMs - 1, OneHourMs, OneHourMs)

  /**
   * Starting a second night an hour after the first ends the first with the
   * end reading, makes the new night the active one and leaves the first as
   * the only past night.
   */
  lemma TwoNightsInARow()
    ensures var first := StartNightIn([], "g1", Crew, None, FirstClock);
      var both := StartNightIn(first, "g1", Crew, None, SecondClock);
      && |both| == 2
      && FirstActive(both) == Some(NewNight("g1", Crew, None, SecondClock))
      && both[1] == NewNight("g1", Crew, None, FirstClock).(isActive := false, endTime := Some(OneHourMs + 1))
      && PastNightsOf(both) == [both[1]]
  {
    var first := StartNightIn([], "g1", Crew, None, FirstClock);
    StartNightOnlyNewActive([], "g1", Crew, None, FirstClock);
    StartNightOnlyNewActive(first, "g1", Crew, None, SecondClock);
    var both := StartNightIn(first, "g1", Crew, None, SecondClock);
    assert InactiveNights(both) == [both[1]] by {
      assert both[1..] == [both[1]];
      assert InactiveNights(both[1..][1..]) == [];
    }
  }

  /**
   * Although the second id is read a millisecond before its night starts, the
   * two ids stay distinct and each comes from a reading no later than its start.
   */
  lemma TwoNightsKeepIdsApart()
    ensures var first := StartNightIn([], "g1", Crew, None, FirstClock);
      var both := StartNightIn(first, "g1", Crew, None, SecondClock);
      DistinctIds(both) && IdsFromStartTimes(both)
  {
    var first := StartNightIn([], "g1", Crew, None, FirstClock);
    StartNightFreshId([], "g1", Crew, None, FirstClock);
    StartNightFreshId(first, "g1", Crew, None, SecondClock);
    StartNightKeepsIdsDistinct(first, "g1", Crew, None, SecondClock);
  }
}
