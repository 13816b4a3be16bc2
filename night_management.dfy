/**
 * The night lifecycle of src/hooks/useNightManagement.ts: a list of nights,
 * the derived "active night" and "past nights" views, and the three updates
 * that start, end and select nights.
 *
 * The clock is a parameter. `startNight` reads it several times (for the
 * ended night's end time, the new id, the date and the start time), and each
 * reading is a parameter of its own. A new night's id is "n" followed by the
 * id reading in decimal, as the hook builds it. Times are milliseconds since
 * the epoch; a night's `date` is its UTC day number (milliseconds since the
 * epoch divided by a day).
 */
module NightManagement {
  import opened Options
  import opened DrinkUtils
  import opened NumberText

  // ---------------------------------------------------------------------------
  // Data model (src/types/models.ts)
  // ---------------------------------------------------------------------------

  /** A group; its members are given by their user ids. */
  datatype Group = Group(id: string, name: string, memberIds: seq<string>, createdAt: int, createdBy: string)

  /** Per-night thresholds, in "drinks", for the three suggestions. */
  datatype NightSettings = NightSettings(uberThreshold: real, foodThreshold: real, notificationThreshold: real)

  datatype Night = Night(
    id: string,
    groupId: string,
    group: Group,
    date: int,
    startTime: int,
    endTime: Option<int>,
    drinks: seq<Drink>,
    isActive: bool,
    settings: Option<NightSettings>)

  const DefaultSettings: NightSettings := NightSettings(4.0, 3.0, 5.0)
  const MsPerDay: int := 24 * 60 * 60 * 1000

  predicate AtMostOneActive(nights: seq<Night>) {
    forall i, j :: 0 <= i < j < |nights| && nights[i].isActive ==> !nights[j].isActive
  }

  predicate DistinctIds(nights: seq<Night>) {
    forall i, j :: 0 <= i < j < |nights| ==> nights[i].id != nights[j].id
  }

  /**
   * Every night carries an id `startNight` derives from a clock reading taken
   * no later than the night's start time.
   */
  predicate IdsFromStartTimes(nights: seq<Night>) {
    forall k :: 0 <= k < |nights| ==>
      nights[k].id == NightIdAt(NightIdTime(nights[k].id)) && NightIdTime(nights[k].id) <= nights[k].startTime
  }

  /** Every night started strictly before `now`. */
  predicate StartedBefore(nights: seq<Night>, now: int) {
    forall k :: 0 <= k < |nights| ==> nights[k].startTime < now
  }

  // ---------------------------------------------------------------------------
  // Derived views
  // ---------------------------------------------------------------------------

  /** The active night: the first night in list order that is active, or None when no night is. */
  function FirstActive(nights: seq<Night>): (r: Option<Night>)
    ensures r.None? <==> forall k :: 0 <= k < |nights| ==> !nights[k].isActive
    ensures r.Some? ==> (r.value.isActive &&
                         exists k :: 0 <= k < |nights| && nights[k] == r.value &&
                                     forall j :: 0 <= j < k ==> !nights[j].isActive)
  {
    if |nights| == 0 then None
    else if nights[0].isActive then Some(nights[0])
    else
      var r := FirstActive(nights[1..]);
      assert r.Some? ==> (exists k :: 0 <= k < |nights| && nights[k] == r.value &&
                                      forall j :: 0 <= j < k ==> !nights[j].isActive) by {
        if r.Some? {
          var k :| 0 <= k < |nights[1..]| && nights[1..][k] == r.value &&
            forall j :: 0 <= j < k ==> !nights[1..][j].isActive;
          assert nights[k + 1] == r.value;
          forall j | 0 <= j < k + 1 ensures !nights[j].isActive {
            if j > 0 { assert nights[j] == nights[1..][j - 1]; }
          }
        }
      }
      r
  }

  /** When at most one night is active, the active night is the only one that can be found. */
  lemma FirstActiveUnique(nights: seq<Night>, k: int)
    requires AtMostOneActive(nights)
    requires 0 <= k < |nights| && nights[k].isActive
    ensures FirstActive(nights) == Some(nights[k])
  {
    var r := FirstActive(nights);
    var m :| 0 <= m < |nights| && nights[m] == r.value && forall j :: 0 <= j < m ==> !nights[j].isActive;
    assert m == k;
  }

  /** The inactive nights, in list order. */
  function InactiveNights(nights: seq<Night>): (r: seq<Night>)
    ensures |r| <= |nights|
    ensures forall i :: 0 <= i < |r| ==> !r[i].isActive
  {
    if |nights| == 0 then []
    else (if nights[0].isActive then [] else [nights[0]]) + InactiveNights(nights[1..])
  }

  lemma {:induction false} InactiveNightsExactly(nights: seq<Night>)
    ensures forall n :: multiset(InactiveNights(nights))[n] == if n.isActive then 0 else multiset(nights)[n]
  {
    if |nights| > 0 {
      assert nights == [nights[0]] + nights[1..];
      InactiveNightsExactly(nights[1..]);
    }
  }

  /** Newest first: start times never increase along the list. */
  predicate SortedByStartDesc(nights: seq<Night>) {
    forall i, j :: 0 <= i < j < |nights| ==> nights[i].startTime >= nights[j].startTime
  }

  /** Puts `n` into a newest-first list, ahead of every night that started no later. */
  function InsertByStart(n: Night, sorted: seq<Night>): (r: seq<Night>)
    ensures |r| == |sorted| + 1
    ensures multiset(r) == multiset(sorted) + multiset{n}
  {
    if |sorted| == 0 then [n]
    else if sorted[0].startTime <= n.startTime then [n] + sorted
    else
      assert sorted == [sorted[0]] + sorted[1..];
      [sorted[0]] + InsertByStart(n, sorted[1..])
  }

  /** A bound on the start times of the list and of the inserted night also bounds the start times after the insert. */
  lemma {:induction false} InsertByStartBounded(n: Night, sorted: seq<Night>, bound: int)
    requires n.startTime <= bound
    requires forall i :: 0 <= i < |sorted| ==> sorted[i].startTime <= bound
    ensures forall i :: 0 <= i < |InsertByStart(n, sorted)| ==> InsertByStart(n, sorted)[i].startTime <= bound
  {
    if |sorted| > 0 && sorted[0].startTime > n.startTime {
      InsertByStartBounded(n, sorted[1..], bound);
    }
  }

  /** Inserting into a newest-first list keeps it newest first. */
  lemma {:induction false} InsertByStartSorted(n: Night, sorted: seq<Night>)
    requires SortedByStartDesc(sorted)
    ensures SortedByStartDesc(InsertByStart(n, sorted))
  {
    if |sorted| > 0 && sorted[0].startTime > n.startTime {
      var rest := sorted[1..];
      InsertByStartSorted(n, rest);
      InsertByStartBounded(n, rest, sorted[0].startTime);
    }
  }

  /** Sorts by start time, newest first (an insertion sort; it keeps ties in input order). */
  function SortByStartDesc(nights: seq<Night>): (r: seq<Night>)
    ensures |r| == |nights|
    ensures SortedByStartDesc(r)
    ensures multiset(r) == multiset(nights)
  {
    if |nights| == 0 then []
    else
      assert nights == [nights[0]] + nights[1..];
      var rest := SortByStartDesc(nights[1..]);
      InsertByStartSorted(nights[0], rest);
      InsertByStart(nights[0], rest)
  }

  /** `pastNights`: exactly the inactive nights, each as often as it occurs, newest first. */
  function PastNightsOf(nights: seq<Night>): (r: seq<Night>)
    ensures SortedByStartDesc(r)
    ensures forall n :: multiset(r)[n] == if n.isActive then 0 else multiset(nights)[n]
    ensures |r| <= |nights|
  {
    InactiveNightsExactly(nights);
    SortByStartDesc(InactiveNights(nights))
  }

  // ---------------------------------------------------------------------------
  // Updates, on the list value
  // ---------------------------------------------------------------------------

  /** `endNight`: every night with the id becomes inactive and gets the end time; the rest are untouched. */
  function EndNightIn(nights: seq<Night>, nightId: string, now: int): (r: seq<Night>)
    ensures |r| == |nights|
    ensures forall k :: 0 <= k < |r| ==>
      && r[k].id == nights[k].id
      && r[k].isActive == (nights[k].isActive && nights[k].id != nightId)
      && (nights[k].id == nightId ==> r[k].endTime == Some(now))
      && r[k].(isActive := nights[k].isActive, endTime := nights[k].endTime) == nights[k]
      && (nights[k].id != nightId ==> r[k] == nights[k])
  {
    seq(|nights|, k requires 0 <= k < |nights| =>
      if nights[k].id == nightId then nights[k].(isActive := false, endTime := Some(now)) else nights[k])
  }

  /**
   * `setActiveNight`: exactly the nights whose id is the given night's id
   * become active; with no night, every night becomes inactive.
   */
  function SetActiveIn(nights: seq<Night>, night: Option<Night>): (r: seq<Night>)
    ensures |r| == |nights|
    ensures forall k :: 0 <= k < |r| ==>
      && r[k].isActive == (night.Some? && nights[k].id == night.value.id)
      && r[k].(isActive := nights[k].isActive) == nights[k]
  {
    seq(|nights|, k requires 0 <= k < |nights| =>
      nights[k].(isActive := night.Some? && nights[k].id == night.value.id))
  }

  /** The id `startNight` gives a night when `Date.now()` reads `now`: "n" and the reading. */
  function NightIdAt(now: int): (id: string)
    ensures |id| >= 2 && id[0] == 'n'
  {
    "n" + IntToString(now)
  }

  /** The clock reading an id was made from (the text after the "n", read back). */
  function NightIdTime(id: string): int {
    if |id| > 0 then ParseInt(id[1..]) else 0
  }

  /** An id made from a clock reading gives that reading back. */
  lemma NightIdTimeRoundTrip(now: int)
    ensures NightIdTime(NightIdAt(now)) == now
  {
    assert NightIdAt(now)[1..] == IntToString(now);
    IntToStringRoundTrip(now);
  }

  /** Ids made from different clock readings are different. */
  lemma NightIdAtInjective(a: int, b: int)
    requires NightIdAt(a) == NightIdAt(b)
    ensures a == b
  {
    NightIdTimeRoundTrip(a);
    NightIdTimeRoundTrip(b);
  }

  /**
   * The clock readings of one `startNight` call: the end time the ended night
   * gets, and the readings behind the new night's id, date and start time.
   */
  datatype StartClock = StartClock(endAt: int, idAt: int, dateAt: int, startAt: int)

  /**
   * The night `startNight` creates: active, with no drinks, starting at the
   * start reading, dated the UTC day of the date reading.
   */
  function NewNight(groupId: string, group: Group, settings: Option<NightSettings>, clock: StartClock): (n: Night)
    ensures n.isActive && n.drinks == [] && n.endTime.None?
    ensures n.id == NightIdAt(clock.idAt) && n.groupId == groupId && n.group == group
    ensures n.startTime == clock.startAt
    ensures n.date * MsPerDay <= clock.dateAt < (n.date + 1) * MsPerDay
    ensures n.settings == Some(if settings.Some? then settings.value else DefaultSettings)
  {
    Night(NightIdAt(clock.idAt), groupId, group, clock.dateAt / MsPerDay, clock.startAt, None, [], true,
          Some(settings.GetOr(DefaultSettings)))
  }

  /**
   * `startNight`: end the active night, if any, then put the new night first.
   * Every older night keeps its place; only those sharing the active night's
   * id are ended.
   */
  function StartNightIn(nights: seq<Night>, groupId: string, group: Group,
                        settings: Option<NightSettings>, clock: StartClock): (r: seq<Night>)
    ensures |r| == |nights| + 1
    ensures r[0] == NewNight(groupId, group, settings, clock)
    ensures forall k :: 0 < k < |r| ==>
      r[k] == if FirstActive(nights).Some? && nights[k - 1].id == FirstActive(nights).value.id
              then nights[k - 1].(isActive := false, endTime := Some(clock.endAt))
              else nights[k - 1]
  {
    var ended := match FirstActive(nights)
      case None => nights
      case Some(active) => EndNightIn(nights, active.id, clock.endAt);
    [NewNight(groupId, group, settings, clock)] + ended
  }

  /**
   * After `startNight`, if at most one night was active before, the new night
   * is the only active one and it is the active night; the older nights keep
   * their order and ids, and only the previously active one changes.
   */
  lemma StartNightOnlyNewActive(nights: seq<Night>, groupId: string, group: Group,
                                settings: Option<NightSettings>, clock: StartClock)
    requires AtMostOneActive(nights)
    ensures var r := StartNightIn(nights, groupId, group, settings, clock);
      && (forall k :: 0 < k < |r| ==> !r[k].isActive && r[k].id == nights[k - 1].id)
      && (forall k :: 0 < k < |r| && nights[k - 1].isActive ==>
            r[k] == nights[k - 1].(isActive := false, endTime := Some(clock.endAt)))
      && AtMostOneActive(r)
      && FirstActive(r) == Some(NewNight(groupId, group, settings, clock))
  {
    var r := StartNightIn(nights, groupId, group, settings, clock);
    var first := FirstActive(nights);
    if first.Some? {
      var m :| 0 <= m < |nights| && nights[m] == first.value && forall j :: 0 <= j < m ==> !nights[j].isActive;
      forall k | 0 <= k < |nights| && k != m ensures !nights[k].isActive {
        if k > m { assert nights[m].isActive; }
      }
    }
  }

  /** Ending a night keeps the ids, and never activates a night. */
  lemma EndNightPreserves(nights: seq<Night>, nightId: string, now: int)
    ensures AtMostOneActive(nights) ==> AtMostOneActive(EndNightIn(nights, nightId, now))
    ensures DistinctIds(nights) ==> DistinctIds(EndNightIn(nights, nightId, now))
    ensures IdsFromStartTimes(nights) ==> IdsFromStartTimes(EndNightIn(nights, nightId, now))
    ensures forall k :: 0 <= k < |nights| && nights[k].id == nightId ==> !EndNightIn(nights, nightId, now)[k].isActive
  {
  }

  /** With distinct ids, selecting a night leaves at most one active. */
  lemma SetActivePreserves(nights: seq<Night>, night: Option<Night>)
    ensures DistinctIds(nights) ==> DistinctIds(SetActiveIn(nights, night)) && AtMostOneActive(SetActiveIn(nights, night))
    ensures IdsFromStartTimes(nights) ==> IdsFromStartTimes(SetActiveIn(nights, night))
    ensures night.None? ==> FirstActive(SetActiveIn(nights, night)).None?
  {
  }

  /** With distinct ids, the selected night, if it is in the list, becomes the active night. */
  lemma SetActiveSelects(nights: seq<Night>, night: Night, k: int)
    requires DistinctIds(nights)
    requires 0 <= k < |nights| && nights[k].id == night.id
    ensures FirstActive(SetActiveIn(nights, Some(night))) == Some(nights[k].(isActive := true))
  {
    var r := SetActiveIn(nights, Some(night));
    SetActivePreserves(nights, Some(night));
    FirstActiveUnique(r, k);
  }

  /** Starting a night with a fresh id keeps the ids distinct. */
  lemma StartNightKeepsIdsDistinct(nights: seq<Night>, groupId: string, group: Group,
                                   settings: Option<NightSettings>, clock: StartClock)
    requires DistinctIds(nights)
    requires forall k :: 0 <= k < |nights| ==> nights[k].id != NightIdAt(clock.idAt)
    ensures DistinctIds(StartNightIn(nights, groupId, group, settings, clock))
  {
    var r := StartNightIn(nights, groupId, group, settings, clock);
    assert forall k :: 0 < k < |r| ==> r[k].id == nights[k - 1].id;
  }

  /**
   * When ids come from clock readings no later than their nights' starts, and
   * every night started before the new id's reading, the new id is fresh; if
   * the id is read no later than the new night's start, ids still come from
   * readings no later than the starts.
   */
  lemma StartNightFreshId(nights: seq<Night>, groupId: string, group: Group,
                          settings: Option<NightSettings>, clock: StartClock)
    requires IdsFromStartTimes(nights) && StartedBefore(nights, clock.idAt)
    ensures forall k :: 0 <= k < |nights| ==> nights[k].id != NightIdAt(clock.idAt)
    ensures clock.idAt <= clock.startAt ==> IdsFromStartTimes(StartNightIn(nights, groupId, group, settings, clock))
  {
    NightIdTimeRoundTrip(clock.idAt);
    var r := StartNightIn(nights, groupId, group, settings, clock);
    assert forall k :: 0 < k < |r| ==> r[k].id == nights[k - 1].id && r[k].startTime == nights[k - 1].startTime;
  }

  // ---------------------------------------------------------------------------
  // The hook's state
  // ---------------------------------------------------------------------------

  /** The `allNights` state of the hook and its three update functions. */
  class NightManager {
    var allNights: seq<Night>

    /**
     * Every id distinct and made from a clock reading no later than its
     * night's start, and at most one night active.
     */
    ghost predicate Valid()
      reads this
    {
      DistinctIds(allNights) && IdsFromStartTimes(allNights) && AtMostOneActive(allNights)
    }

    constructor ()
      ensures allNights == []
      ensures Valid()
    {
      allNights := [];
    }

    /** `activeNight`: the first active night, or none when no night is active. */
    function ActiveNight(): (r: Option<Night>)
      reads this
      ensures r.None? <==> forall k :: 0 <= k < |allNights| ==> !allNights[k].isActive
      ensures r.Some? ==> r.value.isActive && r.value in allNights
    {
      FirstActive(allNights)
    }

    /** `pastNights`: the inactive nights, newest first. */
    function PastNights(): (r: seq<Night>)
      reads this
      ensures SortedByStartDesc(r)
      ensures forall n :: multiset(r)[n] == if n.isActive then 0 else multiset(allNights)[n]
    {
      PastNightsOf(allNights)
    }

    method SetActiveNight(night: Option<Night>)
      modifies this
      ensures allNights == SetActiveIn(old(allNights), night)
      ensures old(Valid()) ==> Valid()
      ensures night.None? ==> ActiveNight().None?
    {
      SetActivePreserves(allNights, night);
      allNights := SetActiveIn(allNights, night);
    }

    method EndNight(nightId: string, now: int)
      modifies this
      ensures allNights == EndNightIn(old(allNights), nightId, now)
      ensures old(Valid()) ==> Valid()
    {
      EndNightPreserves(allNights, nightId, now);
      allNights := EndNightIn(allNights, nightId, now);
    }

    method StartNight(groupId: string, group: Group, settings: Option<NightSettings>, clock: StartClock)
      modifies this
      ensures allNights == StartNightIn(old(allNights), groupId, group, settings, clock)
      ensures old(AtMostOneActive(allNights)) ==>
                AtMostOneActive(allNights) && ActiveNight() == Some(NewNight(groupId, group, settings, clock))
      ensures old(Valid()) && old(StartedBefore(allNights, clock.idAt)) && clock.idAt <= clock.startAt ==> Valid()
    {
      ghost var before := allNights;
      if AtMostOneActive(before) {
        StartNightOnlyNewActive(before, groupId, group, settings, clock);
      }
      if Valid() && StartedBefore(before, clock.idAt) {
        StartNightFreshId(before, groupId, group, settings, clock);
        StartNightKeepsIdsDistinct(before, groupId, group, settings, clock);
      }
      var active := ActiveNight();
      if active.Some? {
        EndNight(active.value.id, clock.endAt);
      }
      allNights := [NewNight(groupId, group, settings, clock)] + allNights;
    }
  }
}
