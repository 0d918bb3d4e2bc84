/**
 * Test helpers for engine time periods: the hours-and-minutes conversion,
 * a creator that keeps every time period it makes in a prepend-only list,
 * and the overridable clock used in place of the system time.
 */
module TimeperiodUtils {
  const SecondsPerHour := 3600
  const SecondsPerMinute := 60
  const SecondsPerDay := 86400

  /** `hmtos`: an hour and a minute as a number of seconds. */
  function Hmtos(h: int, m: int): (r: int)
    ensures r % SecondsPerMinute == 0
    ensures 0 <= h && 0 <= m ==> 0 <= r
  {
    h * 60 * 60 + m * 60
  }

  /** A clock time of day converts to a second count within the day that gives back its hour and minute. */
  lemma HmtosRoundTrip(h: int, m: int)
    requires 0 <= h < 24 && 0 <= m < 60
    ensures 0 <= Hmtos(h, m) < SecondsPerDay
    ensures Hmtos(h, m) / SecondsPerHour == h
    ensures Hmtos(h, m) % SecondsPerHour / SecondsPerMinute == m
    ensures Hmtos(h, m) % SecondsPerMinute == 0
  {
    assert Hmtos(h, m) == h * SecondsPerHour + m * SecondsPerMinute;
  }

  /** Later times of day give larger second counts. */
  lemma HmtosMonotone(h1: int, m1: int, h2: int, m2: int)
    requires 0 <= m1 < 60 && 0 <= m2 < 60
    requires h1 < h2 || (h1 == h2 && m1 < m2)
    ensures Hmtos(h1, m1) < Hmtos(h2, m2)
  {
    if h1 < h2 {
      assert Hmtos(h2, m2) - Hmtos(h1, m1) == (h2 - h1) * 3600 + (m2 - m1) * 60;
    }
  }

  /** A time range request handed to the engine's `add_timerange_to_timeperiod`. */
  datatype Timerange = Timerange(day: int, start: int, end: int)

  /** A time period node; `ranges` records, newest first, what was added to it. */
  class Timeperiod {
    var next: Timeperiod?
    var ranges: seq<Timerange>

    constructor ()
      ensures next == null && ranges == []
    {
      next := null;
      ranges := [];
    }
  }

  /** `timeperiod_creator`: the time periods it created, most recent first. */
  class TimeperiodCreator {
    var timeperiods: Timeperiod?
    ghost var periods: seq<Timeperiod>

    ghost predicate Valid()
      reads this, periods
    {
      && (forall i, j :: 0 <= i < j < |periods| ==> periods[i] != periods[j])
      && timeperiods == (if periods == [] then null else periods[0])
      && (forall i :: 0 <= i < |periods| - 1 ==> periods[i].next == periods[i + 1])
      && (periods != [] ==> periods[|periods| - 1].next == null)
    }

    constructor ()
      ensures Valid() && periods == [] && timeperiods == null
    {
      timeperiods := null;
      periods := [];
    }

    /** `get_timeperiods`: the head of the list. */
    function GetTimeperiods(): (r: Timeperiod?)
      reads this, periods
      requires Valid()
      ensures r == null <==> periods == []
      ensures r != null ==> r == periods[0]
    {
      timeperiods
    }

    /** `new_timeperiod`: a fresh, empty time period pushed in front of the others. */
    method NewTimeperiod() returns (tp: Timeperiod)
      requires Valid()
      modifies this
      ensures Valid()
      ensures fresh(tp) && tp.ranges == []
      ensures periods == [tp] + old(periods)
      ensures tp.next == old(timeperiods)
    {
      tp := new Timeperiod();
      tp.next := timeperiods;
      timeperiods := tp;
      periods := [tp] + periods;
    }

    /**
     * `new_timerange`: adds the range, in seconds, to `target`, or to the most
     * recently created time period when `target` is null; `used` is the time
     * period that received it (null when there was none to receive it).
     */
    method NewTimerange(startHour: int, startMinute: int, endHour: int, endMinute: int, day: int,
                        target: Timeperiod?) returns (used: Timeperiod?)
      requires Valid()
      modifies if target != null then target else timeperiods
      ensures used == (if target != null then target else old(timeperiods))
      ensures used != null ==>
        used.ranges == [Timerange(day, Hmtos(startHour, startMinute), Hmtos(endHour, endMinute))] + old(used.ranges)
      ensures used != null ==> used.next == old(used.next)
      ensures Valid() && periods == old(periods) && timeperiods == old(timeperiods)
    {
      used := if target != null then target else timeperiods;
      if used != null {
        used.ranges := [Timerange(day, Hmtos(startHour, startMinute), Hmtos(endHour, endMinute))] + used.ranges;
      }
    }

    /** The destructor: releases every time period, walking from the head; `deleted` is the release order. */
    method Destroy() returns (deleted: seq<Timeperiod>)
      requires Valid()
      modifies this
      ensures deleted == old(periods)
      ensures timeperiods == null && periods == [] && Valid()
    {
      deleted := [];
      ghost var i := 0;
      while timeperiods != null
        invariant 0 <= i <= |periods|
        invariant deleted == periods[..i]
        invariant timeperiods == (if i < |periods| then periods[i] else null)
        invariant periods == old(periods)
        invariant forall j :: 0 <= j < |periods| - 1 ==> periods[j].next == periods[j + 1]
        invariant periods != [] ==> periods[|periods| - 1].next == null
        decreases |periods| - i
      {
        var toDelete := timeperiods;
        timeperiods := timeperiods.next;
        deleted := deleted + [toDelete];
        i := i + 1;
      }
      assert deleted == periods;
      periods := [];
    }
  }

  /** The value written through the optional argument of `time`. */
  class TimeCell {
    var value: int

    constructor ()
      ensures value == 0
    {
      value := 0;
    }
  }

  /** The overridden system clock: `gl_now`, -1 until `set_time` is called. */
  class Clock {
    var now: int

    constructor ()
      ensures now == -1
    {
      now := -1;
    }

    /** `set_time`. */
    method SetTime(t: int)
      modifies this
      ensures now == t
    {
      now := t;
    }

    /** `time`: the set time, also stored through a non-null argument. */
    method Time(t: TimeCell?) returns (r: int)
      modifies t
      ensures r == now
      ensures t != null ==> t.value == now
    {
      if t != null {
        t.value := now;
      }
      r := now;
    }
  }

  /** After `set_time(t)`, `time` answers t and writes it through its argument. */
  method SetThenTime(t: int) returns (answered: int, stored: int)
    ensures answered == t && stored == t
  {
    var clock := new Clock();
    var cell := new TimeCell();
    clock.SetTime(t);
    answered := clock.Time(cell);
    stored := cell.value;
  }

  /** Two creations and a range with no target: the range goes to the second time period. */
  method CreatorScenario() returns (firstRanges: seq<Timerange>, secondRanges: seq<Timerange>, order: seq<bool>)
    ensures firstRanges == []
    ensures secondRanges == [Timerange(1, 28800, 64800)]
    ensures order == [true, false]
  {
    var creator := new TimeperiodCreator();
    var first := creator.NewTimeperiod();
    var second := creator.NewTimeperiod();
    var used := creator.NewTimerange(8, 0, 18, 0, 1, null);
    firstRanges := first.ranges;
    secondRanges := second.ranges;
    var deleted := creator.Destroy();
    order := [deleted[0] == second, deleted[1] == second];
  }
}
