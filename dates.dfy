/** Calendar dates as day numbers: day 0 is 1970-01-01, a Thursday. Weekdays are
    numbered as JavaScript's `getDay` numbers them (0 = Sunday … 6 = Saturday),
    and weeks start on Monday, as the dashboard asks of `startOfWeek`. */
module Dates {

  /** `getDay`: the weekday of a day number. */
  function GetDay(d: int): (w: int)
    ensures 0 <= w < 7
  {
    (d + 4) % 7
  }

  /** Position of a day within a Monday-first week: Monday 0 … Sunday 6
      (`(getDay(d) + 6) % 7`). */
  function WeekdayIndex(d: int): (k: int)
    ensures 0 <= k < 7
    ensures k == 6 <==> GetDay(d) == 0
  {
    (GetDay(d) + 6) % 7
  }

  /** `startOfWeek(d, { weekStartsOn: 1 })`: the Monday on or before `d`. */
  function StartOfWeek(d: int): (s: int)
    ensures GetDay(s) == 1
    ensures s <= d < s + 7
    ensures d - s == WeekdayIndex(d)
  {
    d - WeekdayIndex(d)
  }

  /** Days of one week share their start, so `StartOfWeek` picks the unique
      Monday within six days before `d`. */
  lemma SameWeek(d: int, e: int)
    requires StartOfWeek(d) <= e < StartOfWeek(d) + 7
    ensures StartOfWeek(e) == StartOfWeek(d)
  {
    var s := StartOfWeek(d);
    var t := StartOfWeek(e);
    assert GetDay(s) == 1 && GetDay(t) == 1;
    assert (s + 4) % 7 == (t + 4) % 7;
    assert -7 < s - t < 7;
  }

  /** Weekdays repeat every seven days. */
  lemma WeekPeriodic(d: int)
    ensures GetDay(d + 7) == GetDay(d)
    ensures StartOfWeek(d + 7) == StartOfWeek(d) + 7
  {
  }
}
