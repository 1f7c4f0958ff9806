/** The stylist dashboard: today's key figures, revenue of the last seven days,
    and this week's schedule grid, all computed once from the stored
    appointment list (or the seed list when nothing is stored). */
module Dashboard {
  import opened Common
  import opened SalonData
  import opened Dates
  import opened AppointmentStore

  function Cost(a: Appointment): int { a.cost }

  /** Money taken over a list: the sum of its costs. */
  function Revenue(appointments: seq<Appointment>): int {
    Sum(appointments, Cost)
  }

  // ---------------------------------------------------------------------------
  // Today's figures

  /** Today's bookings: every appointment dated today that is not cancelled,
      in list order. */
  function TodaysAppointments(appointments: seq<Appointment>, today: int): (r: seq<Appointment>)
    ensures forall a :: a in r <==> a in appointments && a.date == today && a.status != Cancelled
    ensures IsSubsequence(r, appointments)
  {
    Filter(appointments, (a: Appointment) => a.date == today && a.status != Cancelled)
  }

  /** The completed ones among today's bookings: exactly today's completed
      appointments, in list order. */
  function TodaysCompleted(appointments: seq<Appointment>, today: int): (r: seq<Appointment>)
    ensures forall a :: a in r <==> a in appointments && a.date == today && a.status == Completed
    ensures IsSubsequence(r, TodaysAppointments(appointments, today))
  {
    Filter(TodaysAppointments(appointments, today), (a: Appointment) => a.status == Completed)
  }

  /** Today's revenue: the costs of today's completed bookings, which is the
      money taken today; non-negative costs give a non-negative figure. */
  function TodaysRevenue(appointments: seq<Appointment>, today: int): (r: int)
    ensures r == DayRevenue(appointments, today)
    ensures (forall a :: a in appointments ==> a.cost >= 0) ==> r >= 0
  {
    TodaysFigures(appointments, today);
    SumNonNegative(CompletedOn(appointments, today), Cost);
    Revenue(TodaysCompleted(appointments, today))
  }

  /** Today's bookings hold no cancelled appointment, the completed ones are
      among them, and "completed today" is the same as filtering the whole list
      for today's completed appointments in one pass. */
  lemma {:induction false} TodaysFigures(appointments: seq<Appointment>, today: int)
    ensures forall a :: a in TodaysAppointments(appointments, today) ==> a.status != Cancelled && a.date == today
    ensures IsSubsequence(TodaysCompleted(appointments, today), TodaysAppointments(appointments, today))
    ensures |TodaysCompleted(appointments, today)| <= |TodaysAppointments(appointments, today)|
    ensures TodaysCompleted(appointments, today) == CompletedOn(appointments, today)
  {
    if appointments != [] {
      TodaysFigures(appointments[1..], today);
    }
  }

  /** The completed appointments of one day, in list order. */
  function CompletedOn(appointments: seq<Appointment>, day: int): (r: seq<Appointment>)
    ensures forall a :: a in r <==> a in appointments && a.status == Completed && a.date == day
    ensures IsSubsequence(r, appointments)
  {
    Filter(appointments, (a: Appointment) => a.status == Completed && a.date == day)
  }

  /** Money taken on one day: the costs of that day's completed appointments;
      nothing completed that day takes nothing, and non-negative costs give a
      non-negative figure. */
  function DayRevenue(appointments: seq<Appointment>, day: int): (r: int)
    ensures CompletedOn(appointments, day) == [] ==> r == 0
    ensures (forall a :: a in appointments ==> a.cost >= 0) ==> r >= 0
  {
    SumNonNegative(CompletedOn(appointments, day), Cost);
    Revenue(CompletedOn(appointments, day))
  }

  /** Today's revenue figure is the same number as the last bar of the weekly chart. */
  lemma TodaysRevenueIsLastBar(appointments: seq<Appointment>, today: int)
    ensures TodaysRevenue(appointments, today) == WeeklyRevenue(appointments, today)[6].revenue
  {
    TodaysFigures(appointments, today);
    assert WeeklyRevenue(appointments, today)[6] == DayBar(today, DayRevenue(appointments, today));
  }

  // ---------------------------------------------------------------------------
  // Average service time

  /** Every completed appointment, in list order. */
  function CompletedAppointments(appointments: seq<Appointment>): (r: seq<Appointment>)
    ensures forall a :: a in r <==> a in appointments && a.status == Completed
    ensures IsSubsequence(r, appointments)
  {
    Filter(appointments, (a: Appointment) => a.status == Completed)
  }

  /** `Math.round(total / count)` for a positive count: the nearest integer,
      halves rounded up. */
  function RoundedMean(total: int, count: int): (r: int)
    requires count > 0
    ensures 2 * count * r <= 2 * total + count < 2 * count * (r + 1)
  {
    (2 * total + count) / (2 * count)
  }

  /** The dashboard's `reduce((sum, a) => sum + a.duration, 0)` as written:
      a record without a duration adds `undefined`, and the sum becomes NaN
      (`None` here) for good. */
  function TotalMinutesAsWritten(appointments: seq<Appointment>): (total: Option<int>)
    ensures total.Some? <==> forall a :: a in appointments ==> a.duration.Some?
  {
    if appointments == [] then Some(0)
    else
      var rest := TotalMinutesAsWritten(appointments[1..]);
      match appointments[0].duration
      case None => None
      case Some(d) => if rest.Some? then Some(d + rest.value) else None
  }

  /** The average-service-time figure as written; `None` is the NaN the page
      then shows as "NaN min". */
  function AvgServiceTimeAsWritten(appointments: seq<Appointment>): (r: Option<int>)
    ensures r.None? <==> exists a :: a in appointments && a.status == Completed && a.duration.None?
  {
    var completed := CompletedAppointments(appointments);
    if |completed| > 0 then
      match TotalMinutesAsWritten(completed)
      case None => None
      case Some(total) => Some(RoundedMean(total, |completed|))
    else Some(0)
  }

  /** With the seed data (a fresh browser), the completed seed appointment has
      no duration, so the figure is NaN. */
  lemma SeedAverageIsNaN()
    ensures AvgServiceTimeAsWritten(Appointments) == None
  {
    var completed := CompletedAppointments(Appointments);
    assert Appointments[1] in completed;
  }

  /** Every completed appointment that records a duration, in list order. */
  function TimedCompleted(appointments: seq<Appointment>): (r: seq<Appointment>)
    ensures forall a :: a in r <==> a in appointments && a.status == Completed && a.duration.Some?
    ensures IsSubsequence(r, appointments)
  {
    Filter(appointments, (a: Appointment) => a.status == Completed && a.duration.Some?)
  }

  /** Summed durations of records that all carry one. */
  function TotalMinutes(appointments: seq<Appointment>): int
    requires forall a :: a in appointments ==> a.duration.Some?
  {
    if appointments == [] then 0 else appointments[0].duration.value + TotalMinutes(appointments[1..])
  }

  /** The average service time the figure evidently means: the rounded mean
      duration of the completed appointments that record one, 0 when there
      are none. */
  function AvgServiceTime(appointments: seq<Appointment>): (r: int)
    ensures var timed := TimedCompleted(appointments);
            && (|timed| == 0 ==> r == 0)
            && (|timed| > 0 ==> 2 * |timed| * r <= 2 * TotalMinutes(timed) + |timed| < 2 * |timed| * (r + 1))
  {
    var timed := TimedCompleted(appointments);
    if |timed| > 0 then RoundedMean(TotalMinutes(timed), |timed|) else 0
  }

  /** When every completed appointment records its duration, the page as
      written and the corrected figure agree. */
  lemma {:induction false} AvgMatchesWhenAllTimed(appointments: seq<Appointment>)
    requires forall a :: a in appointments && a.status == Completed ==> a.duration.Some?
    ensures AvgServiceTimeAsWritten(appointments) == Some(AvgServiceTime(appointments))
  {
    var completed := CompletedAppointments(appointments);
    CompletedAllTimed(appointments);
    assert TimedCompleted(appointments) == completed;
    if |completed| > 0 {
      TotalsAgree(completed);
    }
  }

  /** Whenever the page's figure is a number, it is the corrected figure. */
  lemma AvgAgreesWhenDefined(appointments: seq<Appointment>)
    ensures AvgServiceTimeAsWritten(appointments).Some? ==>
            AvgServiceTimeAsWritten(appointments) == Some(AvgServiceTime(appointments))
  {
    if AvgServiceTimeAsWritten(appointments).Some? {
      AvgMatchesWhenAllTimed(appointments);
    }
  }

  lemma {:induction false} CompletedAllTimed(appointments: seq<Appointment>)
    requires forall a :: a in appointments && a.status == Completed ==> a.duration.Some?
    ensures TimedCompleted(appointments) == CompletedAppointments(appointments)
  {
    if appointments != [] {
      CompletedAllTimed(appointments[1..]);
    }
  }

  lemma {:induction false} TotalsAgree(appointments: seq<Appointment>)
    requires forall a :: a in appointments ==> a.duration.Some?
    ensures TotalMinutesAsWritten(appointments) == Some(TotalMinutes(appointments))
  {
    if appointments != [] {
      TotalsAgree(appointments[1..]);
    }
  }

  /** The corrected figure lies between the shortest and the longest recorded duration. */
  lemma AvgWithinBounds(appointments: seq<Appointment>, lo: int, hi: int)
    requires forall a :: a in TimedCompleted(appointments) ==> lo <= a.duration.value <= hi
    requires |TimedCompleted(appointments)| > 0
    ensures lo <= AvgServiceTime(appointments) <= hi
  {
    var timed := TimedCompleted(appointments);
    TotalMinutesBounds(timed, lo, hi);
    RoundedMeanBounds(TotalMinutes(timed), |timed|, lo, hi);
  }

  /** A rounded mean of values within `[lo, hi]` stays within `[lo, hi]`. */
  lemma RoundedMeanBounds(total: int, n: int, lo: int, hi: int)
    requires n > 0 && n * lo <= total <= n * hi
    ensures lo <= RoundedMean(total, n) <= hi
  {
    var r := RoundedMean(total, n);
    if r > hi {
      MulMono(2 * n, hi + 1, r);
      assert false;
    }
    if r < lo {
      MulMono(2 * n, r + 1, lo);
      assert false;
    }
  }

  lemma {:induction false} TotalMinutesBounds(appointments: seq<Appointment>, lo: int, hi: int)
    requires forall a :: a in appointments ==> a.duration.Some? && lo <= a.duration.value <= hi
    ensures |appointments| * lo <= TotalMinutes(appointments) <= |appointments| * hi
  {
    if appointments != [] {
      var rest := appointments[1..];
      assert appointments[0] in appointments;
      assert forall a :: a in rest ==> a in appointments;
      TotalMinutesBounds(rest, lo, hi);
      assert TotalMinutes(appointments) == appointments[0].duration.value + TotalMinutes(rest);
      MulSucc(|rest|, lo);
      MulSucc(|rest|, hi);
    }
  }

  // ---------------------------------------------------------------------------
  // Weekly revenue chart

  /** One bar of the chart: a day and the money taken on it (the day's
      weekday label is formatting and is not modelled). */
  datatype DayBar = DayBar(day: int, revenue: int)

  /** The chart: one bar per day from six days ago through today. */
  function WeeklyRevenue(appointments: seq<Appointment>, today: int): (bars: seq<DayBar>)
    ensures |bars| == 7
  {
    seq(7, i => DayBar(today - 6 + i, DayRevenue(appointments, today - 6 + i)))
  }

  /** Completed revenue dated in `[lo, hi)`, computed in one pass. */
  function CompletedRevenueBetween(appointments: seq<Appointment>, lo: int, hi: int): int {
    Revenue(Filter(appointments, (a: Appointment) => a.status == Completed && lo <= a.date < hi))
  }

  /** Widening the window by one day adds that day's revenue. */
  lemma {:induction false} RevenueWindowGrows(appointments: seq<Appointment>, lo: int, hi: int)
    requires lo <= hi
    ensures CompletedRevenueBetween(appointments, lo, hi + 1)
         == CompletedRevenueBetween(appointments, lo, hi) + DayRevenue(appointments, hi)
  {
    if appointments != [] {
      RevenueWindowGrows(appointments[1..], lo, hi);
    }
  }

  function BarTotal(bars: seq<DayBar>): int {
    if bars == [] then 0 else BarTotal(bars[..|bars| - 1]) + bars[|bars| - 1].revenue
  }

  /** The seven bars are the consecutive days ending today, and together they
      hold exactly the completed revenue of that seven-day window. */
  lemma WeeklyRevenueCoversWindow(appointments: seq<Appointment>, today: int)
    ensures forall i :: 0 <= i < 7 ==> WeeklyRevenue(appointments, today)[i].day == today - 6 + i
    ensures WeeklyRevenue(appointments, today)[6].day == today
    ensures BarTotal(WeeklyRevenue(appointments, today)) == CompletedRevenueBetween(appointments, today - 6, today + 1)
  {
    var bars := WeeklyRevenue(appointments, today);
    var k := 0;
    EmptyWindow(appointments, today - 6);
    while k < 7
      invariant 0 <= k <= 7
      invariant BarTotal(bars[..k]) == CompletedRevenueBetween(appointments, today - 6, today - 6 + k)
    {
      assert bars[..k + 1][..k] == bars[..k];
      RevenueWindowGrows(appointments, today - 6, today - 6 + k);
      k := k + 1;
    }
    assert bars[..7] == bars;
  }

  lemma {:induction false} EmptyWindow(appointments: seq<Appointment>, lo: int)
    ensures CompletedRevenueBetween(appointments, lo, lo) == 0
  {
    if appointments != [] {
      EmptyWindow(appointments[1..], lo);
    }
  }

  // ---------------------------------------------------------------------------
  // This week's schedule grid

  const WeekDays: seq<string> := ["Monday", "Tuesday", "Wednesday", "Thursday", "Friday", "Saturday"]

  /** The grid's rows; there is no 13:00 row and nothing after 15:00. */
  const ScheduleSlots: seq<string> := ["09:00", "10:00", "11:00", "12:00", "14:00", "15:00"]

  /** `time.split(':')[0]`: the text before the first colon. */
  function FirstField(time: string): string {
    if time == [] || time[0] == ':' then [] else [time[0]] + FirstField(time[1..])
  }

  /** The first field is the longest colon-free prefix. */
  lemma {:induction false} FirstFieldIsPrefix(time: string)
    ensures var f := FirstField(time);
            && |f| <= |time| && f == time[..|f|] && ':' !in f
            && (|f| < |time| ==> time[|f|] == ':')
  {
    if time != [] && time[0] != ':' {
      FirstFieldIsPrefix(time[1..]);
    }
  }

  predicate IsDigit(c: char) { '0' as int <= c as int <= '9' as int }

  /** The longest prefix made of decimal digits. */
  function LeadingDigits(s: string): string {
    if s == [] || !IsDigit(s[0]) then [] else [s[0]] + LeadingDigits(s[1..])
  }

  /** The leading digits are a prefix of digits that the next character, if any, ends. */
  lemma {:induction false} LeadingDigitsIsPrefix(s: string)
    ensures var ds := LeadingDigits(s);
            && |ds| <= |s| && ds == s[..|ds|]
            && (forall i :: 0 <= i < |ds| ==> IsDigit(ds[i]))
            && (|ds| < |s| ==> !IsDigit(s[|ds|]))
  {
    if s != [] && IsDigit(s[0]) {
      LeadingDigitsIsPrefix(s[1..]);
    }
  }

  /** The value of one decimal digit. */
  function DigitValue(c: char): (v: int)
    ensures 0 <= v < 10
    ensures IsDigit(c) ==> v == c as int - '0' as int
  {
    if IsDigit(c) then c as int - '0' as int else 0
  }

  /** The number a string of decimal digits denotes, most significant first. */
  function DecimalValue(ds: string): (n: int)
    ensures n >= 0
  {
    if ds == [] then 0 else DecimalValue(ds[..|ds| - 1]) * 10 + DigitValue(ds[|ds| - 1])
  }

  /** `parseInt(time.split(':')[0])` for texts that start with their digits:
      the value of the leading digits, or NaN (`None`) when there are none. */
  function ParseHour(time: string): (r: Option<int>)
    ensures r.Some? ==> r.value >= 0
  {
    var ds := LeadingDigits(FirstField(time));
    if ds == [] then None else Some(DecimalValue(ds))
  }

  /** The hour is NaN exactly when the text does not start with a digit, and
      otherwise the value of its leading digits: since a colon is not a digit,
      cutting at the first colon changes nothing. */
  lemma ParseHourReadsLeadingDigits(time: string)
    ensures ParseHour(time).None? <==> time == [] || !IsDigit(time[0])
    ensures ParseHour(time).Some? ==> ParseHour(time).value == DecimalValue(LeadingDigits(time))
  {
    LeadingDigitsIgnoreColon(time);
  }

  /** The digits before the first colon are the leading digits of the whole text. */
  lemma {:induction false} LeadingDigitsIgnoreColon(time: string)
    ensures LeadingDigits(FirstField(time)) == LeadingDigits(time)
  {
    if time != [] && time[0] != ':' && IsDigit(time[0]) {
      LeadingDigitsIgnoreColon(time[1..]);
      assert ([time[0]] + FirstField(time[1..]))[1..] == FirstField(time[1..]);
    }
  }

  /** Two-digit, zero-padded text of `n` in 0..99. */
  function TwoDigits(n: int): (s: string)
    requires 0 <= n < 100
    ensures |s| == 2 && IsDigit(s[0]) && IsDigit(s[1])
  {
    [('0' as int + n / 10) as char, ('0' as int + n % 10) as char]
  }

  /** Reading the hour back from an "HH:MM" text gives the hour it was written with. */
  lemma ParseHourOfFormatted(h: int, m: int)
    requires 0 <= h < 100 && 0 <= m < 100
    ensures ParseHour(TwoDigits(h) + ":" + TwoDigits(m)) == Some(h)
  {
    var text := TwoDigits(h) + ":" + TwoDigits(m);
    var hh := TwoDigits(h);
    assert FirstField(text) == hh by {
      assert text[0] == hh[0] && text[1] == hh[1] && text[2] == ':';
      assert text[1..][1..] == text[2..];
      assert FirstField(text[2..]) == [];
      assert FirstField(text[1..]) == [hh[1]];
    }
    assert LeadingDigits(hh[1..]) == [hh[1]];
    assert LeadingDigits(hh) == hh;
    assert hh[..1] == [hh[0]];
    assert DecimalValue(hh[..1]) == h / 10;
  }

  /** The hour of each grid row. */
  const SlotHours: seq<int> := [9, 10, 11, 12, 14, 15]

  lemma SlotHoursParse()
    ensures |SlotHours| == |ScheduleSlots|
    ensures forall i :: 0 <= i < |ScheduleSlots| ==> ParseHour(ScheduleSlots[i]) == Some(SlotHours[i])
  {
    forall i | 0 <= i < |ScheduleSlots| ensures ParseHour(ScheduleSlots[i]) == Some(SlotHours[i]) {
      assert ScheduleSlots[i] == TwoDigits(SlotHours[i]) + ":" + TwoDigits(0);
      ParseHourOfFormatted(SlotHours[i], 0);
    }
  }

  /** `timeSlots.find(slot => parseInt(slot.split(':')[0]) === hour)`: NaN
      equals nothing, so it finds no row (`ClosestSlotInGrid` says what a
      found row is). */
  function ClosestSlot(hour: Option<int>): (r: Option<string>)
    ensures hour.None? ==> r.None?
  {
    if hour.None? then None else FindSlot(ScheduleSlots, hour.value)
  }

  /** A found slot is a grid row that reads as the hour. */
  lemma ClosestSlotInGrid(hour: Option<int>)
    ensures ClosestSlot(hour).Some? ==> ClosestSlot(hour).value in ScheduleSlots && ParseHour(ClosestSlot(hour).value) == hour
  {
    if hour.Some? {
      FindSlotFindsMatch(ScheduleSlots, hour.value);
    }
  }

  /** `find` over `slots`: the first slot whose leading hour is `hour`. */
  function FindSlot(slots: seq<string>, hour: int): Option<string> {
    if slots == [] then None
    else if ParseHour(slots[0]) == Some(hour) then Some(slots[0])
    else FindSlot(slots[1..], hour)
  }

  /** A slot `find` returns is one of the slots searched, and one that passes the test. */
  lemma {:induction false} FindSlotFindsMatch(slots: seq<string>, hour: int)
    ensures FindSlot(slots, hour).Some? ==>
              FindSlot(slots, hour).value in slots && ParseHour(FindSlot(slots, hour).value) == Some(hour)
  {
    if slots != [] && ParseHour(slots[0]) != Some(hour) {
      FindSlotFindsMatch(slots[1..], hour);
    }
  }

  /** An appointment hour finds a grid row exactly when it is one of the row
      hours, and then it finds the row of that hour; 13:xx and 16:xx find none. */
  lemma ClosestSlotFinds(hour: int)
    ensures ClosestSlot(Some(hour)).Some? <==> hour in SlotHours
    ensures forall i :: 0 <= i < |SlotHours| && SlotHours[i] == hour ==> ClosestSlot(Some(hour)) == Some(ScheduleSlots[i])
  {
    SlotHoursParse();
    FindSlotSucceeds(ScheduleSlots, SlotHours, hour);
    FindSlotIncreasing(ScheduleSlots, SlotHours, hour);
  }

  /** Over slots whose hours increase, `find` returns the slot of the hour wherever it is. */
  lemma {:induction false} FindSlotIncreasing(slots: seq<string>, hours: seq<int>, hour: int)
    requires |slots| == |hours|
    requires forall i :: 0 <= i < |slots| ==> ParseHour(slots[i]) == Some(hours[i])
    requires forall i :: 0 < i < |hours| ==> hours[i - 1] < hours[i]
    ensures forall i :: 0 <= i < |hours| && hours[i] == hour ==> FindSlot(slots, hour) == Some(slots[i])
  {
    if slots != [] {
      assert ParseHour(slots[0]) == Some(hours[0]);
      assert forall i :: 0 <= i < |slots[1..]| ==> slots[1..][i] == slots[i + 1] && hours[1..][i] == hours[i + 1];
      FindSlotIncreasing(slots[1..], hours[1..], hour);
      IncreasingFromHead(hours);
    }
  }

  lemma {:induction false} IncreasingFromHead(hours: seq<int>)
    requires forall i :: 0 < i < |hours| ==> hours[i - 1] < hours[i]
    ensures forall i :: 0 < i < |hours| ==> hours[0] < hours[i]
  {
    if |hours| > 2 {
      IncreasingFromHead(hours[1..]);
      assert forall i :: 0 < i < |hours[1..]| ==> hours[1..][i] == hours[i + 1];
    }
  }

  /** Over slots whose hours are `hours`, `find` succeeds exactly for an hour
      in the list, and then returns the first slot of that hour. */
  lemma FindSlotMatches(slots: seq<string>, hours: seq<int>, hour: int)
    requires |slots| == |hours|
    requires forall i :: 0 <= i < |slots| ==> ParseHour(slots[i]) == Some(hours[i])
    ensures FindSlot(slots, hour).Some? <==> hour in hours
    ensures forall i :: 0 <= i < |hours| && hours[i] == hour && hour !in hours[..i] ==>
              FindSlot(slots, hour) == Some(slots[i])
  {
    FindSlotSucceeds(slots, hours, hour);
    forall i | 0 <= i < |hours| && hours[i] == hour && hour !in hours[..i]
      ensures FindSlot(slots, hour) == Some(slots[i])
    {
      FindSlotFirst(slots, hours, hour, i);
    }
  }

  lemma {:induction false} FindSlotSucceeds(slots: seq<string>, hours: seq<int>, hour: int)
    requires |slots| == |hours|
    requires forall i :: 0 <= i < |slots| ==> ParseHour(slots[i]) == Some(hours[i])
    ensures FindSlot(slots, hour).Some? <==> hour in hours
  {
    if slots != [] {
      assert ParseHour(slots[0]) == Some(hours[0]);
      assert forall i :: 0 <= i < |slots[1..]| ==> slots[1..][i] == slots[i + 1] && hours[1..][i] == hours[i + 1];
      FindSlotSucceeds(slots[1..], hours[1..], hour);
      assert hours == [hours[0]] + hours[1..];
    }
  }

  lemma {:induction false} FindSlotFirst(slots: seq<string>, hours: seq<int>, hour: int, i: int)
    requires |slots| == |hours|
    requires forall j :: 0 <= j < |slots| ==> ParseHour(slots[j]) == Some(hours[j])
    requires 0 <= i < |hours| && hours[i] == hour && hour !in hours[..i]
    ensures FindSlot(slots, hour) == Some(slots[i])
  {
    assert ParseHour(slots[0]) == Some(hours[0]);
    if i > 0 {
      assert hours[0] in hours[..i];
      assert forall j :: 0 <= j < |slots[1..]| ==> slots[1..][j] == slots[j + 1] && hours[1..][j] == hours[j + 1];
      assert hours[1..][..i - 1] == hours[..i][1..];
      FindSlotFirst(slots[1..], hours[1..], hour, i - 1);
    }
  }

  /** The grid column of a day: its weekday name, none for Sunday (index 6
      is past the end of the Monday–Saturday names). */
  function DayName(d: int): (name: Option<string>)
    ensures name.None? <==> GetDay(d) == 0
    ensures name.Some? ==> name.value in WeekDays
  {
    var k := WeekdayIndex(d);
    if k < |WeekDays| then Some(WeekDays[k]) else None
  }

  /** Dated in the Monday-to-Sunday week containing `today`: exactly the
      appointments whose week starts on the same Monday as today's. */
  predicate InWeekOf(a: Appointment, today: int)
    ensures InWeekOf(a, today) <==> StartOfWeek(a.date) == StartOfWeek(today)
  {
    if StartOfWeek(today) <= a.date <= StartOfWeek(today) + 6 then
      SameWeek(today, a.date);
      true
    else false
  }

  /** This week's appointments, whatever their status, in list order. */
  function AppointmentsThisWeek(appointments: seq<Appointment>, today: int): (r: seq<Appointment>)
    ensures forall a :: a in r <==> a in appointments && StartOfWeek(a.date) == StartOfWeek(today)
    ensures IsSubsequence(r, appointments)
  {
    Filter(appointments, (a: Appointment) => InWeekOf(a, today))
  }

  /** The appointment falls on the column `day` and the row `slot`. */
  predicate Marks(a: Appointment, slot: string, day: string) {
    DayName(a.date) == Some(day) && ClosestSlot(ParseHour(a.time)) == Some(slot)
  }

  /** A cell is booked when some appointment of this week falls on it. */
  predicate Booked(appointments: seq<Appointment>, today: int, slot: string, day: string) {
    exists a :: a in AppointmentsThisWeek(appointments, today) && Marks(a, slot, day)
  }

  /** The grid ignores status: an appointment of this week that falls on a
      cell books it, and still does after it has been cancelled. */
  lemma ScheduleIgnoresStatus(appointments: seq<Appointment>, today: int, i: int, slot: string, day: string)
    requires 0 <= i < |appointments| && InWeekOf(appointments[i], today) && Marks(appointments[i], slot, day)
    ensures Booked(appointments, today, slot, day)
    ensures Booked(appointments[i := appointments[i].(status := Cancelled)], today, slot, day)
  {
    var cancelled := appointments[i := appointments[i].(status := Cancelled)];
    assert appointments[i] in appointments;
    assert appointments[i] in AppointmentsThisWeek(appointments, today);
    assert cancelled[i] in cancelled;
    assert cancelled[i] in AppointmentsThisWeek(cancelled, today);
  }

  /** Sunday appointments and appointments at an hour without a row (13:00,
      16:00 and later, before 09:00) mark no cell. */
  lemma DroppedAppointments(a: Appointment, slot: string, day: string)
    ensures GetDay(a.date) == 0 ==> !Marks(a, slot, day)
    ensures ParseHour(a.time).Some? && ParseHour(a.time).value !in SlotHours ==> !Marks(a, slot, day)
  {
    if ParseHour(a.time).Some? {
      ClosestSlotFinds(ParseHour(a.time).value);
    }
  }

  predicate BookedBy(list: seq<Appointment>, slot: string, day: string) {
    exists a :: a in list && Marks(a, slot, day)
  }

  /** The grid has a row for each of `slots` and, in every row, a cell for
      each weekday name. */
  ghost predicate IsGrid(schedule: map<string, map<string, string>>, slots: seq<string>)
  {
    && (forall s :: s in schedule <==> s in slots)
    && (forall s :: s in schedule ==> forall d :: d in schedule[s] <==> d in WeekDays)
  }

  /** Every cell holds "Booked" when some appointment of `list` falls on it, and is empty otherwise. */
  ghost predicate CellsMark(schedule: map<string, map<string, string>>, list: seq<Appointment>)
  {
    forall s, d :: s in schedule && d in schedule[s] ==>
      schedule[s][d] == if BookedBy(list, s, d) then "Booked" else ""
  }

  /** The effect's third part: an empty six-by-six grid, then one pass over
      this week's appointments, whatever their status, marking the cell of
      each one that has a weekday column and a row for its hour. */
  method BuildSchedule(appointments: seq<Appointment>, today: int) returns (schedule: map<string, map<string, string>>)
    ensures IsGrid(schedule, ScheduleSlots)
    ensures forall s, d :: s in schedule && d in schedule[s] ==>
              schedule[s][d] == if Booked(appointments, today, s, d) then "Booked" else ""
  {
    schedule := EmptySchedule();
    schedule := MarkBookings(schedule, AppointmentsThisWeek(appointments, today));
  }

  /** The grid with every cell empty. */
  method EmptySchedule() returns (schedule: map<string, map<string, string>>)
    ensures IsGrid(schedule, ScheduleSlots)
    ensures CellsMark(schedule, [])
  {
    schedule := map[];
    var i := 0;
    while i < |ScheduleSlots|
      invariant 0 <= i <= |ScheduleSlots|
      invariant IsGrid(schedule, ScheduleSlots[..i])
      invariant forall s, d :: s in schedule && d in schedule[s] ==> schedule[s][d] == ""
    {
      var row := EmptyRow();
      assert ScheduleSlots[..i + 1] == ScheduleSlots[..i] + [ScheduleSlots[i]];
      schedule := schedule[ScheduleSlots[i] := row];
      i := i + 1;
    }
    assert ScheduleSlots[..i] == ScheduleSlots;
  }

  /** One row: an empty cell per weekday name. */
  method EmptyRow() returns (row: map<string, string>)
    ensures forall d :: d in row <==> d in WeekDays
    ensures forall d :: d in row ==> row[d] == ""
  {
    row := map[];
    var j := 0;
    while j < |WeekDays|
      invariant 0 <= j <= |WeekDays|
      invariant forall d :: d in row <==> d in WeekDays[..j]
      invariant forall d :: d in row ==> row[d] == ""
    {
      assert WeekDays[..j + 1] == WeekDays[..j] + [WeekDays[j]];
      row := row[WeekDays[j] := ""];
      j := j + 1;
    }
    assert WeekDays[..j] == WeekDays;
  }

  /** The marking pass over `list`, starting from an empty grid. */
  method MarkBookings(empty: map<string, map<string, string>>, list: seq<Appointment>)
    returns (schedule: map<string, map<string, string>>)
    requires IsGrid(empty, ScheduleSlots) && CellsMark(empty, [])
    ensures IsGrid(schedule, ScheduleSlots) && CellsMark(schedule, list)
  {
    schedule := empty;
    var k := 0;
    while k < |list|
      invariant 0 <= k <= |list|
      invariant IsGrid(schedule, ScheduleSlots)
      invariant CellsMark(schedule, list[..k])
    {
      assert list[..k + 1] == list[..k] + [list[k]];
      schedule := MarkOne(schedule, list[..k], list[k]);
      k := k + 1;
    }
    assert list[..k] == list;
  }

  /** The loop body: mark the cell of `appt` when it has a weekday column and
      a row for its hour and the cell is still empty. */
  method MarkOne(schedule: map<string, map<string, string>>, list: seq<Appointment>, appt: Appointment)
    returns (next: map<string, map<string, string>>)
    requires IsGrid(schedule, ScheduleSlots) && CellsMark(schedule, list)
    ensures IsGrid(next, ScheduleSlots) && CellsMark(next, list + [appt])
  {
    var dayName := DayName(appt.date);
    var closestSlot := ClosestSlot(ParseHour(appt.time));
    ClosestSlotInGrid(ParseHour(appt.time));
    if dayName.Some? && closestSlot.Some? {
      next := MarkCell(schedule, closestSlot.value, dayName.value, list, appt);
    } else {
      next := schedule;
      UnmarkedKeepsCells(schedule, list, appt);
    }
  }

  /** Marking the cell of `appt` (already marked or not) moves the grid from
      `list` to `list + [appt]`. */
  method MarkCell(schedule: map<string, map<string, string>>, slot: string, day: string,
                  list: seq<Appointment>, appt: Appointment)
    returns (next: map<string, map<string, string>>)
    requires IsGrid(schedule, ScheduleSlots) && CellsMark(schedule, list)
    requires slot in ScheduleSlots && day in WeekDays
    requires DayName(appt.date) == Some(day) && ClosestSlot(ParseHour(appt.time)) == Some(slot)
    ensures IsGrid(next, ScheduleSlots) && CellsMark(next, list + [appt])
  {
    next := schedule;
    if schedule[slot][day] == "" {
      next := schedule[slot := schedule[slot][day := "Booked"]];
    }
    BookedByAppendCell(list, appt, slot, day);
    MarkedCellBooks(schedule, next, slot, day, list, appt);
  }

  /** Writing "Booked" into the cell that `appt` adds to the booked ones,
      when it is empty, leaves a grid that marks `list + [appt]`. */
  lemma MarkedCellBooks(schedule: map<string, map<string, string>>, next: map<string, map<string, string>>,
                        slot: string, day: string, list: seq<Appointment>, appt: Appointment)
    requires IsGrid(schedule, ScheduleSlots) && CellsMark(schedule, list)
    requires slot in schedule && day in schedule[slot]
    requires next == if schedule[slot][day] == "" then schedule[slot := schedule[slot][day := "Booked"]] else schedule
    requires forall s, d :: BookedBy(list + [appt], s, d) <==> BookedBy(list, s, d) || (s == slot && d == day)
    ensures IsGrid(next, ScheduleSlots) && CellsMark(next, list + [appt])
  {
    WriteKeepsGrid(schedule, next, slot, day, ScheduleSlots);
    WriteBooksCell(schedule, next, slot, day, (s, d) => BookedBy(list, s, d), (s, d) => BookedBy(list + [appt], s, d));
  }

  /** Writing "Booked" into an empty cell, when that cell is the one newly
      booked, keeps every cell in step with the bookings. */
  lemma WriteBooksCell(schedule: map<string, map<string, string>>, next: map<string, map<string, string>>,
                       slot: string, day: string, before: (string, string) -> bool, after: (string, string) -> bool)
    requires forall s, d :: s in schedule && d in schedule[s] ==> schedule[s][d] == if before(s, d) then "Booked" else ""
    requires forall s, d :: after(s, d) <==> before(s, d) || (s == slot && d == day)
    requires slot in schedule && day in schedule[slot]
    requires next == if schedule[slot][day] == "" then schedule[slot := schedule[slot][day := "Booked"]] else schedule
    ensures forall s, d :: s in next && d in next[s] ==> next[s][d] == if after(s, d) then "Booked" else ""
  {
    forall s, d | s in next && d in next[s]
      ensures next[s][d] == if after(s, d) then "Booked" else ""
    {
      if s != slot || d != day {
        assert next[s][d] == schedule[s][d];
      }
    }
  }

  /** Writing one existing cell keeps the rows and the columns of the grid. */
  lemma WriteKeepsGrid(schedule: map<string, map<string, string>>, next: map<string, map<string, string>>,
                       slot: string, day: string, slots: seq<string>)
    requires IsGrid(schedule, slots)
    requires slot in schedule && day in schedule[slot]
    requires next == if schedule[slot][day] == "" then schedule[slot := schedule[slot][day := "Booked"]] else schedule
    ensures IsGrid(next, slots)
  {
  }

  /** Appending an appointment books exactly one more cell: the one of its
      column and row. */
  lemma BookedByAppendCell(list: seq<Appointment>, appt: Appointment, slot: string, day: string)
    requires Marks(appt, slot, day)
    ensures forall s, d :: BookedBy(list + [appt], s, d) <==> BookedBy(list, s, d) || (s == slot && d == day)
  {
    BookedByAppend(list, appt);
  }

  /** An appointment without a column or a row leaves the grid as it was. */
  lemma UnmarkedKeepsCells(schedule: map<string, map<string, string>>, list: seq<Appointment>, appt: Appointment)
    requires CellsMark(schedule, list)
    requires DayName(appt.date).None? || ClosestSlot(ParseHour(appt.time)).None?
    ensures CellsMark(schedule, list + [appt])
  {
    BookedByAppend(list, appt);
    forall s, d | s in schedule && d in schedule[s]
      ensures schedule[s][d] == if BookedBy(list + [appt], s, d) then "Booked" else ""
    {
      assert !Marks(appt, s, d);
    }
  }

  lemma BookedByAppend(list: seq<Appointment>, appt: Appointment)
    ensures forall s, d :: BookedBy(list + [appt], s, d) <==> BookedBy(list, s, d) || Marks(appt, s, d)
  {
    forall s, d ensures BookedBy(list + [appt], s, d) <==> BookedBy(list, s, d) || Marks(appt, s, d) {
      if BookedBy(list + [appt], s, d) {
        var a :| a in list + [appt] && Marks(a, s, d);
        assert a in list || a == appt;
      }
      if Marks(appt, s, d) {
        assert appt in list + [appt];
      }
      if BookedBy(list, s, d) {
        var a :| a in list && Marks(a, s, d);
        assert a in list + [appt];
      }
    }
  }

  // ---------------------------------------------------------------------------
  // The page

  /** The computed key figures (the static occupancy card and the display
      texts are not modelled). The average service time is the corrected
      figure; the page's own computation is `AvgServiceTimeAsWritten`. */
  datatype Kpis = Kpis(todaysRevenue: int, todaysCompletedCount: int, todaysBookings: int,
                       avgServiceTime: int, completedCount: int)

  /** The figures computed from a loaded list: today's completed revenue and
      count, today's non-cancelled bookings, the average service time and
      the number of completed services. */
  function ComputeKpis(appointments: seq<Appointment>, today: int): (k: Kpis)
    ensures k.todaysCompletedCount <= k.todaysBookings
    ensures k.todaysRevenue == WeeklyRevenue(appointments, today)[6].revenue
    ensures k.todaysBookings <= |appointments| && k.completedCount <= |appointments|
    ensures AvgServiceTimeAsWritten(appointments).Some? ==> AvgServiceTimeAsWritten(appointments) == Some(k.avgServiceTime)
  {
    TodaysFigures(appointments, today);
    TodaysRevenueIsLastBar(appointments, today);
    AvgAgreesWhenDefined(appointments);
    Kpis(TodaysRevenue(appointments, today), |TodaysCompleted(appointments, today)|,
         |TodaysAppointments(appointments, today)|, AvgServiceTime(appointments),
         |CompletedAppointments(appointments)|)
  }

  class DashboardPage {
    var isLoading: bool
    var kpis: Option<Kpis>
    var chartData: seq<DayBar>
    var schedule: map<string, map<string, string>>

    /** First render: a spinner, placeholder figures, an empty chart and grid. */
    constructor ()
      ensures isLoading && kpis == None && chartData == [] && schedule == map[]
    {
      isLoading := true;
      kpis := None;
      chartData := [];
      schedule := map[];
    }

    /** The mount effect. A stored text that does not parse, or that parses
        to something other than a list, throws before any update, and only the
        spinner is cleared; otherwise the figures, the chart and the grid are
        computed from the stored list (or the seed list when nothing is stored). */
    method RunEffect(stored: StoredValue, today: int)
      modifies this
      ensures !isLoading
      ensures LoadedAppointments(stored).None? ==>
                kpis == old(kpis) && chartData == old(chartData) && schedule == old(schedule)
      ensures LoadedAppointments(stored).Some? ==>
                var loaded := LoadedAppointments(stored).value;
                && kpis == Some(ComputeKpis(loaded, today))
                && chartData == WeeklyRevenue(loaded, today)
                && IsGrid(schedule, ScheduleSlots)
                && forall s, d :: s in schedule && d in schedule[s] ==>
                     schedule[s][d] == if Booked(loaded, today, s, d) then "Booked" else ""
    {
      var loaded := LoadedAppointments(stored);
      if loaded.Some? {
        kpis := Some(ComputeKpis(loaded.value, today));
        chartData := WeeklyRevenue(loaded.value, today);
        schedule := BuildSchedule(loaded.value, today);
      }
      isLoading := false;
    }
  }
}
