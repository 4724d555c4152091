/** Civil dates, the date arithmetic of the standard library, and the budget periods built on it. */
module Calendar {
  /** A wall-clock instant in nanoseconds; day 0 is the first of January of year 0. */
  type Time = int

  const DAY: int := 86_400_000_000_000

  function DayOf(t: Time): int {
    t / DAY
  }

  function ClockOf(t: Time): nat {
    t % DAY
  }

  predicate IsLeap(year: int) {
    year % 4 == 0 && (year % 100 != 0 || year % 400 == 0)
  }

  function DaysBeforeYear(year: int): int {
    365 * year + (year + 3) / 4 - (year + 99) / 100 + (year + 399) / 400
  }

  /** Days of a common year before its month-th month, counted from 0. */
  function DaysBeforeMonth(month: int): int
    requires 0 <= month < 12
  {
    [0, 31, 59, 90, 120, 151, 181, 212, 243, 273, 304, 334][month]
  }

  /** The first day of a month; months are numbered 12 * year + month, so month overflow needs no case. */
  function MonthStart(m: int): int {
    DaysBeforeYear(m / 12) + DaysBeforeMonth(m % 12) + if m % 12 >= 2 && IsLeap(m / 12) then 1 else 0
  }

  lemma YearLength(year: int)
    ensures DaysBeforeYear(year + 1) == DaysBeforeYear(year) + (if IsLeap(year) then 366 else 365)
  {
    assert (year + 4) / 4 == (year + 3) / 4 + if year % 4 == 0 then 1 else 0;
    assert (year + 100) / 100 == (year + 99) / 100 + if year % 100 == 0 then 1 else 0;
    assert (year + 400) / 400 == (year + 399) / 400 + if year % 400 == 0 then 1 else 0;
    assert year % 400 == 0 ==> year % 100 == 0;
    assert year % 100 == 0 ==> year % 4 == 0;
  }

  lemma MonthLength(m: int)
    ensures 28 <= MonthStart(m + 1) - MonthStart(m) <= 31
  {
    if m % 12 == 11 {
      YearLength(m / 12);
      assert (m + 1) / 12 == m / 12 + 1 && (m + 1) % 12 == 0;
    } else {
      assert (m + 1) / 12 == m / 12 && (m + 1) % 12 == m % 12 + 1;
    }
  }

  lemma {:induction false} MonthStartMonotone(a: int, b: int)
    requires a <= b
    ensures MonthStart(a) + 28 * (b - a) <= MonthStart(b)
    decreases b - a
  {
    hide MonthStart;
    if a < b {
      MonthLength(b - 1);
      MonthStartMonotone(a, b - 1);
    }
  }

  function MonthSearch(day: int, m: int): (r: int)
    ensures MonthStart(r) <= day < MonthStart(r + 1)
    decreases if day < MonthStart(m) then MonthStart(m) - day else day - MonthStart(m)
  {
    hide MonthStart;
    MonthLength(m - 1);
    MonthLength(m);
    if day < MonthStart(m) then
      if MonthStart(m - 1) <= day then m - 1 else MonthSearch(day, m - 1)
    else if MonthStart(m + 1) <= day then MonthSearch(day, m + 1)
    else m
  }

  /** The month a day falls in. */
  function MonthOf(day: int): (m: int)
    ensures MonthStart(m) <= day < MonthStart(m + 1)
  {
    MonthSearch(day, day / 31)
  }

  lemma MonthOfUnique(day: int, m: int)
    requires MonthStart(m) <= day < MonthStart(m + 1)
    ensures MonthOf(day) == m
  {
    hide MonthStart;
    var n := MonthOf(day);
    if n < m {
      MonthStartMonotone(n + 1, m);
    } else if m < n {
      MonthStartMonotone(m + 1, n);
    }
  }

  /** The instant at a day of a month; a day past the month's end, or before its start, spills over. */
  function Date(month: int, day: int, clock: int): Time {
    (MonthStart(month) + day - 1) * DAY + clock
  }

  /** Calendar addition: shift the month and the day of the month, then let the date spill over. */
  function AddDate(t: Time, months: int, days: int): Time {
    var m := MonthOf(DayOf(t));
    Date(m + months, DayOf(t) - MonthStart(m) + 1 + days, ClockOf(t))
  }

  function FirstOfMonth(t: Time): Time {
    Date(MonthOf(DayOf(t)), 1, 0)
  }

  const MIN_PERIOD_START_DAY: int := 1
  const MAX_PERIOD_START_DAY: int := 28

  predicate ValidPeriodStartDay(d: int) {
    MIN_PERIOD_START_DAY <= d <= MAX_PERIOD_START_DAY
  }

  function ClampPeriodStartDay(d: int): int {
    if ValidPeriodStartDay(d) then d else MIN_PERIOD_START_DAY
  }

  datatype Window = Window(start: Time, end: Time)

  /** The half-open window of the budget period a key names. */
  function PeriodWindow(key: Time, startDay: int): Window {
    var start := AddDate(FirstOfMonth(key), 0, ClampPeriodStartDay(startDay) - 1);
    Window(start, AddDate(start, 1, 0))
  }

  /** The key of the period an instant falls in. */
  function PeriodOf(t: Time, startDay: int): Time {
    FirstOfMonth(AddDate(t, 0, -(ClampPeriodStartDay(startDay) - 1)))
  }

  /** The key of a month: its first instant. */
  function KeyOf(m: int): Time {
    MonthStart(m) * DAY
  }

  lemma KeyOfMonth(m: int)
    ensures DayOf(KeyOf(m)) == MonthStart(m) && ClockOf(KeyOf(m)) == 0
    ensures MonthOf(MonthStart(m)) == m
    ensures FirstOfMonth(KeyOf(m)) == KeyOf(m)
  {
    hide MonthStart;
    MonthLength(m);
    MonthOfUnique(MonthStart(m), m);
  }

  lemma KeysIncrease(a: int, b: int)
    ensures a < b <==> KeyOf(a) < KeyOf(b)
  {
    hide MonthStart;
    if a < b {
      MonthStartMonotone(a, b);
    } else {
      MonthStartMonotone(b, a);
    }
  }

  /** The first instant of the period named after month m. */
  function WindowStart(m: int, startDay: int): Time {
    (MonthStart(m) + ClampPeriodStartDay(startDay) - 1) * DAY
  }

  lemma WindowStartsIncrease(a: int, b: int, startDay: int)
    requires a < b
    ensures WindowStart(a, startDay) < WindowStart(b, startDay)
  {
    hide MonthStart;
    MonthStartMonotone(a, b);
  }

  /** A period runs from its start day in its own month to the day before it in the next. */
  lemma WindowOfMonth(m: int, startDay: int)
    ensures PeriodWindow(KeyOf(m), startDay) == Window(WindowStart(m, startDay), WindowStart(m + 1, startDay))
  {
    hide MonthStart;
    KeyOfMonth(m);
    var d := ClampPeriodStartDay(startDay);
    var start := AddDate(KeyOf(m), 0, d - 1);
    assert start == WindowStart(m, startDay);
    assert DayOf(start) == MonthStart(m) + d - 1 && ClockOf(start) == 0;
    MonthLength(m);
    MonthOfUnique(DayOf(start), m);
  }

  lemma PeriodOfMonth(t: Time, startDay: int)
    ensures PeriodOf(t, startDay) == KeyOf(MonthOf(DayOf(t) - (ClampPeriodStartDay(startDay) - 1)))
  {
    hide MonthStart;
    var d := ClampPeriodStartDay(startDay);
    var shifted := AddDate(t, 0, -(d - 1));
    assert shifted == (DayOf(t) - (d - 1)) * DAY + ClockOf(t);
    assert DayOf(shifted) == DayOf(t) - (d - 1);
  }

  /** Filing an instant under a key and finding it in the key's window are the same thing, for every start day. */
  lemma PeriodOfIffInWindow(t: Time, key: Time, startDay: int)
    requires key == FirstOfMonth(key)
    ensures PeriodOf(t, startDay) == key
       <==> PeriodWindow(key, startDay).start <= t < PeriodWindow(key, startDay).end
  {
    hide MonthStart;
    var m := MonthOf(DayOf(key));
    assert key == KeyOf(m);
    WindowOfMonth(m, startDay);
    PeriodOfMonth(t, startDay);
    var day := DayOf(t) - (ClampPeriodStartDay(startDay) - 1);
    KeysIncrease(m, MonthOf(day));
    KeysIncrease(MonthOf(day), m);
    if MonthStart(m) <= day < MonthStart(m + 1) {
      MonthOfUnique(day, m);
    }
    assert t == DayOf(t) * DAY + ClockOf(t);
    assert MonthStart(m) <= day < MonthStart(m + 1) <==> WindowStart(m, startDay) <= t < WindowStart(m + 1, startDay);
  }

  /** The period after a key starts where the key's own period ends. */
  lemma WindowsAbut(key: Time, startDay: int)
    ensures PeriodWindow(AddDate(FirstOfMonth(key), 1, 0), startDay).start == PeriodWindow(key, startDay).end
    ensures PeriodWindow(key, startDay).start < PeriodWindow(key, startDay).end
  {
    hide MonthStart;
    var m := MonthOf(DayOf(key));
    KeyOfMonth(m);
    KeyOfMonth(m + 1);
    WindowOfMonth(m, startDay);
    WindowOfMonth(m + 1, startDay);
    WindowStartsIncrease(m, m + 1, startDay);
    hide WindowStart;
    MonthLength(m);
    AddDateShifts(m, 0, 0, 1, 0);
    hide KeyOf, AddDate;
    assert PeriodWindow(key, startDay) == PeriodWindow(KeyOf(m), startDay);
  }

  /** Every instant lies in the window of exactly one key: the one it is filed under. */
  lemma PeriodsPartitionTime(t: Time, startDay: int)
    ensures var key := PeriodOf(t, startDay);
      && key == FirstOfMonth(key)
      && PeriodWindow(key, startDay).start <= t < PeriodWindow(key, startDay).end
      && forall other: Time {:trigger PeriodWindow(other, startDay)} ::
           FirstOfMonth(other) == other && PeriodWindow(other,
                                                        startDay).start <= t < PeriodWindow(other, startDay).end ==>
                                                            other == key
  {
    hide MonthStart;
    PeriodOfMonth(t, startDay);
    var m := MonthOf(DayOf(t) - (ClampPeriodStartDay(startDay) - 1));
    KeyOfMonth(m);
    PeriodOfIffInWindow(t, KeyOf(m), startDay);
    forall other: Time | FirstOfMonth(other) == other
           && PeriodWindow(other, startDay).start <= t < PeriodWindow(other, startDay).end
      ensures other == PeriodOf(t, startDay)
    {
      PeriodOfIffInWindow(t, other, startDay);
    }
  }

  /** A period starts on the start day of its month, and on the first for a day no month is sure to have. */
  lemma PeriodStarts(m: int, startDay: int)
    ensures PeriodWindow(KeyOf(m), startDay).start
         == KeyOf(m) + if 1 <= startDay <= 28 then (startDay - 1) * 86_400_000_000_000 else 0
    ensures PeriodWindow(KeyOf(m), startDay).end
         == KeyOf(m + 1) + if 1 <= startDay <= 28 then (startDay - 1) * 86_400_000_000_000 else 0
  {
    hide MonthStart;
    WindowOfMonth(m, startDay);
    hide PeriodWindow;
  }

  /** The months have the lengths they have, February by the Gregorian rule; counting starts with the year 0. */
  lemma MonthDays(m: int)
    ensures MonthStart(m + 1) - MonthStart(m) ==
      if m % 12 == 1 then
        if m / 12 % 4 == 0 && (m / 12 % 100 != 0 || m / 12 % 400 == 0) then 29 else 28
      else if m % 12 == 3 || m % 12 == 5 || m % 12 == 8 || m % 12 == 10 then 30
      else 31
    ensures MonthStart(0) == 0
  {
    if m % 12 == 11 {
      YearLength(m / 12);
      assert (m + 1) / 12 == m / 12 + 1 && (m + 1) % 12 == 0;
    } else {
      assert (m + 1) / 12 == m / 12 && (m + 1) % 12 == m % 12 + 1;
    }
  }

  /**
   * Adding months and days to a date of some month shifts the month, keeps the day of it, then adds the days; a day the
   * month does not have spills into the next one.
   */
  lemma AddDateShifts(m: int, day: int, clock: int, months: int, days: int)
    requires 0 <= day < MonthStart(m + 1) - MonthStart(m) && 0 <= clock < 86_400_000_000_000
    ensures AddDate(KeyOf(m) + day * 86_400_000_000_000 + clock, months, days)
         == KeyOf(m + months) + (day + days) * 86_400_000_000_000 + clock
  {
    hide MonthStart;
    var t := KeyOf(m) + day * DAY + clock;
    assert t == (MonthStart(m) + day) * DAY + clock;
    assert DayOf(t) == MonthStart(m) + day && ClockOf(t) == clock;
    MonthOfUnique(DayOf(t), m);
  }
}
