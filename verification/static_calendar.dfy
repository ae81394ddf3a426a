/**
 * `CalendarStaticView` (View/CalendarView.swift): the month grid of day cells.
 * The grid starts with one blank cell per weekday column before the month's
 * first day, followed by one day block per day of the month. Each block reads
 * the day's health flag, busy triple and holiday mark through bounded lookups.
 */
module StaticCalendar {
  import opened Outcomes
  import opened Clock
  import opened BooleanUnion
  import opened EventKitInfo

  /** The values a `DefaultDayBlock` is built from. */
  datatype DayBlock = DayBlock(
    dayOfMonth: int,
    isToday: bool,
    isPast: bool,
    isComplete: bool,
    busy: BusyPeriod,
    isHoliday: bool)

  /** A grid cell: a clear spacer or a day block. */
  datatype Cell = Blank | DayCell(block: DayBlock)

  /**
   * The number of blank cells before day 1:
   * `(weekdayOfFirstDay - firstWeekday + 7) % 7`. Column `c` of the grid shows
   * weekday `(firstWeekday - 1 + c) % 7 + 1`, so day 1 lands in the column of
   * its own weekday.
   */
  function LeadingOffset(weekdayOfFirstDay: Weekday, firstWeekday: Weekday): (offset: int)
    ensures 0 <= offset < 7
    ensures (firstWeekday - 1 + offset) % 7 + 1 == weekdayOfFirstDay
  {
    (weekdayOfFirstDay - firstWeekday + 7) % 7
  }

  /**
   * `startingDayOfMonth` (EventKitInfo.swift) is the leading offset of a grid
   * whose first column is Sunday: day 1 lands in the column of its own weekday.
   */
  lemma StartingDayIsSundayOffset(m: CalendarMonth)
    ensures StartingDayOfMonth(m) == LeadingOffset(m.firstDayWeekday, 1)
    ensures (StartingDayOfMonth(m) % 7) + 1 == m.firstDayWeekday
  {
  }

  /** `isDateInPast`: the day holding `date` starts before the day holding `now`. */
  predicate IsDateInPast(date: int, now: int)
  {
    StartOfDay(date) < StartOfDay(now)
  }

  /** `calendar.isDateInToday(date)`, with `now` the current instant. */
  predicate IsDateInToday(date: int, now: int)
  {
    StartOfDay(date) == StartOfDay(now)
  }

  /** Two distinct midnights are at least a whole day apart. */
  lemma MidnightsApart(a: int, b: int)
    requires a % Day == 0 && b % Day == 0 && a < b
    ensures a + Day <= b
  {
    var qa, qb := a / Day, b / Day;
    assert a == qa * Day && b == qb * Day;
    assert qa < qb;
    assert (qa + 1) * Day <= qb * Day;
  }

  /** A date is in the past exactly when it is before midnight of today; so today is never past. */
  lemma PastMeansBeforeToday(date: int, now: int)
    ensures IsDateInPast(date, now) <==> date < StartOfDay(now)
    ensures IsDateInToday(date, now) ==> !IsDateInPast(date, now)
    ensures !IsDateInPast(now, now)
  {
    if IsDateInPast(date, now) {
      MidnightsApart(StartOfDay(date), StartOfDay(now));
    }
  }

  /**
   * The block for day `dayOfMonth` of the month starting at `monthStart`
   * (the loop body of `fullMonthContent`).
   */
  function DayBlockFor(dayOfMonth: int, monthStart: int, now: int,
                       healthFlags: seq<bool>, busyDays: seq<BusyPeriod>, holidayDates: set<int>): (b: DayBlock)
    ensures b.dayOfMonth == dayOfMonth
    ensures b.isComplete == At(healthFlags, dayOfMonth - 1)
    ensures 0 <= dayOfMonth - 1 < |busyDays| ==> b.busy == busyDays[dayOfMonth - 1]
    ensures dayOfMonth - 1 >= |busyDays| ==> b.busy == NotBusy
    ensures b.isHoliday <==> StartOfDay(monthStart + (dayOfMonth - 1) * Day) in holidayDates
    ensures b.isPast <==> monthStart + (dayOfMonth - 1) * Day < StartOfDay(now)
    ensures !(b.isToday && b.isPast)
  {
    var currentDate := monthStart + (dayOfMonth - 1) * Day;
    var index := dayOfMonth - 1;
    PastMeansBeforeToday(currentDate, now);
    DayBlock(
      dayOfMonth,
      IsDateInToday(currentDate, now),
      IsDateInPast(currentDate, now),
      if 0 <= index < |healthFlags| then healthFlags[index] else false,
      if 0 <= index < |busyDays| then busyDays[index] else NotBusy,
      StartOfDay(currentDate) in holidayDates)
  }

  /**
   * `fullMonthContent`: `offset` blank cells, then the block of every day of
   * `dayRange` (days `1 ..< daysInMonth + 1`; an unavailable range reads as the
   * empty range `1 ..< 1`), day `d` at position `offset + d - 1`.
   */
  method FullMonthContent(monthStart: int, dayRange: Option<nat>, weekdayOfFirstDay: Weekday,
                          firstWeekday: Weekday, now: int,
                          healthFlags: seq<bool>, busyDays: seq<BusyPeriod>, holidayDates: set<int>)
    returns (dayViews: seq<Cell>)
    ensures var offset := LeadingOffset(weekdayOfFirstDay, firstWeekday);
            var days := if dayRange.Some? then dayRange.value else 0;
            && |dayViews| == offset + days
            && (forall i :: 0 <= i < offset ==> dayViews[i] == Blank)
            && (forall d :: 1 <= d <= days ==>
                  dayViews[offset + d - 1] == DayCell(DayBlockFor(d, monthStart, now, healthFlags, busyDays, holidayDates)))
    ensures dayRange.None? ==> forall i :: 0 <= i < |dayViews| ==> dayViews[i] == Blank
  {
    var days := if dayRange.Some? then dayRange.value else 0;
    dayViews := [];
    var offset := LeadingOffset(weekdayOfFirstDay, firstWeekday);
    for i := 0 to offset
      invariant |dayViews| == i
      invariant forall j :: 0 <= j < i ==> dayViews[j] == Blank
    {
      dayViews := dayViews + [Blank];
    }
    for dayOfMonth := 1 to days + 1
      invariant |dayViews| == offset + dayOfMonth - 1
      invariant forall j :: 0 <= j < offset ==> dayViews[j] == Blank
      invariant forall d :: 1 <= d < dayOfMonth ==>
                  dayViews[offset + d - 1] == DayCell(DayBlockFor(d, monthStart, now, healthFlags, busyDays, holidayDates))
    {
      dayViews := dayViews + [DayCell(DayBlockFor(dayOfMonth, monthStart, now, healthFlags, busyDays, holidayDates))];
    }
  }
}
