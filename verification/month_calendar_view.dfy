/**
 * The phone's month view `CalendarView` (CalendarView.swift): the grid of day
 * views laid out by `CalendarGrid`, the position of the current-day indicator,
 * the hourly `updateCurrentDay` refresh and the per-day lookups of
 * `defaultDayView`.
 */
module MonthCalendarView {
  import opened Clock
  import opened BooleanUnion
  import opened EventKitInfo
  import StaticCalendar
  import WrapGrid

  const NumberOfColumns: nat := 7

  /** The number of `false` values `defaultDayView` appends to `calorieDays` before indexing it. */
  const CaloriePadding: nat := 72

  /**
   * `numberOfRows` as written: `daysInMonth / 7 + 1`. It is enough for the days
   * alone but does not count the leading blank cells (see `LastDayHiddenAsWritten`).
   */
  function NumberOfRowsAsWritten(daysInMonth: nat): (rows: nat)
    ensures daysInMonth < rows * NumberOfColumns
    ensures (rows - 1) * NumberOfColumns <= daysInMonth
  {
    daysInMonth / NumberOfColumns + 1
  }

  /**
   * The row count the grid needs: enough rows of 7 for the leading blank cells
   * and every day, as `WrapGridView` computes it.
   */
  function NumberOfRows(offset: nat, daysInMonth: nat): (rows: nat)
    ensures offset + daysInMonth <= rows * NumberOfColumns
    ensures offset + daysInMonth > 0 ==> (rows - 1) * NumberOfColumns < offset + daysInMonth
  {
    WrapGrid.NumberOfRows(offset + daysInMonth, NumberOfColumns)
  }

  /**
   * `CalendarGrid` shows cell `index` of `cellCount` cells when some row below
   * `rows` and some column below 7 address it, and the index exists.
   */
  ghost predicate Displayed(cellCount: nat, rows: nat, index: nat)
  {
    exists row: nat, column: nat ::
      row < rows && column < NumberOfColumns && SlotIndex(row, column) == index && index < cellCount
  }

  /** `rowIndex * numberOfColumns + columnIndex`: the cell a grid slot addresses. */
  function SlotIndex(row: nat, column: nat): nat
  {
    row * NumberOfColumns + column
  }

  /** A cell is displayed exactly when it exists and fits in `rows` full rows. */
  lemma DisplayedIff(cellCount: nat, rows: nat, index: nat)
    ensures Displayed(cellCount, rows, index) <==> index < cellCount && index < rows * NumberOfColumns
  {
    if Displayed(cellCount, rows, index) {
      var row: nat, column: nat :| row < rows && column < NumberOfColumns
                                   && SlotIndex(row, column) == index && index < cellCount;
      WrapGrid.EarlierRowSmallerIndex(NumberOfColumns, row, column, rows, 0);
    }
    if index < cellCount && index < rows * NumberOfColumns {
      var row, column := index / NumberOfColumns, index % NumberOfColumns;
      WrapGrid.EarlierRowSmallerIndex(NumberOfColumns, rows, 0, row, column);
      assert SlotIndex(row, column) == index;
    }
  }

  /**
   * With the row count as written, a 31-day month whose first day falls in the
   * sixth column (offset 5) has 36 cells in 5 rows of 7: day 31 is not shown,
   * and the current-day indicator of day 31 sits on row 5, below the grid.
   */
  lemma LastDayHiddenAsWritten()
    ensures NumberOfRowsAsWritten(31) == 5
    ensures !Displayed(5 + 31, NumberOfRowsAsWritten(31), 5 + 31 - 1)
    ensures CurrentDayPosition(31, 5).0 == NumberOfRowsAsWritten(31)
  {
    DisplayedIff(5 + 31, NumberOfRowsAsWritten(31), 5 + 31 - 1);
  }

  /** With the row count that counts the offset, the cell of every day is shown. */
  lemma EveryDayDisplayed(offset: nat, daysInMonth: nat, dayOfMonth: int)
    requires 1 <= dayOfMonth <= daysInMonth
    ensures Displayed(offset + daysInMonth, NumberOfRows(offset, daysInMonth), offset + dayOfMonth - 1)
  {
    DisplayedIff(offset + daysInMonth, NumberOfRows(offset, daysInMonth), offset + dayOfMonth - 1);
  }

  /**
   * `calculateCurrentDayPosition` for the leading offset `offset`: the row and
   * column of the cell `currentDay + offset - 1`.
   */
  function CurrentDayPosition(currentDay: DayOfMonth, offset: nat): (position: (nat, nat))
    ensures position.1 < NumberOfColumns
    ensures position.0 * NumberOfColumns + position.1 == currentDay + offset - 1
  {
    var adjustedDay := currentDay + offset - 1;
    (adjustedDay / NumberOfColumns, adjustedDay % NumberOfColumns)
  }

  /**
   * The indicator lands on the cell `fullMonthContent` gives the current day,
   * and that cell is on a row the grid shows once the rows count the offset.
   */
  lemma CurrentDayOnItsCell(currentDay: DayOfMonth, weekdayOfFirstDay: Weekday, firstWeekday: Weekday, daysInMonth: nat)
    requires currentDay <= daysInMonth
    ensures var offset := StaticCalendar.LeadingOffset(weekdayOfFirstDay, firstWeekday);
            var position := CurrentDayPosition(currentDay, offset);
            && position.0 * NumberOfColumns + position.1 == offset + currentDay - 1
            && position.0 < NumberOfRows(offset, daysInMonth)
  {
    var offset := StaticCalendar.LeadingOffset(weekdayOfFirstDay, firstWeekday);
    var position := CurrentDayPosition(currentDay, offset);
    WrapGrid.EarlierRowSmallerIndex(NumberOfColumns, NumberOfRows(offset, daysInMonth), 0, position.0, position.1);
  }

  /** `shouldFillGreen`: the goal flag of `day`, `false` outside `goalDays`. */
  function ShouldFillGreen(goalDays: seq<bool>, day: int): (r: bool)
    ensures r <==> At(goalDays, day - 1)
    ensures r ==> 1 <= day <= |goalDays|
  {
    var goalDayIndex := day - 1;
    goalDayIndex >= 0 && goalDayIndex < |goalDays| && goalDays[goalDayIndex]
  }

  /**
   * `shouldFillBlue`: `calorieDays` padded with 72 `false` values, indexed at
   * `dayOfMonth - 1`; the index traps past the padding.
   */
  function ShouldFillBlue(calorieDays: seq<bool>, dayOfMonth: int): (r: bool)
    requires 1 <= dayOfMonth <= |calorieDays| + CaloriePadding
    ensures r == At(calorieDays, dayOfMonth - 1)
  {
    var caloriesWithPadding := calorieDays + seq(CaloriePadding, _ => false);
    caloriesWithPadding[dayOfMonth - 1]
  }

  /** Every day of any month (at most 31 days) is in bounds of the padded calorie array. */
  lemma PaddingCoversAnyMonth(calorieDays: seq<bool>, dayOfMonth: int)
    requires 1 <= dayOfMonth <= 31
    ensures 1 <= dayOfMonth <= |calorieDays| + CaloriePadding
    ensures dayOfMonth > |calorieDays| ==> !ShouldFillBlue(calorieDays, dayOfMonth)
  {
  }

  /** The events of `eventDays` that start on the day holding `date`, in their order. */
  function EventsOnDay(eventDays: seq<Event>, date: int): (r: seq<Event>)
    ensures |r| <= |eventDays|
    ensures forall e :: e in r <==> e in eventDays && StartOfDay(e.startDate) == StartOfDay(date)
  {
    if eventDays == [] then []
    else
      var rest := EventsOnDay(eventDays[1..], date);
      assert forall e :: e in eventDays <==> e == eventDays[0] || e in eventDays[1..];
      if StartOfDay(eventDays[0].startDate) == StartOfDay(date) then [eventDays[0]] + rest else rest
  }

  /** What `defaultDayView` shows for one day. */
  datatype DayView = DayView(
    date: int,
    dayOfMonth: int,
    isToday: bool,
    events: seq<Event>,
    shouldFillBlue: bool,
    isPast: bool,
    shouldFillGreen: bool)

  /** A grid cell: the clear `defaultView` or a day view. */
  datatype GridCell = Clear | DayCell(view: DayView)

  /** `defaultDayView(date:dayOfMonth:isToday:blockWidth:)`, with `now` the current instant. */
  function DefaultDayView(date: int, dayOfMonth: int, isToday: bool, now: int,
                          eventDays: seq<Event>, goalDays: seq<bool>, calorieDays: seq<bool>): (v: DayView)
    requires 1 <= dayOfMonth <= |calorieDays| + CaloriePadding
    ensures v.date == date && v.dayOfMonth == dayOfMonth && v.isToday == isToday
    ensures forall e :: e in v.events <==> e in eventDays && StartOfDay(e.startDate) == StartOfDay(date)
    ensures v.shouldFillBlue == At(calorieDays, dayOfMonth - 1)
    ensures v.shouldFillGreen == At(goalDays, dayOfMonth - 1)
    ensures v.isPast <==> date < StartOfDay(now)
  {
    StaticCalendar.PastMeansBeforeToday(date, now);
    DayView(date, dayOfMonth, isToday, EventsOnDay(eventDays, date),
            ShouldFillBlue(calorieDays, dayOfMonth),
            StaticCalendar.IsDateInPast(date, now),
            ShouldFillGreen(goalDays, dayOfMonth))
  }

  /**
   * `fullMonthContent(blockWidth:)`: `offset` clear cells, then the view of
   * day `k + 1`, dated `k` days after the month start, at position `offset + k`.
   * The month's day count must stay within the padded calorie array.
   */
  method FullMonthContent(monthStart: int, daysInMonth: nat, weekdayOfFirstDay: Weekday, firstWeekday: Weekday,
                          now: int, eventDays: seq<Event>, goalDays: seq<bool>, calorieDays: seq<bool>)
    returns (dayViews: seq<GridCell>)
    requires daysInMonth <= |calorieDays| + CaloriePadding
    ensures var offset := StaticCalendar.LeadingOffset(weekdayOfFirstDay, firstWeekday);
            && |dayViews| == offset + daysInMonth
            && (forall i :: 0 <= i < offset ==> dayViews[i] == Clear)
            && (forall k :: 0 <= k < daysInMonth ==>
                  var date := monthStart + k * Day;
                  dayViews[offset + k] ==
                    DayCell(DefaultDayView(date, k + 1, StaticCalendar.IsDateInToday(date, now), now,
                                       eventDays, goalDays, calorieDays)))
  {
    var offset := StaticCalendar.LeadingOffset(weekdayOfFirstDay, firstWeekday);
    dayViews := [];
    for i := 0 to offset
      invariant |dayViews| == i
      invariant forall j :: 0 <= j < i ==> dayViews[j] == Clear
    {
      dayViews := dayViews + [Clear];
    }
    for day := 0 to daysInMonth
      invariant |dayViews| == offset + day
      invariant forall j :: 0 <= j < offset ==> dayViews[j] == Clear
      invariant forall k :: 0 <= k < day ==>
                  var date := monthStart + k * Day;
                  dayViews[offset + k] ==
                    DayCell(DefaultDayView(date, k + 1, StaticCalendar.IsDateInToday(date, now), now,
                                       eventDays, goalDays, calorieDays))
    {
      var currentDate := monthStart + day * Day;
      var isToday := StaticCalendar.IsDateInToday(currentDate, now);
      dayViews := dayViews + [DayCell(DefaultDayView(currentDate, day + 1, isToday, now, eventDays, goalDays, calorieDays))];
    }
  }

  /** The view's mutable state: the day shown as current and that day's goal mark (`hasContributionToday`, read from `goalDays`). */
  class CalendarViewState {
    var currentDay: DayOfMonth
    var hasContributionToday: bool
    var goalDays: seq<bool>

    constructor (currentDay: DayOfMonth, hasContributionToday: bool, goalDays: seq<bool>)
      ensures this.currentDay == currentDay
      ensures this.hasContributionToday == hasContributionToday
      ensures this.goalDays == goalDays
    {
      this.currentDay := currentDay;
      this.hasContributionToday := hasContributionToday;
      this.goalDays := goalDays;
    }

    /**
     * `updateCurrentDay`, with `newDay` the day component of the current date:
     * nothing changes on the same day; on a new day `currentDay` moves to it and
     * `hasContributionToday` becomes that day's goal flag.
     */
    method UpdateCurrentDay(newDay: DayOfMonth)
      modifies this`currentDay, this`hasContributionToday
      ensures newDay == old(currentDay) ==>
                currentDay == old(currentDay) && hasContributionToday == old(hasContributionToday)
      ensures newDay != old(currentDay) ==>
                currentDay == newDay && hasContributionToday == At(goalDays, newDay - 1)
    {
      if newDay != currentDay {
        currentDay := newDay;
        hasContributionToday := (currentDay - 1) < |goalDays| && goalDays[currentDay - 1];
      }
    }
  }
}
