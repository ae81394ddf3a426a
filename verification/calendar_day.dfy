/**
 * `CalendarDayView` and `HourRow` (CalendarDayView.swift): the hour-by-hour
 * list of a day, one row per hour from 08 to 23, each listing the events that
 * start in that hour of that day.
 */
module CalendarDay {
  import opened Clock
  import opened EventKitInfo

  /** The rows `ForEach(8..<24)`. */
  const FirstHourRow: int := 8
  const EndHourRow: int := 24

  /** `HourRow.eventOccursDuring`: the event starts in hour `hour` of the day holding `day`. */
  predicate EventOccursDuring(e: Event, hour: int, day: int)
  {
    HourOf(e.startDate) == hour && StartOfDay(e.startDate) == StartOfDay(day)
  }

  /** Midnight plus less than a day stays in that day. */
  lemma WithinDay(midnight: int, t: int)
    requires midnight % Day == 0 && midnight <= t < midnight + Day
    ensures StartOfDay(t) == midnight
  {
    var q := midnight / Day;
    assert midnight == q * Day;
    assert t == q * Day + (t - midnight);
  }

  /** An event occurs during hour `hour` of `day` exactly when it starts in that hour's interval. */
  lemma OccursIffStartsInHour(e: Event, hour: int, day: int)
    requires 0 <= hour < 24
    ensures EventOccursDuring(e, hour, day) <==>
              SettingTime(day, hour, 0, 0) <= e.startDate < SettingTime(day, hour + 1, 0, 0)
  {
    var t := e.startDate;
    var midnight := StartOfDay(day);
    if midnight + hour * Hour <= t < midnight + (hour + 1) * Hour {
      WithinDay(midnight, t);
    }
  }

  /** The events `HourRow(hour:)` lists, in their order. */
  function HourRowEvents(events: seq<Event>, hour: int, day: int): (r: seq<Event>)
    ensures |r| <= |events|
    ensures forall e :: e in r <==> e in events && EventOccursDuring(e, hour, day)
  {
    if events == [] then []
    else
      var rest := HourRowEvents(events[1..], hour, day);
      assert forall e :: e in events <==> e == events[0] || e in events[1..];
      if EventOccursDuring(events[0], hour, day) then [events[0]] + rest else rest
  }

  /**
   * An event is listed in some row of the view exactly when it starts on that
   * day at 08:00 or later; it is then listed in one row only, and its end date
   * plays no part.
   */
  lemma ListedIffStartsFromEight(e: Event, day: int)
    ensures (exists hour :: FirstHourRow <= hour < EndHourRow && EventOccursDuring(e, hour, day)) <==>
              StartOfDay(e.startDate) == StartOfDay(day) && FirstHourRow <= HourOf(e.startDate)
    ensures forall h1, h2 :: EventOccursDuring(e, h1, day) && EventOccursDuring(e, h2, day) ==> h1 == h2
    ensures forall hour, end :: EventOccursDuring(e, hour, day) == EventOccursDuring(Event(e.startDate, end), hour, day)
  {
    if StartOfDay(e.startDate) == StartOfDay(day) && FirstHourRow <= HourOf(e.startDate) {
      assert EventOccursDuring(e, HourOf(e.startDate), day);
    }
  }
}
