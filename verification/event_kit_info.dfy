/**
 * The busy-period calculator of EventKitInfo.swift. Each day of the month gets
 * a (morning, afternoon, evening) triple; a bucket is busy when some event
 * overlaps it. Events are the ones EventKit returned for the month, held in
 * `EventKitFetcher.eventDays`.
 */
module EventKitInfo {
  import opened Outcomes
  import opened Clock

  /** An event's start and end instants (`EventRepresentable.startDate`, `.endDate`). */
  datatype Event = Event(startDate: int, endDate: int)

  /** One day's `(morning, afternoon, evening)` busy flags. */
  datatype BusyPeriod = BusyPeriod(morning: bool, afternoon: bool, evening: bool)

  const NotBusy: BusyPeriod := BusyPeriod(false, false, false)

  /** The overlap test `startDate < end && endDate > start`. */
  predicate Overlaps(e: Event, start: int, end: int)
  {
    e.startDate < end && e.endDate > start
  }

  /** `events.contains { overlaps }`. */
  function AnyOverlaps(events: seq<Event>, start: int, end: int): (r: bool)
    ensures r <==> exists i :: 0 <= i < |events| && Overlaps(events[i], start, end)
  {
    if events == [] then false
    else if Overlaps(events[0], start, end) then true
    else
      var rest := AnyOverlaps(events[1..], start, end);
      assert rest ==> exists i :: 0 <= i < |events| && Overlaps(events[i], start, end) by {
        if rest {
          var j :| 0 <= j < |events[1..]| && Overlaps(events[1..][j], start, end);
          assert events[j + 1] == events[1..][j];
        }
      }
      rest
  }

  /** Bucket bounds of the day holding `date`: [06:00, 12:00), [12:00, 18:00), [18:00, 23:59:59). */
  function MorningStart(date: int): int { SettingTime(date, 6, 0, 0) }
  function MorningEnd(date: int): int { SettingTime(date, 12, 0, 0) }
  function AfternoonStart(date: int): int { SettingTime(date, 12, 0, 0) }
  function AfternoonEnd(date: int): int { SettingTime(date, 18, 0, 0) }
  function EveningStart(date: int): int { SettingTime(date, 18, 0, 0) }
  function EveningEnd(date: int): int { SettingTime(date, 23, 59, 59) }

  /** `EventKitFetcher.busyPeriods(for:)`: a bucket is busy iff some event overlaps it. */
  function BusyPeriods(events: seq<Event>, date: int): (p: BusyPeriod)
    ensures p.morning <==> exists i :: 0 <= i < |events| && Overlaps(events[i], MorningStart(date), MorningEnd(date))
    ensures p.afternoon <==> exists i :: 0 <= i < |events| && Overlaps(events[i], AfternoonStart(date), AfternoonEnd(date))
    ensures p.evening <==> exists i :: 0 <= i < |events| && Overlaps(events[i], EveningStart(date), EveningEnd(date))
  {
    BusyPeriod(
      AnyOverlaps(events, MorningStart(date), MorningEnd(date)),
      AnyOverlaps(events, AfternoonStart(date), AfternoonEnd(date)),
      AnyOverlaps(events, EveningStart(date), EveningEnd(date)))
  }

  /** Every flag of `p` is also set in `q`. */
  predicate BusyWithin(p: BusyPeriod, q: BusyPeriod)
  {
    (p.morning ==> q.morning) && (p.afternoon ==> q.afternoon) && (p.evening ==> q.evening)
  }

  /**
   * `busyDays` is what `calculateBusyPeriods(for: startDate, range: lower..<upper)`
   * yields: one triple per day of the range, in range order, day `d` being
   * evaluated `d - 1` days after `startDate`.
   */
  ghost predicate IsBusyCalendar(busyDays: seq<BusyPeriod>, events: seq<Event>, startDate: int, lower: int, upper: int)
  {
    && |busyDays| == upper - lower
    && forall k :: 0 <= k < |busyDays| ==> busyDays[k] == BusyPeriods(events, startDate + (lower + k - 1) * Day)
  }

  /** With no events every triple is `(false, false, false)`. */
  lemma NoEventsNoBusy(busyDays: seq<BusyPeriod>, startDate: int, lower: int, upper: int)
    requires IsBusyCalendar(busyDays, [], startDate, lower, upper)
    ensures forall k :: 0 <= k < |busyDays| ==> busyDays[k] == NotBusy
  {
  }

  /** An event that runs across noon marks both the morning and the afternoon of its day. */
  lemma CrossingNoonMarksBoth(events: seq<Event>, date: int, i: int)
    requires 0 <= i < |events|
    requires events[i].startDate < MorningEnd(date) < events[i].endDate
    ensures BusyPeriods(events, date).morning && BusyPeriods(events, date).afternoon
  {
  }

  /** An event that runs across 18:00 marks both the afternoon and the evening of its day. */
  lemma CrossingSixMarksBoth(events: seq<Event>, date: int, i: int)
    requires 0 <= i < |events|
    requires events[i].startDate < AfternoonEnd(date) < events[i].endDate
    ensures BusyPeriods(events, date).afternoon && BusyPeriods(events, date).evening
  {
  }

  /** An event from 09:30 to 10:15 marks the morning of its day and nothing else. */
  lemma MorningEventOnlyMorning(date: int)
    ensures BusyPeriods([Event(SettingTime(date, 9, 30, 0), SettingTime(date, 10, 15, 0))], date)
            == BusyPeriod(true, false, false)
  {
  }

  /** Adding events never clears a busy flag. */
  lemma BusyMonotone(events: seq<Event>, more: seq<Event>, date: int)
    requires forall e :: e in events ==> e in more
    ensures BusyWithin(BusyPeriods(events, date), BusyPeriods(more, date))
  {
    forall start, end | AnyOverlaps(events, start, end)
      ensures AnyOverlaps(more, start, end)
    {
      var i :| 0 <= i < |events| && Overlaps(events[i], start, end);
      assert events[i] in more;
      var j :| 0 <= j < |more| && more[j] == events[i];
    }
  }

  /** A busy calendar over a larger event set is flag-wise at least as busy. */
  lemma BusyCalendarMonotone(b1: seq<BusyPeriod>, b2: seq<BusyPeriod>, events: seq<Event>, more: seq<Event>,
                             startDate: int, lower: int, upper: int)
    requires forall e :: e in events ==> e in more
    requires IsBusyCalendar(b1, events, startDate, lower, upper)
    requires IsBusyCalendar(b2, more, startDate, lower, upper)
    ensures |b1| == |b2|
    ensures forall k :: 0 <= k < |b1| ==> BusyWithin(b1[k], b2[k])
  {
    forall k | 0 <= k < |b1|
      ensures BusyWithin(b1[k], b2[k])
    {
      BusyMonotone(events, more, startDate + (lower + k - 1) * Day);
    }
  }

  /** Whether calendar access was granted, and the error EventKit reported otherwise. */
  datatype CalendarAccess = Granted | Denied(error: Option<string>)

  /** The arguments `initializeEventStore`'s completion handler is called with. */
  datatype Completion = Completion(granted: bool, busyDays: Option<seq<BusyPeriod>>, error: Option<string>)

  /**
   * What EventKit provides for one refresh: the access decision, the start of the
   * current month, its day count, and every event of the device's calendars.
   */
  datatype CalendarQuery = CalendarQuery(
    access: CalendarAccess,
    monthStart: int,
    daysInMonth: nat,
    calendarEvents: seq<Event>)

  /**
   * `store.events(matching: predicateForEvents(withStart: start, end: end, calendars: nil))`:
   * the events of the calendars that overlap `[start, end)`, in calendar order.
   */
  function EventsMatching(calendarEvents: seq<Event>, start: int, end: int): (r: seq<Event>)
    ensures |r| <= |calendarEvents|
    ensures forall e :: e in r <==> e in calendarEvents && Overlaps(e, start, end)
  {
    if calendarEvents == [] then []
    else
      var rest := EventsMatching(calendarEvents[1..], start, end);
      assert forall e :: e in calendarEvents <==> e == calendarEvents[0] || e in calendarEvents[1..];
      if Overlaps(calendarEvents[0], start, end) then [calendarEvents[0]] + rest else rest
  }

  /**
   * The end of `fetchEvents`' window, `date(byAdding: month 1, day -1, to: startDate)`:
   * one month on, one day back, which is midnight at the START of the month's
   * last day, not its end.
   */
  function FetchWindowEnd(monthStart: int, daysInMonth: nat): (end: int)
    ensures end + Day == monthStart + daysInMonth * Day
    ensures 1 <= daysInMonth ==> monthStart <= end
  {
    monthStart + (daysInMonth - 1) * Day
  }

  /**
   * `fetchEvents(completion:)`: `[]` when the window's start or end cannot be
   * computed; otherwise exactly the calendar events overlapping the window.
   */
  function FetchEvents(startDate: Option<int>, endDate: Option<int>, calendarEvents: seq<Event>)
    : (events: seq<Event>)
    ensures startDate.None? || endDate.None? ==> events == []
    ensures startDate.Some? && endDate.Some? ==>
              forall e :: e in events <==> e in calendarEvents && Overlaps(e, startDate.value, endDate.value)
  {
    match (startDate, endDate)
    case (Some(start), Some(end)) => EventsMatching(calendarEvents, start, end)
    case _ => []
  }

  /** The events a granted refresh stores: the fetch over `[monthStart, FetchWindowEnd)`. */
  function MonthEvents(q: CalendarQuery): (events: seq<Event>)
    ensures forall e :: e in events <==>
              e in q.calendarEvents && Overlaps(e, q.monthStart, FetchWindowEnd(q.monthStart, q.daysInMonth))
  {
    FetchEvents(Some(q.monthStart), Some(FetchWindowEnd(q.monthStart, q.daysInMonth)), q.calendarEvents)
  }

  /**
   * An event that starts on the month's last day, at midnight or later, is
   * never fetched, whereas every event overlapping an earlier day of the month is.
   */
  lemma LastDayNotFetched(q: CalendarQuery, e: Event)
    requires 1 <= q.daysInMonth
    requires e in q.calendarEvents
    ensures e.startDate >= q.monthStart + (q.daysInMonth - 1) * Day ==> e !in MonthEvents(q)
    ensures (e.startDate < e.endDate && q.monthStart <= e.startDate < q.monthStart + (q.daysInMonth - 1) * Day)
              ==> e in MonthEvents(q)
  {
  }

  /** Day `k` of a month starting at midnight starts at midnight too. */
  lemma DayStartIsMidnight(monthStart: int, k: nat)
    requires monthStart % Day == 0
    ensures StartOfDay(monthStart + k * Day) == monthStart + k * Day
  {
    var q := monthStart / Day;
    assert monthStart + k * Day == (q + k) * Day;
  }

  /**
   * So the last day's triple never shows its events: a 09:00-10:00 meeting on
   * that day leaves its morning free, though the same event in `eventDays`
   * would mark it.
   */
  lemma LastDayMeetingUnmarked(q: CalendarQuery)
    requires q.monthStart % Day == 0 && 1 <= q.daysInMonth
    requires q.calendarEvents == [Event(q.monthStart + (q.daysInMonth - 1) * Day + 9 * Hour,
                                        q.monthStart + (q.daysInMonth - 1) * Day + 10 * Hour)]
    ensures var lastDay := q.monthStart + (q.daysInMonth - 1) * Day;
            && BusyPeriods(MonthEvents(q), lastDay) == NotBusy
            && BusyPeriods(q.calendarEvents, lastDay).morning
  {
    var lastDay := q.monthStart + (q.daysInMonth - 1) * Day;
    DayStartIsMidnight(q.monthStart, q.daysInMonth - 1);
    assert Overlaps(q.calendarEvents[0], MorningStart(lastDay), MorningEnd(lastDay));
  }

  /** `CalendarMonth`: the weekday of the month's first day and its number of days. */
  datatype CalendarMonth = CalendarMonth(firstDayWeekday: Weekday, daysInMonth: nat)

  /** `startingDayOfMonth`: zero-based weekday of the first day. */
  function StartingDayOfMonth(m: CalendarMonth): (r: int)
    ensures 0 <= r < 7
  {
    m.firstDayWeekday - 1
  }

  class EventKitFetcher {
    /** `static var eventDays`: the events last fetched for the month. */
    var eventDays: seq<Event>

    constructor ()
      ensures eventDays == []
    {
      eventDays := [];
    }

    /** `calculateBusyPeriods(for:range:)`: one triple per day of `lower..<upper`, in order. */
    method CalculateBusyPeriods(startDate: int, lower: int, upper: int) returns (busyDays: seq<BusyPeriod>)
      requires lower <= upper
      ensures IsBusyCalendar(busyDays, eventDays, startDate, lower, upper)
    {
      busyDays := [];
      var day := lower;
      while day < upper
        invariant lower <= day <= upper
        invariant IsBusyCalendar(busyDays, eventDays, startDate, lower, day)
      {
        var currentDate := startDate + (day - 1) * Day;
        busyDays := busyDays + [BusyPeriods(eventDays, currentDate)];
        day := day + 1;
      }
    }

    /**
     * `initializeEventStore(completion:)`: with access, replaces `eventDays` by
     * the month's events and completes with the busy triples of every day of the
     * month; without access, completes with the error and leaves `eventDays`.
     */
    method InitializeEventStore(q: CalendarQuery) returns (c: Completion)
      modifies this`eventDays
      ensures q.access.Granted? ==>
                && eventDays == MonthEvents(q)
                && c.granted && c.error.None? && c.busyDays.Some?
                && IsBusyCalendar(c.busyDays.value, eventDays, q.monthStart, 1, q.daysInMonth + 1)
      ensures q.access.Denied? ==> eventDays == old(eventDays) && c == Completion(false, None, q.access.error)
    {
      match q.access
      case Granted =>
        // The month start is force-unwrapped right after the fetch, so on every
        // path that does not trap it was computable for the fetch as well.
        eventDays := MonthEvents(q);
        var busyDays := CalculateBusyPeriods(q.monthStart, 1, q.daysInMonth + 1);
        c := Completion(true, Some(busyDays), None);
      case Denied(error) =>
        c := Completion(false, None, error);
    }
  }
}
