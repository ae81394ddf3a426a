/**
 * The timeline entries both widget extensions build (HomeWidget/HomeWidget.swift
 * and WatchKitWidget/WatchKitWidget.swift hold identical copies): the day flags
 * read from the store, the month's busy triples and holiday dates, with a fixed
 * fallback when a calendar fetch fails.
 */
module WidgetEntries {
  import opened Outcomes
  import opened Clock
  import opened EventKitInfo

  /** `iOSWidgetEntry` / `WatchWidgetEntry`. */
  datatype Entry = Entry(date: int, flags: seq<bool>, eventDays: seq<BusyPeriod>, holidayDates: set<int>)

  /** A `Timeline` with the `.after(nextUpdate)` reload policy. */
  datatype Timeline = Timeline(entries: seq<Entry>, nextUpdate: int)

  /** How many days the fallback and the placeholder cover (`1...30`). */
  const PlaceholderDays: nat := 30

  /** The widget's reload interval: ten minutes. */
  const ReloadInterval: int := 10 * Minute

  /** The `catch` branch: the stored flags, 30 idle days and no holidays. */
  function FallbackEntry(date: int, storeFlags: seq<bool>): (e: Entry)
    ensures e.date == date && e.flags == storeFlags
    ensures |e.eventDays| == PlaceholderDays
    ensures forall i :: 0 <= i < |e.eventDays| ==> e.eventDays[i] == NotBusy
    ensures e.holidayDates == {}
  {
    Entry(date, storeFlags, seq(PlaceholderDays, _ => NotBusy), {})
  }

  /**
   * The `Task` of `fetchDataForWidget`, given the outcomes of
   * `initializeEventStore()` and `fetchHolidayDatesForCurrentMonth()`: both
   * succeed and their values go into the entry, or the fallback is used. The
   * flags are the stored ones on both paths.
   */
  function EntryFor(date: int, storeFlags: seq<bool>,
                    busyDays: Result<seq<BusyPeriod>, string>, holidays: Result<set<int>, string>): (e: Entry)
    ensures e.date == date && e.flags == storeFlags
    ensures busyDays.Ok? && holidays.Ok? ==> e.eventDays == busyDays.value && e.holidayDates == holidays.value
    ensures busyDays.Err? || holidays.Err? ==> e == FallbackEntry(date, storeFlags)
  {
    match busyDays
    case Err(_) => FallbackEntry(date, storeFlags)
    case Ok(days) =>
      match holidays
      case Err(_) => FallbackEntry(date, storeFlags)
      case Ok(holidayDates) => Entry(date, storeFlags, days, holidayDates)
  }

  /**
   * The holiday fetch comes after the busy-days fetch, so when the busy-days
   * fetch throws, its outcome makes no difference to the entry.
   */
  lemma HolidaysIgnoredAfterBusyFailure(date: int, storeFlags: seq<bool>, error: string,
                                         h1: Result<set<int>, string>, h2: Result<set<int>, string>)
    ensures EntryFor(date, storeFlags, Err(error), h1) == EntryFor(date, storeFlags, Err(error), h2)
  {
  }

  /** `getTimeline`: a single entry, reloaded ten minutes after the entry's date. */
  function GetTimeline(entry: Entry): (t: Timeline)
    ensures t.entries == [entry]
    ensures t.nextUpdate - entry.date == 600
  {
    Timeline([entry], entry.date + ReloadInterval)
  }

  /**
   * `placeholder(in:)`: 30 random flags, 30 random triples and no holidays;
   * `random` stands for the successive `Bool.random()` draws.
   */
  function Placeholder(date: int, random: int -> bool): (e: Entry)
    ensures e.date == date
    ensures |e.flags| == PlaceholderDays && |e.eventDays| == PlaceholderDays
    ensures e.holidayDates == {}
  {
    Entry(date,
          seq(PlaceholderDays, i => random(i)),
          seq(PlaceholderDays, i => BusyPeriod(random(PlaceholderDays + 3 * i),
                                               random(PlaceholderDays + 3 * i + 1),
                                               random(PlaceholderDays + 3 * i + 2))),
          {})
  }
}
