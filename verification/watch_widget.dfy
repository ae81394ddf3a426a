/**
 * `WatchWidgetProvider` (WatchKitWidget/WatchKitWidget.swift): the watch
 * widget's data source. It only reads the store: the entry carries the flags
 * persisted under "sharedFlags" as they are.
 */
module WatchWidget {
  import opened Outcomes
  import opened EventKitInfo
  import opened SharedStore
  import opened WidgetEntries

  /** `fetchDataForWidget`: the stored flags with the calendar fetches' results or the fallback. */
  function FetchDataForWidget(store: Store, date: int,
                              busyDays: Result<seq<BusyPeriod>, string>, holidays: Result<set<int>, string>)
    : (entry: Entry)
    reads store
    ensures entry.flags == Lookup(store.defaults, SharedFlagsKey)
    ensures busyDays.Ok? && holidays.Ok? ==> entry.eventDays == busyDays.value && entry.holidayDates == holidays.value
    ensures busyDays.Err? || holidays.Err? ==>
              |entry.eventDays| == PlaceholderDays && entry.holidayDates == {}
              && forall i :: 0 <= i < |entry.eventDays| ==> entry.eventDays[i] == NotBusy
  {
    EntryFor(date, Lookup(store.defaults, SharedFlagsKey), busyDays, holidays)
  }

  /** `getTimeline`: one entry with the stored flags, reloaded ten minutes after it. */
  function GetTimeline(store: Store, date: int,
                       busyDays: Result<seq<BusyPeriod>, string>, holidays: Result<set<int>, string>)
    : (timeline: Timeline)
    reads store
    ensures |timeline.entries| == 1
    ensures timeline.entries[0].flags == Lookup(store.defaults, SharedFlagsKey)
    ensures timeline.nextUpdate == date + 600
  {
    WidgetEntries.GetTimeline(FetchDataForWidget(store, date, busyDays, holidays))
  }
}
