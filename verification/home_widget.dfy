/**
 * `iOSWidgetProvider` (HomeWidget/HomeWidget.swift): the phone widget's data
 * source. It may first clear the persisted flags, then reads them and builds
 * the entry.
 */
module HomeWidget {
  import opened Outcomes
  import opened EventKitInfo
  import opened SharedStore
  import opened WidgetEntries

  /**
   * `fetchDataForWidget`, with `shouldClear` the answer of
   * `Health.shared.shouldClearHealthData()`: when set, "sharedFlags" is reset to
   * `[]` before it is read, and the entry's flags are what the read returns.
   */
  method FetchDataForWidget(store: Store, shouldClear: bool, date: int,
                            busyDays: Result<seq<BusyPeriod>, string>, holidays: Result<set<int>, string>)
    returns (entry: Entry)
    modifies store`defaults
    ensures shouldClear ==> store.defaults == old(store.defaults)[SharedFlagsKey := []] && entry.flags == []
    ensures !shouldClear ==>
              store.defaults == old(store.defaults) && entry.flags == Lookup(old(store.defaults), SharedFlagsKey)
    ensures entry == EntryFor(date, Lookup(store.defaults, SharedFlagsKey), busyDays, holidays)
  {
    if shouldClear {
      store.Persist([], SharedFlagsKey);
    }
    var storeFlags := store.Retrieve(SharedFlagsKey);
    entry := EntryFor(date, storeFlags, busyDays, holidays);
  }

  /** `getTimeline`: the fetched entry alone, reloaded ten minutes after it. */
  method GetTimeline(store: Store, shouldClear: bool, date: int,
                     busyDays: Result<seq<BusyPeriod>, string>, holidays: Result<set<int>, string>)
    returns (timeline: Timeline)
    modifies store`defaults
    ensures |timeline.entries| == 1
    ensures timeline.entries[0].flags == (if shouldClear then [] else Lookup(old(store.defaults), SharedFlagsKey))
    ensures timeline.nextUpdate == date + 600
  {
    var entry := FetchDataForWidget(store, shouldClear, date, busyDays, holidays);
    timeline := WidgetEntries.GetTimeline(entry);
  }
}
