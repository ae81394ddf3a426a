/**
 * `WatchCentralViewModel` (WatchKitApp/WatchViewModel.swift): the watch app's
 * view model. Its refresh persists the OR of the fresh health flags and its own
 * phone link's `local`; unlike `CentralViewModel.refreshForWatch` it never reads
 * the previously persisted snapshot.
 */
module WatchCentralView {
  import opened Outcomes
  import opened BooleanUnion
  import opened SharedStore
  import opened EventKitInfo
  import opened DataManagement
  import opened WatchToPhoneLink

  /**
   * The free function `orBooleanArrays` of this file: appends, for each
   * position up to the longer length, the OR of both inputs with missing
   * positions reading as `false`.
   */
  method OrBooleanArrays(first: seq<bool>, second: seq<bool>) returns (resultArray: seq<bool>)
    ensures resultArray == Union(first, second)
  {
    var maxLength := Max(|first|, |second|);
    resultArray := [];
    for i := 0 to maxLength
      invariant |resultArray| == i
      invariant forall j :: 0 <= j < i ==> resultArray[j] == (At(first, j) || At(second, j))
    {
      var value1 := if i < |first| then first[i] else false;
      var value2 := if i < |second| then second[i] else false;
      resultArray := resultArray + [value1 || value2];
    }
    UnionUnique(first, second, resultArray);
  }

  class WatchCentralViewModel {
    var healthFlags: seq<bool>
    var busyDays: seq<BusyPeriod>
    const dataManager: DataManager
    /** The view model's own `WatchToPhone()` delegate (not the shared one). */
    const phone: WatchToPhone

    constructor (dataManager: DataManager, phone: WatchToPhone)
      ensures this.dataManager == dataManager && this.phone == phone
      ensures healthFlags == [] && busyDays == []
    {
      this.dataManager := dataManager;
      this.phone := phone;
      healthFlags := [];
      busyDays := [];
    }

    /**
     * `refresh()`: after the shared refresh, persists `or(store.local, phone.local)`
     * under "sharedFlags" and shows it; the previous snapshot plays no part.
     * Without a day range it returns there, `busyDays` untouched; otherwise
     * `busyDays` gets one triple per day of the month.
     */
    method Refresh(health: Result<seq<bool>, string>, calendar: CalendarQuery, monthStart: int, dayRange: Option<nat>)
      modifies dataManager.store, dataManager.eventKit`eventDays, this`healthFlags, this`busyDays
      ensures healthFlags == Union(dataManager.store.local, phone.local)
      ensures dataManager.store.defaults == old(dataManager.store.defaults)[SharedFlagsKey := healthFlags]
      ensures Lookup(dataManager.store.defaults, SharedFlagsKey) == healthFlags
      ensures health.Ok? ==> dataManager.store.local == health.value
      ensures health.Err? ==> dataManager.store.local == old(dataManager.store.local)
      ensures dataManager.eventKit.eventDays ==
                if health.Ok? && calendar.access.Granted? then MonthEvents(calendar)
                else old(dataManager.eventKit.eventDays)
      ensures dayRange.None? ==> busyDays == old(busyDays)
      ensures dayRange.Some? ==>
                IsBusyCalendar(busyDays, dataManager.eventKit.eventDays, monthStart, 1, dayRange.value + 1)
    {
      var store := dataManager.store;
      dataManager.RefreshAllData(health, calendar);
      var newHealthData := store.local;
      var phoneLocal := phone.local;
      var merged := OrBooleanArrays(newHealthData, phoneLocal);
      store.Persist(merged, SharedFlagsKey);
      healthFlags := merged;
      if dayRange.None? {
        return;
      }
      busyDays := dataManager.eventKit.CalculateBusyPeriods(monthStart, 1, dayRange.value + 1);
    }
  }

  /**
   * Because the snapshot is not read, this refresh can unmark a day: a snapshot
   * `[true]`, fresh health flags `[false]` and an empty phone array persist `[false]`.
   */
  lemma RefreshCanForget()
    ensures !Covers(Union([false], []), [true])
  {
    assert Union([false], []) == [false];
    assert !At([false], 0);
  }
}
