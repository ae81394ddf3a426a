/**
 * `CentralViewModel` (CentralViewModel.swift): the state behind both apps'
 * calendar screens. On the watch a refresh OR-merges the persisted snapshot,
 * the fresh health flags and the phone's last push, so a day once marked stays
 * marked; on the phone a refresh persists the fresh health flags as they are
 * and pushes them to the watch.
 */
module CentralView {
  import opened Outcomes
  import opened BooleanUnion
  import opened SharedStore
  import opened PeerMessage
  import opened EventKitInfo
  import opened DataManagement
  import opened WatchToPhoneLink
  import opened PhoneToWatchLink

  /**
   * The free function `orBooleanArrays`: fills a `false`-initialised array of
   * the longer length with the OR of both inputs, missing positions reading as
   * `false`.
   */
  method OrBooleanArrays(first: seq<bool>, second: seq<bool>) returns (r: seq<bool>)
    ensures r == Union(first, second)
  {
    var maxLength := Max(|first|, |second|);
    var result := new bool[maxLength](_ => false);
    for i := 0 to maxLength
      invariant forall j :: 0 <= j < i ==> result[j] == (At(first, j) || At(second, j))
    {
      var val1 := if i < |first| then first[i] else false;
      var val2 := if i < |second| then second[i] else false;
      result[i] := val1 || val2;
    }
    r := result[..];
    UnionUnique(first, second, r);
  }

  /** Which app the view model runs in (`#if os(watchOS)`). */
  datatype Platform = WatchOS | IOS

  /**
   * What the outside world answers during one refresh: the health fetch, the
   * calendar access and events, the start and day count of the month (none when
   * `Calendar` cannot give a day range), the holiday fetch, and the watch's
   * reachability and transport outcome for the phone's push.
   */
  datatype RefreshInputs = RefreshInputs(
    health: Result<seq<bool>, string>,
    calendar: CalendarQuery,
    monthStart: int,
    dayRange: Option<nat>,
    holidays: Result<set<int>, string>,
    watchReachable: bool,
    delivery: Result<Reply, string>)

  class CentralViewModel {
    var healthFlags: seq<bool>
    var busyDays: seq<BusyPeriod>
    var showSyncCompletedPopup: bool
    var holidayDates: set<int>
    const dataManager: DataManager
    /** `WatchToPhone.shared`, the watch's link to the phone. */
    const watchLink: WatchToPhone
    /** `PhoneToWatch.shared`, the phone's link to the watch. */
    const phoneLink: PhoneToWatch

    constructor (dataManager: DataManager, watchLink: WatchToPhone, phoneLink: PhoneToWatch)
      ensures this.dataManager == dataManager && this.watchLink == watchLink && this.phoneLink == phoneLink
      ensures healthFlags == [] && busyDays == [] && !showSyncCompletedPopup && holidayDates == {}
    {
      this.dataManager := dataManager;
      this.watchLink := watchLink;
      this.phoneLink := phoneLink;
      healthFlags := [];
      busyDays := [];
      showSyncCompletedPopup := false;
      holidayDates := {};
    }

    /** The flags persisted under "sharedFlags". */
    function Persisted(): seq<bool>
      reads this, dataManager, dataManager.store
    {
      Lookup(dataManager.store.defaults, SharedFlagsKey)
    }

    /**
     * `buildBusyDays()`: one triple per day of the month from the fetched
     * events; without a day range `busyDays` is left as it was.
     */
    method BuildBusyDays(monthStart: int, dayRange: Option<nat>)
      modifies this`busyDays
      ensures dayRange.None? ==> busyDays == old(busyDays)
      ensures dayRange.Some? ==>
                IsBusyCalendar(busyDays, dataManager.eventKit.eventDays, monthStart, 1, dayRange.value + 1)
    {
      if dayRange.None? {
        return;
      }
      busyDays := dataManager.eventKit.CalculateBusyPeriods(monthStart, 1, dayRange.value + 1);
    }

    /** `buildHolidayDays()`: takes the fetched holidays; a failed fetch leaves `holidayDates`. */
    method BuildHolidayDays(holidays: Result<set<int>, string>)
      modifies this`holidayDates
      ensures holidays.Ok? ==> holidayDates == holidays.value
      ensures holidays.Err? ==> holidayDates == old(holidayDates)
    {
      match holidays
      case Ok(fetchedHolidays) => holidayDates := fetchedHolidays;
      case Err(_) =>
    }

    /**
     * `refreshForWatch()`: persists and shows
     * `or(or(existing sharedFlags, store.local), WatchToPhone.shared.local)`;
     * every day the snapshot marked, and every day of the two sources, stays marked.
     */
    method RefreshForWatch(inputs: RefreshInputs)
      modifies dataManager.store, dataManager.eventKit`eventDays
      modifies this`healthFlags, this`busyDays, this`holidayDates
      ensures healthFlags == Persisted()
      ensures healthFlags == Union(Union(old(Persisted()), dataManager.store.local), watchLink.local)
      ensures Covers(healthFlags, old(Persisted()))
      ensures Covers(healthFlags, dataManager.store.local) && Covers(healthFlags, watchLink.local)
      ensures dataManager.store.defaults == old(dataManager.store.defaults)[SharedFlagsKey := healthFlags]
      ensures inputs.health.Ok? ==> dataManager.store.local == inputs.health.value
      ensures inputs.health.Err? ==> dataManager.store.local == old(dataManager.store.local)
      ensures dataManager.eventKit.eventDays ==
                if inputs.health.Ok? && inputs.calendar.access.Granted? then MonthEvents(inputs.calendar)
                else old(dataManager.eventKit.eventDays)
      ensures inputs.dayRange.None? ==> busyDays == old(busyDays)
      ensures inputs.dayRange.Some? ==>
                IsBusyCalendar(busyDays, dataManager.eventKit.eventDays, inputs.monthStart, 1, inputs.dayRange.value + 1)
      ensures inputs.holidays.Ok? ==> holidayDates == inputs.holidays.value
      ensures inputs.holidays.Err? ==> holidayDates == old(holidayDates)
    {
      var store := dataManager.store;
      dataManager.RefreshAllData(inputs.health, inputs.calendar);
      var existingFlags := store.Retrieve(SharedFlagsKey);
      var newHealthData := store.local;
      var phoneLocal := watchLink.local;
      var mergedStep1 := OrBooleanArrays(existingFlags, newHealthData);
      var mergedStep2 := OrBooleanArrays(mergedStep1, phoneLocal);
      store.Persist(mergedStep2, SharedFlagsKey);
      healthFlags := mergedStep2;
      UnionCoversBoth(existingFlags, newHealthData);
      UnionCoversBoth(mergedStep1, phoneLocal);
      CoversTransitive(mergedStep2, mergedStep1, existingFlags);
      CoversTransitive(mergedStep2, mergedStep1, newHealthData);
      BuildBusyDays(inputs.monthStart, inputs.dayRange);
      BuildHolidayDays(inputs.holidays);
    }

    /**
     * `refreshForPhone()`: shows `store.local` after the refresh, tries to push
     * it to the watch (a refusal or transport error is caught), then persists it
     * as it is, replacing the previous snapshot without merging.
     */
    method RefreshForPhone(inputs: RefreshInputs)
      modifies dataManager.store, dataManager.eventKit`eventDays, phoneLink`outbox
      modifies this`healthFlags, this`busyDays, this`holidayDates
      ensures healthFlags == dataManager.store.local == Persisted()
      ensures dataManager.store.defaults == old(dataManager.store.defaults)[SharedFlagsKey := healthFlags]
      ensures inputs.health.Ok? ==> dataManager.store.local == inputs.health.value
      ensures inputs.health.Err? ==> dataManager.store.local == old(dataManager.store.local)
      ensures dataManager.eventKit.eventDays ==
                if inputs.health.Ok? && inputs.calendar.access.Granted? then MonthEvents(inputs.calendar)
                else old(dataManager.eventKit.eventDays)
      ensures phoneLink.outbox == old(phoneLink.outbox) + (if inputs.watchReachable then [Payload(healthFlags)] else [])
      ensures inputs.dayRange.None? ==> busyDays == old(busyDays)
      ensures inputs.dayRange.Some? ==>
                IsBusyCalendar(busyDays, dataManager.eventKit.eventDays, inputs.monthStart, 1, inputs.dayRange.value + 1)
      ensures inputs.holidays.Ok? ==> holidayDates == inputs.holidays.value
      ensures inputs.holidays.Err? ==> holidayDates == old(holidayDates)
    {
      var store := dataManager.store;
      dataManager.RefreshAllData(inputs.health, inputs.calendar);
      healthFlags := store.local;
      var _ := phoneLink.SendMessageAsync(healthFlags, inputs.watchReachable, inputs.delivery);
      store.Persist(healthFlags, SharedFlagsKey);
      BuildBusyDays(inputs.monthStart, inputs.dayRange);
      BuildHolidayDays(inputs.holidays);
    }

    /**
     * `refresh()`: the platform's refresh, after which the sync-completed popup
     * is shown. Both paths refresh `store.local`, `eventDays`, `busyDays` and
     * `holidayDates` alike and persist what they show; they differ in what they
     * show and in whether the phone pushes it to the watch.
     */
    method Refresh(platform: Platform, inputs: RefreshInputs)
      modifies dataManager.store, dataManager.eventKit`eventDays, phoneLink`outbox
      modifies this`healthFlags, this`busyDays, this`holidayDates, this`showSyncCompletedPopup
      ensures showSyncCompletedPopup
      ensures healthFlags == Persisted()
      ensures dataManager.store.defaults == old(dataManager.store.defaults)[SharedFlagsKey := healthFlags]
      ensures inputs.health.Ok? ==> dataManager.store.local == inputs.health.value
      ensures inputs.health.Err? ==> dataManager.store.local == old(dataManager.store.local)
      ensures dataManager.eventKit.eventDays ==
                if inputs.health.Ok? && inputs.calendar.access.Granted? then MonthEvents(inputs.calendar)
                else old(dataManager.eventKit.eventDays)
      ensures inputs.dayRange.None? ==> busyDays == old(busyDays)
      ensures inputs.dayRange.Some? ==>
                IsBusyCalendar(busyDays, dataManager.eventKit.eventDays, inputs.monthStart, 1, inputs.dayRange.value + 1)
      ensures inputs.holidays.Ok? ==> holidayDates == inputs.holidays.value
      ensures inputs.holidays.Err? ==> holidayDates == old(holidayDates)
      ensures platform.WatchOS? ==>
                && healthFlags == Union(Union(old(Persisted()), dataManager.store.local), watchLink.local)
                && Covers(healthFlags, old(Persisted()))
                && phoneLink.outbox == old(phoneLink.outbox)
      ensures platform.IOS? ==>
                && healthFlags == dataManager.store.local
                && phoneLink.outbox == old(phoneLink.outbox) + (if inputs.watchReachable then [Payload(healthFlags)] else [])
    {
      if platform.WatchOS? {
        RefreshForWatch(inputs);
      } else {
        RefreshForPhone(inputs);
      }
      showSyncCompletedPopup := true;
    }
  }
}
