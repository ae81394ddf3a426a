/**
 * `DataManager` (Data/DataManager.swift): the one refresh step shared by both
 * apps. It fetches the month's health flags into `Store.shared.local`, then
 * loads the month's calendar events; any failure ends the step quietly.
 */
module DataManagement {
  import opened Outcomes
  import opened SharedStore
  import opened EventKitInfo

  class DataManager {
    const store: Store
    const eventKit: EventKitFetcher

    constructor (store: Store, eventKit: EventKitFetcher)
      ensures this.store == store && this.eventKit == eventKit
    {
      this.store := store;
      this.eventKit := eventKit;
    }

    /**
     * `refreshAllData()`, with `health` the outcome of `fetchCaloriesByMonth()`
     * and `calendar` what EventKit answers. On a health failure nothing changes
     * and EventKit is not asked; otherwise `store.local` is replaced by the new
     * flags, and a later EventKit refusal does not undo that. Errors are caught,
     * never passed on, and the persisted defaults are never written.
     */
    method RefreshAllData(health: Result<seq<bool>, string>, calendar: CalendarQuery)
      modifies store`local, eventKit`eventDays
      ensures health.Err? ==> store.local == old(store.local) && eventKit.eventDays == old(eventKit.eventDays)
      ensures health.Ok? ==> store.local == health.value
      ensures health.Ok? && calendar.access.Granted? ==>
                eventKit.eventDays == MonthEvents(calendar)
      ensures health.Ok? && calendar.access.Denied? ==> eventKit.eventDays == old(eventKit.eventDays)
      ensures store.defaults == old(store.defaults)
    {
      match health
      case Err(_) =>
        return;
      case Ok(newHealthData) =>
        store.local := newHealthData;
        var _ := eventKit.InitializeEventStore(calendar);
    }
  }
}
