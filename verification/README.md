# PicoCal data core in Dafny

PicoCal is a calendar app for iPhone and Apple Watch. It shows one cell per day of the current month. A day cell shows:

- a "goal reached" mark, from the health flags;
- whether the morning, afternoon and evening are busy, from EventKit;
- a holiday mark.

This project models the sequential data core behind those views:

- **Merging flag timelines.** The OR-merge of per-day flag arrays is `orBooleanArrays`, which the app keeps in three copies. The refresh paths of `CentralViewModel`, `WatchCentralViewModel`, `ContentViewModel` and `DataManager` fold health flags, the peer's flags and the persisted snapshot through it and write the result back.
- **The shared store.** This is the app-group key-value store (`Store`, `SharedUserDefaults`): a map from key to flag array, where a missing key reads as `[]`.
- **The WatchConnectivity links.** `WatchToPhone` and `PhoneToWatch` validate the payload, reply once per message and guard sending on reachability.
- **The busy-period calculator** of `EventKitFetcher`.
- **The GitHub contribution mapping.** `GitHubContributions` models it, but no live view reads it: nothing creates `GitHubVM`, and every call to `fetchContributionBooleans` is commented out (CalendarView.swift:91-99, GitHubVM.swift:33-46).
- **Month-grid arithmetic.** This covers the leading blank offset, bounded lookups, row counts, the current-day position and the hour buckets.
- **Widget timeline entries.**

Modelling choices:

- Dates are integer seconds of local wall-clock time (`Clock`), with a day of 86400 seconds. GitHub's `full-date` strings (section 5.6 of RFC 3339) are integer day numbers.
- Objects whose fields the app updates are classes: `Store`, the links, the view models, `DataManager` and `EventKitFetcher`. Each method states its whole new state.
- Every outside answer is a parameter, usually a `Result`:
  - HealthKit, EventKit access and events, holidays;
  - session reachability, the transport's reply or error;
  - "should clear", the clock, random draws.
- Messages handed to the transport are appended to an `outbox` field.
- The async and Combine plumbing becomes steps run in order.

Whether each refresh path keeps marked days:

- **Monotone.** This keeps every day the previous snapshot marked:
  - `CentralViewModel.refreshForWatch`, which merges the persisted snapshot, `store.local` and the phone's push.
- **Overwriting.** These replace the previous value:
  - `refreshForPhone`, which persists `store.local` verbatim;
  - `WatchCentralViewModel.refresh`, which never reads the snapshot;
  - `ContentViewModel.refresh`;
  - the `ContentViewModel` sink. It ORs each push into `watchStoreLocal` and keeps every day marked there, but it never reads the persisted snapshot. `watchStoreLocal` starts as `[]` (WatchKitApp/ContentViewModel.swift:7), so the first emission, delivered when the sink subscribes, persists the push as it is (`ContentView.SinkCanForget`);
  - `WatchToPhone`'s receive handler, which assigns the pushed array to `local`.

The phone's receive handler `session(_:didReceiveMessage:replyHandler:)` (WatchConnectivity/PhoneToWatch.swift:90-105) is declared at file scope, outside `class PhoneToWatch`. It is therefore not a delegate method, and WatchConnectivity never calls it: as written, the phone has no live receive path. The model keeps it as the free method `PhoneToWatchLink.SessionDidReceiveMessage`, which no refresh calls.

Where the code differs from the source's own comments, the model follows the code:

- The doc comment of `orBooleanArrays` (CentralViewModel.swift:118-119) says that once a day is `true`, it stays `true`. Only `refreshForWatch` keeps that promise for the persisted snapshot. The overwriting paths can clear a day (`WatchCentralView.RefreshCanForget`, `ContentView.SinkCanForget`).
- The comment on `eveningRange` (DayTimelineView.swift:13) gives the evening as 18:00 to midnight. `busyPeriods` ends the evening bucket at 23:59:59 (EventKitInfo.swift:113).

Other facts about the code that the model keeps:

- `refreshForPhone` pushes to the watch first and persists afterwards (CentralViewModel.swift:99-106).
- In both widgets a busy-days failure skips the holiday fetch, and either failure yields the fallback entry. In `refreshAllData`, a health failure skips EventKit.
- `fetchEvents` ends its window one month minus one day after the month start (EventKitInfo.swift:79-88). That is midnight at the start of the month's last day. An event that starts on the last day, at midnight or later, is never fetched, so the last day's busy triple never shows it (`EventKitInfo.LastDayNotFetched`, `EventKitInfo.LastDayMeetingUnmarked`).
- `predicateForEvents(withStart:end:calendars:)` is modelled as selecting the events that overlap `[start, end)`.

## Model

| member | source | states |
|---|---|---|
| BooleanUnion.Union | CentralViewModel.swift:118-132 | the merge has length max(\|a\|, \|b\|) |
| BooleanUnion.UnionAt | CentralViewModel.swift:124-129 | each day of the merge is `(i<\|a\| && a[i]) \|\| (i<\|b\| && b[i])`; positions past an input's end read as false |
| BooleanUnion.UnionUnique | CentralViewModel.swift:121-129 | any array with the max length and the pointwise OR is the merge |
| BooleanUnion.UnionCoversBoth | CentralViewModel.swift:118-119 | a day true in either input stays true, and a true day of the merge comes from an input |
| BooleanUnion.UnionLeast | CentralViewModel.swift:118-129 | the merge is the least array keeping every true day of both inputs |
| BooleanUnion.CoversTransitive | CentralViewModel.swift:71-73 | keeping the true days of a merge keeps those of its inputs (chains of merges are monotone) |
| BooleanUnion.UnionCommutative | CentralViewModel.swift:118-129 | merge(a, b) == merge(b, a) |
| BooleanUnion.UnionAssociative | CentralViewModel.swift:72-73 | merge(merge(a, b), c) == merge(a, merge(b, c)) |
| BooleanUnion.UnionIdempotent | CentralViewModel.swift:118-129 | merge(a, a) == a |
| BooleanUnion.UnionOrderIrrelevant | CentralViewModel.swift:72-73 | the fold of three sources does not depend on their order |
| BooleanUnion.UnionEmpty | CentralViewModel.swift:118-129 | `[]` is the identity of the merge on both sides |
| CentralView.OrBooleanArrays | CentralViewModel.swift:120-132 | the preallocated-array loop returns exactly the merge |
| CentralView.CentralViewModel.BuildBusyDays | CentralViewModel.swift:24-39 | without a day range `busyDays` is unchanged; otherwise one triple per day of the month from the fetched events |
| CentralView.CentralViewModel.BuildHolidayDays | CentralViewModel.swift:41-49 | takes the fetched holidays; a failed fetch leaves `holidayDates` unchanged |
| CentralView.CentralViewModel.RefreshForWatch | CentralViewModel.swift:58-82 | persists and shows or(or(snapshot, store.local), WatchToPhone.local); every day the snapshot or either source marked stays marked; only "sharedFlags" is written; `eventDays` becomes the month's events after a granted refresh and is otherwise kept, and `busyDays` is built from it |
| CentralView.CentralViewModel.RefreshForPhone | CentralViewModel.swift:90-113 | shows `store.local`, pushes it when the watch is reachable (a failure is caught), then persists it verbatim with no merge; `eventDays`, `busyDays` and `holidayDates` are refreshed as on the watch |
| CentralView.CentralViewModel.Refresh | CentralViewModel.swift:14-21 | runs the platform's refresh and always ends with the sync popup shown; both paths set `store.local`, `eventDays`, `busyDays` and `holidayDates` alike and persist what they show; the watch path is monotone and sends nothing, the phone path shows `store.local` and pushes it when the watch is reachable |
| WatchCentralView.OrBooleanArrays | WatchKitApp/WatchViewModel.swift:42-52 | the append-based loop returns the same array as the preallocated version: the merge |
| WatchCentralView.WatchCentralViewModel.Refresh | WatchKitApp/WatchViewModel.swift:13-38 | persists and shows or(store.local, phone.local) without reading the previous snapshot; without a day range it returns with `busyDays` unchanged, otherwise one triple per day; `eventDays` becomes the month's events after a granted refresh and is otherwise kept |
| WatchCentralView.RefreshCanForget | WatchKitApp/WatchViewModel.swift:18-23 | a snapshot `[true]` is not kept when the sources are `[false]` and `[]` |
| ContentView.ContentViewModel.OnPhoneLocal | WatchKitApp/ContentViewModel.swift:14-23 | `phoneCxnLocal := newLocal`; `watchStoreLocal := or(newLocal, old watchStoreLocal)`, losing no day marked in `watchStoreLocal`, and it is persisted over the snapshot |
| ContentView.SinkCanForget | WatchKitApp/ContentViewModel.swift:7-21 | the first emission merges into the initial `[]`, so it persists the push as it is and clears a day the earlier snapshot marked |
| ContentView.ContentViewModel.Refresh | WatchKitApp/ContentViewModel.swift:27-34 | `watchStoreLocal := or(phoneCxnLocal, caloriesByMonth)`, ignoring its old value; persisted; `phoneCxnLocal` kept |
| ContentView.ContentViewModel.OrBooleanArrays | WatchKitApp/ContentViewModel.swift:35-46 | the class's append-based loop returns the merge |
| DataManagement.DataManager.RefreshAllData | Data/DataManager.swift:12-26 | on health failure nothing changes and EventKit is not asked; on success `store.local` is overwritten and an EventKit refusal does not undo it; no error escapes; the defaults are not written |
| SharedStore.Store.constructor | WatchKitWidget/Store.swift:3-7 | `local` starts as `[]` over the existing defaults |
| SharedStore.Store.Persist | WatchKitWidget/Store.swift:9-11 | overwrites the key wholesale, so reading it gives back `data`; other keys and `local` unchanged |
| SharedStore.Store.Retrieve | WatchKitWidget/Store.swift:13-15 | the stored array, or `[]` for a key never written; changes nothing |
| UserDefaultsEvents.SharedUserDefaults.SaveEvents | WatchKitWidget/SharedUserDefaults.swift:16-19 | writes exactly "goalDays" and "calorieDays"; other keys unchanged |
| UserDefaultsEvents.SharedUserDefaults.RetrieveEvents | WatchKitWidget/SharedUserDefaults.swift:22-28 | each array defaults to `[]` on its own when its key is missing; changes nothing |
| UserDefaultsEvents.SaveThenRetrieve | WatchKitWidget/SharedUserDefaults.swift:16-28 | retrieving after saving (g, c) returns (g, c) |
| PeerMessage.Payload | WatchConnectivity/PhoneToWatch.swift:50 | the outgoing message has exactly the key "contributionDays" mapped to the array, and a receiver reads that array back |
| PeerMessage.ContributionDays | WatchConnectivity/WatchToPhone.swift:29 | a message is accepted iff "contributionDays" holds a boolean array, and then yields that array |
| PeerMessage.Response | WatchConnectivity/WatchToPhone.swift:33 | a one-key reply `["Response": text]` |
| PeerMessage.ErrorReply | WatchConnectivity/WatchToPhone.swift:36 | a one-key reply `["Error": text]` |
| WatchToPhoneLink.WatchToPhone.constructor | WatchConnectivity/WatchToPhone.swift:5-16 | `local` starts as `[]`; the session is activated only when supported |
| WatchToPhoneLink.WatchToPhone.DidReceiveMessage | WatchConnectivity/WatchToPhone.swift:27-38 | a valid payload overwrites `local` and replies "Data received"; anything else leaves `local` and replies "Data format not recognized"; exactly one reply |
| PhoneToWatchLink.PhoneToWatch.SessionDidDeactivate | WatchConnectivity/PhoneToWatch.swift:35-38 | a deactivated session is re-activated at once |
| PhoneToWatchLink.PhoneToWatch.SendMessageAsync | WatchConnectivity/PhoneToWatch.swift:42-65 | unreachable: throws notReachable and sends nothing; reachable: sends the payload and returns either the reply or the transport error, exactly one |
| PhoneToWatchLink.PhoneToWatch.Send | WatchConnectivity/PhoneToWatch.swift:69-87 | a no-op when unreachable; otherwise the payload is sent |
| PhoneToWatchLink.SessionDidReceiveMessage | WatchConnectivity/PhoneToWatch.swift:90-105 | a valid payload sets `Store.shared.local` and replies "Got it!"; otherwise an "Error" reply and `local` unchanged; declared outside the class, so WatchConnectivity never calls it |
| EventKitInfo.AnyOverlaps | EventKitInfo.swift:115-117 | true iff some event has `start < bucketEnd && end > bucketStart` |
| EventKitInfo.BusyPeriods | EventKitInfo.swift:105-120 | each of morning [06:00,12:00), afternoon [12:00,18:00), evening [18:00,23:59:59) is busy iff some event overlaps it |
| EventKitInfo.NoEventsNoBusy | EventKitInfo.swift:115-117 | with no events every triple is (false, false, false) |
| EventKitInfo.CrossingNoonMarksBoth | EventKitInfo.swift:115-116 | an event running across noon marks morning and afternoon |
| EventKitInfo.CrossingSixMarksBoth | EventKitInfo.swift:116-117 | an event running across 18:00 marks afternoon and evening |
| EventKitInfo.MorningEventOnlyMorning | EventKitInfo.swift:108-117 | a 09:30-10:15 event marks the morning only |
| EventKitInfo.BusyMonotone | EventKitInfo.swift:115-117 | adding events never clears a busy flag |
| EventKitInfo.BusyCalendarMonotone | EventKitInfo.swift:93-117 | a month's triples over more events are flag-wise at least as busy |
| EventKitInfo.FetchEvents | EventKitInfo.swift:70-91 | `[]` when the month start or the window end cannot be computed; otherwise exactly the calendar events overlapping the window |
| EventKitInfo.EventsMatching | EventKitInfo.swift:87-88 | exactly the calendar events that overlap the window, and no more events than the calendar holds |
| EventKitInfo.FetchWindowEnd | EventKitInfo.swift:79-82 | the window ends one day before the month's end, and not before the month start |
| EventKitInfo.MonthEvents | EventKitInfo.swift:70-91 | a granted refresh stores exactly the calendar events overlapping [month start, start of the last day) |
| EventKitInfo.LastDayNotFetched | EventKitInfo.swift:79-88 | an event starting on the last day is never fetched; an event starting on an earlier day of the month always is |
| EventKitInfo.LastDayMeetingUnmarked | EventKitInfo.swift:47-53 | a 09:00-10:00 meeting on the last day leaves that day's triple (false, false, false), though the event itself overlaps the morning |
| EventKitInfo.StartingDayOfMonth | EventKitInfo.swift:191-197 | the zero-based weekday of the first day, in [0, 7) |
| StaticCalendar.StartingDayIsSundayOffset | EventKitInfo.swift:191-197 | `startingDayOfMonth` is the number of blank cells a Sunday-first grid puts before day 1, so day 1 lands in its weekday's column |
| EventKitInfo.EventKitFetcher.CalculateBusyPeriods | EventKitInfo.swift:93-103 | one triple per day of the range, in order, day d evaluated at startDate + (d-1) days |
| EventKitInfo.EventKitFetcher.InitializeEventStore | EventKitInfo.swift:47-60 | granted: `eventDays` becomes the month's fetched events, then completion(true, triples of every day, nil); denied: completion(false, nil, error) with `eventDays` unchanged |
| GitHubContributions.ContributionFlags | GitHubDataFetcher.swift:153-169 | length is the days from month start to today plus one; index i is day i+1, true iff some contribution day of any week has that date and a positive count |
| GitHubContributions.Reverse | GitHubDataFetcher.swift:169 | same length, elements in the opposite order |
| GitHubContributions.CreateBooleanArray | GitHubDataFetcher.swift:139-170 | the set-then-walk-back-then-reverse loops yield exactly the month-to-date contribution flags |
| GitHubContributions.NoEffectWeek | GitHubDataFetcher.swift:140-163 | zero counts, dates repeated across weeks and days outside month start..today do not change the array |
| GitHubContributions.FetchContributionBooleans | GitHubDataFetcher.swift:123-137 | a failure passes through unchanged; a response maps through createBooleanArray |
| WrapGrid.NumberOfRows | View/WrapGridView.swift:9-12 | ceil(count / columns): zero for no items; (rows-1)·cols < count <= rows·cols otherwise |
| WrapGrid.SlotInjective | View/WrapGridView.swift:23 | two slots of the grid never address the same index |
| WrapGrid.EachItemOnce | View/WrapGridView.swift:20-27 | item i is shown in row i / cols, column i % cols, which is within the grid, and in no other slot |
| WrapGrid.SpacersOnlyInLastRow | View/WrapGridView.swift:28-31 | a spacer slot can only be in the last row |
| StaticCalendar.LeadingOffset | View/CalendarView.swift:56-57 | the offset lies in [0, 7), and day 1 lands in the column of its own weekday |
| StaticCalendar.PastMeansBeforeToday | View/CalendarView.swift:96-98 | a date is past iff it is before today's midnight; today is never past |
| StaticCalendar.DayBlockFor | View/CalendarView.swift:63-89 | isComplete is the health flag, or false past the array; busy falls back to (false, false, false); holiday iff the day's midnight is in the set; never both today and past |
| StaticCalendar.FullMonthContent | View/CalendarView.swift:49-93 | offset blank cells then one block per day, with day d at offset+d-1; an unavailable range gives only the blanks |
| MonthCalendarView.NumberOfRowsAsWritten | CalendarView.swift:23-25 | daysInMonth / 7 + 1 rows fit the days alone, whatever the offset |
| MonthCalendarView.NumberOfRows | CalendarView.swift:23-25 | the corrected count fits the offset blanks and every day, with no spare row |
| MonthCalendarView.DisplayedIff | CalendarView.swift:379-387 | `CalendarGrid` shows cell i iff i < cell count and i < rows·7 |
| MonthCalendarView.LastDayHiddenAsWritten | CalendarView.swift:23-25 | 31 days at offset 5: 5 rows, day 31 not shown, its indicator on row 5 |
| MonthCalendarView.EveryDayDisplayed | CalendarView.swift:379-387 | with the corrected count every day's cell is shown |
| MonthCalendarView.CurrentDayPosition | CalendarView.swift:39-51 | row·7 + column == currentDay + offset − 1 with column in [0, 7) |
| MonthCalendarView.CurrentDayOnItsCell | CalendarView.swift:39-51 | the indicator is on the current day's cell, on a row of the corrected grid |
| MonthCalendarView.ShouldFillGreen | CalendarView.swift:281-285 | true only when 0 <= day−1 < \|goalDays\| and goalDays[day−1] |
| MonthCalendarView.ShouldFillBlue | CalendarView.swift:267-276 | the padded lookup equals the calorie flag, false past the array, in bounds up to 72 days past it |
| MonthCalendarView.PaddingCoversAnyMonth | CalendarView.swift:267-276 | any day 1..31 is in bounds, and false past the calorie array |
| MonthCalendarView.EventsOnDay | CalendarView.swift:259-263 | exactly the events whose start falls on the given day |
| MonthCalendarView.DefaultDayView | CalendarView.swift:247-285 | the day's events, blue and green fills from the bounded lookups, past iff before today's midnight |
| MonthCalendarView.FullMonthContent | CalendarView.swift:214-239 | offset clear views then one view per day of the month, day k+1 at offset+k |
| MonthCalendarView.CalendarViewState.UpdateCurrentDay | CalendarView.swift:161-179 | same day: nothing changes; new day: `currentDay` moves and `hasContributionToday` becomes that day's goal flag, bounds-checked |
| DayTimeline.HasEvent | DayTimelineView.swift:65-72 | true iff some event's start hour or end hour lies in the range; false for no events |
| DayTimeline.RangesPartitionWakingHours | DayTimelineView.swift:11-13 | hours 6–23 fall in exactly one range, hour 12 in the afternoon, hours 0–5 in none |
| DayTimeline.SpanningEventMissed | DayTimelineView.swift:65-72 | a 05:00–13:00 event leaves the morning bar dark although the busy calculator marks that morning |
| CalendarDay.HourRowEvents | CalendarDayView.swift:55-57 | a row lists exactly the events occurring during its hour |
| CalendarDay.OccursIffStartsInHour | CalendarDayView.swift:65-71 | an event occurs during hour h of a day iff it starts within that hour of that day |
| CalendarDay.ListedIffStartsFromEight | CalendarDayView.swift:14 | rows 8..<24 list an event iff it starts that day at 08:00 or later, in one row only, whatever its end date |
| WidgetEntries.FallbackEntry | HomeWidget/HomeWidget.swift:78-85 | stored flags, 30 all-false triples, no holidays |
| WidgetEntries.EntryFor | HomeWidget/HomeWidget.swift:62-88 | the stored flags on both paths; both fetches succeed: their values, else the fallback |
| WidgetEntries.HolidaysIgnoredAfterBusyFailure | HomeWidget/HomeWidget.swift:65-68 | after a busy-days failure the holiday outcome does not matter |
| WidgetEntries.GetTimeline | HomeWidget/HomeWidget.swift:43-50 | a single entry, next update 10 minutes after its date |
| WidgetEntries.Placeholder | HomeWidget/HomeWidget.swift:26-35 | 30 flags, 30 triples and no holidays (the same in WatchKitWidget/WatchKitWidget.swift:25-35) |
| HomeWidget.FetchDataForWidget | HomeWidget/HomeWidget.swift:53-89 | when told to clear, "sharedFlags" becomes `[]` before the read; the entry's flags are the value read |
| HomeWidget.GetTimeline | HomeWidget/HomeWidget.swift:43-50 | one entry with the flags read after the clear check, next update 10 minutes on |
| WatchWidget.FetchDataForWidget | WatchKitWidget/WatchKitWidget.swift:55-85 | never writes the store; stored flags with the fetched values, or 30 idle triples and no holidays on any error |
| WatchWidget.GetTimeline | WatchKitWidget/WatchKitWidget.swift:44-51 | one entry with the stored flags, next update 10 minutes on |

## Left out

- Time zones, daylight-saving changes and Foundation's calendar arithmetic: a day is always 86400 seconds. `startOfMonth`, `range(of:in:for:)` and the weekday component become parameters: the month start, an optional day count and a `Weekday`.
- The GitHub day strings of `iso8601String(from:)` are day numbers. So the model does not capture the shift that `ISO8601DateFormatter`'s default GMT time zone causes east of UTC.
- `createBooleanArray` reads `Date()` itself. The month start and today are parameters, with month start <= today, as in any real month.
- The network request, GraphQL query and JSON decoding of GitHubDataFetcher.swift are not part of this model. `fetchContributionBooleans` takes the decoded response or the error.
- The HealthKit wrappers are not part of this model. Health flags are an opaque `Result<seq<bool>, string>`, and `Health.shared.shouldClearHealthData()` is a boolean input. The month-rollover clearing rule is therefore not modelled.
- The async `initializeEventStore()` and `fetchHolidayDatesForCurrentMonth()` are not part of this model. Their outcomes are `Result` parameters. `DataManager` runs the completion-based `initializeEventStore`, where denied access stands for the throw.
- `requestCalendarAccess` and the event store are outside this model. Access is a `CalendarAccess` value, and the store's events are a sequence given with the query.
- EventKitInfo.EventKitFetcher.InitializeEventStore assumes the month start is computable. The source force-unwraps it right after the fetch, so any path on which it is not computable traps.
- The WatchConnectivity transport is outside this model: activation, delegates, continuations, `[weak self]` and the main-queue hops. Reachability is a boolean, and the transport is an `outbox` plus a `Result` for the reply.
- `Store.userDefaults` and `SharedUserDefaults.userDefaults` are optional suites. The model assumes the suite exists; with a missing suite, writes are dropped and reads give `[]`.
- The defaults map only holds flag arrays. The model does not capture a stored value of another type, which reads as `[]`.
- `WatchToPhone.shared`, used by CentralViewModel.swift:69, is not declared in the files modelled. The model takes it as a `WatchToPhone` object.
- The model omits `WidgetCenter.reloadAllTimelines`, `getSnapshot`, `getEnvironmentVariable`, timers and every SwiftUI view, colour, font and layout computation (`calculateHourOffset`, `getResponsiveDemensions`).
- Concurrent or overlapping refreshes are not modelled: every refresh runs to completion before the next starts.
- MonthCalendarView.ShouldFillBlue requires the day to lie within the padded array, because the source traps past it. MonthCalendarView.FullMonthContent requires the same of the month's day count.

## Findings

| source | as written | input that shows it | evidently intended | confidence | as-written member | corrected member |
|---|---|---|---|---|---|---|
| CalendarView.swift:23-25 | `numberOfRows` is `daysInMonth / 7 + 1` and ignores the leading blank cells that `fullMonthContent` adds | 31-day month whose first day falls in the sixth column (offset 5): 36 cells but 5 rows of 7, so day 31 is never shown and the day-31 indicator sits below the grid | enough rows for offset + days cells, `ceil((offset + days) / 7)`, as `WrapGridView` computes | not executed | MonthCalendarView.LastDayHiddenAsWritten | MonthCalendarView.EveryDayDisplayed |
