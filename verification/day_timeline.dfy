/**
 * `DayTimelineView` (DayTimelineView.swift): the three red bars under a day
 * cell. A bar is lit when some event starts or ends at an hour inside the bar's
 * hour range; unlike the busy calculator of EventKitInfo.swift it looks only at
 * the two end points, not at overlap.
 */
module DayTimeline {
  import opened Clock
  import opened EventKitInfo

  /** A half-open range of hours `lower ..< upper`. */
  datatype HourRange = HourRange(lower: int, upper: int)
  {
    predicate Contains(hour: int)
    {
      lower <= hour < upper
    }
  }

  const MorningRange: HourRange := HourRange(6, 12)
  const AfternoonRange: HourRange := HourRange(12, 18)
  const EveningRange: HourRange := HourRange(18, 24)

  /** The test inside `hasEvent(in:)`: the start hour or the end hour lies in the range. */
  predicate TouchesRange(e: Event, hourRange: HourRange)
  {
    hourRange.Contains(HourOf(e.startDate)) || hourRange.Contains(HourOf(e.endDate))
  }

  /** `hasEvent(in:)`: some event starts or ends at an hour of the range. */
  function HasEvent(events: seq<Event>, hourRange: HourRange): (r: bool)
    ensures r <==> exists i :: 0 <= i < |events| && TouchesRange(events[i], hourRange)
  {
    if events == [] then false
    else if TouchesRange(events[0], hourRange) then true
    else
      var rest := HasEvent(events[1..], hourRange);
      assert rest ==> exists i :: 0 <= i < |events| && TouchesRange(events[i], hourRange) by {
        if rest {
          var j :| 0 <= j < |events[1..]| && TouchesRange(events[1..][j], hourRange);
          assert events[j + 1] == events[1..][j];
        }
      }
      rest
  }

  /**
   * Every hour from 06 to 23 belongs to exactly one of the three ranges, hour 12
   * to the afternoon, and the hours 00 to 05 to none.
   */
  lemma RangesPartitionWakingHours(hour: int)
    requires 0 <= hour < 24
    ensures 6 <= hour ==>
              (if MorningRange.Contains(hour) then 1 else 0)
              + (if AfternoonRange.Contains(hour) then 1 else 0)
              + (if EveningRange.Contains(hour) then 1 else 0) == 1
    ensures hour < 6 ==>
              !MorningRange.Contains(hour) && !AfternoonRange.Contains(hour) && !EveningRange.Contains(hour)
    ensures hour == 12 ==> AfternoonRange.Contains(hour) && !MorningRange.Contains(hour)
  {
  }

  /**
   * An event from 05:00 to 13:00 spans the whole morning, yet the morning bar
   * stays dark: its start hour 5 and end hour 13 both lie outside 6 ..< 12. The
   * busy calculator marks that morning busy.
   */
  lemma SpanningEventMissed(midnight: int)
    requires midnight % Day == 0
    ensures var e := Event(midnight + 5 * Hour, midnight + 13 * Hour);
            && !HasEvent([e], MorningRange)
            && HasEvent([e], AfternoonRange)
            && BusyPeriods([e], midnight).morning
  {
    var e := Event(midnight + 5 * Hour, midnight + 13 * Hour);
    assert StartOfDay(e.startDate) == midnight;
    assert StartOfDay(e.endDate) == midnight;
    assert HourOf(e.startDate) == 5;
    assert HourOf(e.endDate) == 13;
    assert Overlaps(e, MorningStart(midnight), MorningEnd(midnight));
  }
}
