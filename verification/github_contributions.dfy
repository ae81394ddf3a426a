/**
 * The contribution mapping of GitHubDataFetcher.swift: the per-week
 * contribution days returned by GitHub become one flag per day of the current
 * month, from its first day up to today. Calendar dates (RFC 3339 `full-date`
 * strings, section 5.6 of RFC 3339) are modelled as integer day numbers.
 */
module GitHubContributions {
  import opened Outcomes

  datatype ContributionDay = ContributionDay(date: int, contributionCount: int)
  datatype Week = Week(contributionDays: seq<ContributionDay>)
  datatype ContributionCalendar = ContributionCalendar(totalContributions: int, weeks: seq<Week>)
  datatype ContributionsCollection = ContributionsCollection(contributionCalendar: ContributionCalendar)

  /** Day `k` of week `w` records at least one contribution on `date`. */
  ghost predicate MarkedAt(weeks: seq<Week>, w: int, k: int, date: int)
  {
    && 0 <= w < |weeks|
    && 0 <= k < |weeks[w].contributionDays|
    && weeks[w].contributionDays[k].date == date
    && weeks[w].contributionDays[k].contributionCount > 0
  }

  /** Some contribution day of some week has `date` and a positive count. */
  ghost predicate ContributedOn(weeks: seq<Week>, date: int)
  {
    exists w, k :: MarkedAt(weeks, w, k, date)
  }

  /** The intended array: index `i` is day `monthStart + i`, up to and including `today`. */
  ghost function ContributionFlags(weeks: seq<Week>, monthStart: int, today: int): (r: seq<bool>)
    requires monthStart <= today
    ensures |r| == today - monthStart + 1
    ensures forall i :: 0 <= i < |r| ==> (r[i] <==> ContributedOn(weeks, monthStart + i))
  {
    seq(today - monthStart + 1, i => ContributedOn(weeks, monthStart + i))
  }

  /** The elements of `s` in the opposite order (`reversed()`). */
  function Reverse(s: seq<bool>): (r: seq<bool>)
    ensures |r| == |s|
    ensures forall i :: 0 <= i < |s| ==> r[i] == s[|s| - 1 - i]
  {
    seq(|s|, i requires 0 <= i < |s| => s[|s| - 1 - i])
  }

  /**
   * `createBooleanArray(from:)`: collects the dates with a positive count into a
   * set, walks back from today to the month's first day, and reverses, so that
   * index `i` is day `i + 1` of the month.
   */
  method CreateBooleanArray(collection: ContributionsCollection, monthStart: int, today: int)
    returns (booleans: seq<bool>)
    requires monthStart <= today
    ensures booleans == ContributionFlags(collection.contributionCalendar.weeks, monthStart, today)
  {
    var weeks := collection.contributionCalendar.weeks;
    var daysWithContributions: set<int> := {};
    for w := 0 to |weeks|
      invariant forall d :: d in daysWithContributions <==> exists w', k :: w' < w && MarkedAt(weeks, w', k, d)
    {
      var days := weeks[w].contributionDays;
      for k := 0 to |days|
        invariant forall d :: d in daysWithContributions <==>
                    (exists w', k' :: w' < w && MarkedAt(weeks, w', k', d))
                    || (exists k' :: k' < k && MarkedAt(weeks, w, k', d))
      {
        if days[k].contributionCount > 0 {
          assert MarkedAt(weeks, w, k, days[k].date);
          daysWithContributions := daysWithContributions + {days[k].date};
        }
        forall d | exists k' :: k' < k + 1 && MarkedAt(weeks, w, k', d)
          ensures d in daysWithContributions
        {
          var k' :| k' < k + 1 && MarkedAt(weeks, w, k', d);
          if k' == k {
            assert days[k].contributionCount > 0 && days[k].date == d;
          }
        }
      }
    }
    assert forall d :: d in daysWithContributions <==> ContributedOn(weeks, d);

    var daysInMonth := today - monthStart + 1;
    var newestFirst: seq<bool> := [];
    for dayOffset := 0 to daysInMonth
      invariant |newestFirst| == dayOffset
      invariant forall j :: 0 <= j < dayOffset ==> newestFirst[j] == ((today - j) in daysWithContributions)
    {
      var date := today - dayOffset;
      newestFirst := newestFirst + [date in daysWithContributions];
    }
    booleans := Reverse(newestFirst);
  }

  /**
   * A week whose positive-count days all fall outside the month-to-date range,
   * or repeat dates already counted, leaves the array unchanged: zero counts,
   * duplicate dates and out-of-range days have no effect.
   */
  lemma NoEffectWeek(weeks: seq<Week>, extra: Week, monthStart: int, today: int)
    requires monthStart <= today
    requires forall k :: 0 <= k < |extra.contributionDays| && extra.contributionDays[k].contributionCount > 0 ==>
               var d := extra.contributionDays[k].date;
               d < monthStart || today < d || ContributedOn(weeks, d)
    ensures ContributionFlags(weeks + [extra], monthStart, today) == ContributionFlags(weeks, monthStart, today)
  {
    var all := weeks + [extra];
    forall d | monthStart <= d <= today
      ensures ContributedOn(all, d) <==> ContributedOn(weeks, d)
    {
      if ContributedOn(all, d) {
        var w, k :| MarkedAt(all, w, k, d);
        if w < |weeks| {
          assert MarkedAt(weeks, w, k, d);
        } else {
          assert all[w] == extra;
        }
      }
      if ContributedOn(weeks, d) {
        var w, k :| MarkedAt(weeks, w, k, d);
        assert MarkedAt(all, w, k, d);
      }
    }
    var l, r := ContributionFlags(all, monthStart, today), ContributionFlags(weeks, monthStart, today);
    assert forall i :: 0 <= i < |l| ==> l[i] == r[i];
  }

  /** `fetchContributionBooleans`: failures pass through; a response is mapped by `createBooleanArray`. */
  method FetchContributionBooleans(response: Result<ContributionsCollection, string>, monthStart: int, today: int)
    returns (r: Result<seq<bool>, string>)
    requires monthStart <= today
    ensures response.Err? ==> r == Err(response.error)
    ensures response.Ok? ==> r.Ok? && r.value == ContributionFlags(response.value.contributionCalendar.weeks, monthStart, today)
  {
    match response
    case Ok(collection) =>
      var booleans := CreateBooleanArray(collection, monthStart, today);
      r := Ok(booleans);
    case Err(e) =>
      r := Err(e);
  }
}
