/**
 * The contribution calendar and its conversion into the 7 x N activity grid
 * (one row per weekday, one column per week, -1 where the calendar has no day).
 */
module Api {
  import opened Wrappers

  /** One day of GitHub's contribution calendar. */
  datatype ContributionDay = ContributionDay(date: string, weekday: int, contributionCount: int)

  /** One week of the calendar: the days it holds (the first and last week may be partial). */
  datatype Week = Week(contributionDays: seq<ContributionDay>, firstDay: string)

  /** The calendar as the GraphQL API returns it. */
  datatype RawContributionCalendar = RawContributionCalendar(totalContributions: int, weeks: seq<Week>)

  /** Number of rows of the grid: one per weekday, Sunday = 0 to Saturday = 6. */
  const Weekdays := 7

  /** The value of a cell for which the calendar has no day. */
  const NoDay := -1

  /**
   * Why a conversion stopped: the day at index `day` of week `week` has a weekday
   * that names no row, so the row lookup yields `undefined` and the write throws.
   */
  datatype ConvertError = WeekdayOutOfRange(week: nat, day: nat)

  predicate IsWeekday(w: int) {
    0 <= w < Weekdays
  }

  /** Every day of every week names a row of the grid. */
  predicate AllWeekdaysValid(weeks: seq<Week>) {
    forall i, k :: 0 <= i < |weeks| && 0 <= k < |weeks[i].contributionDays| ==>
      IsWeekday(weeks[i].contributionDays[k].weekday)
  }

  /**
   * The day at (week, day) is the first one, in the order the conversion visits
   * days (week by week, each week's days in order), whose weekday names no row.
   */
  predicate FirstInvalidDay(weeks: seq<Week>, e: ConvertError) {
    && e.week < |weeks|
    && e.day < |weeks[e.week].contributionDays|
    && !IsWeekday(weeks[e.week].contributionDays[e.day].weekday)
    && AllWeekdaysValid(weeks[..e.week])
    && forall k :: 0 <= k < e.day ==> IsWeekday(weeks[e.week].contributionDays[k].weekday)
  }

  /**
   * The count of the last day in `days` whose weekday is `r`, or None when no day
   * of `days` falls on `r`. Later days of a week overwrite earlier ones with the
   * same weekday, so this is the value that week leaves in row `r`.
   */
  function LastCount(days: seq<ContributionDay>, r: int): (o: Option<int>)
    ensures o.None? <==> forall k :: 0 <= k < |days| ==> days[k].weekday != r
    ensures o.Some? ==>
      exists k :: (0 <= k < |days| && days[k].weekday == r && days[k].contributionCount == o.value &&
        forall j :: k < j < |days| ==> days[j].weekday != r)
  {
    if days == [] then None
    else
      var n := |days| - 1;
      if days[n].weekday == r then Some(days[n].contributionCount)
      else
        var o := LastCount(days[..n], r);
        assert forall k :: 0 <= k < n ==> days[..n][k] == days[k];
        o
  }

  /** The grid the conversion produces when every weekday names a row. */
  function ConvertedGrid(weeks: seq<Week>): (g: seq<seq<int>>)
    ensures |g| == Weekdays
    ensures forall r :: 0 <= r < Weekdays ==> |g[r]| == |weeks|
    ensures weeks == [] ==> g == [[], [], [], [], [], [], []]
  {
    seq(Weekdays, r => seq(|weeks|, i requires 0 <= i < |weeks| =>
      LastCount(weeks[i].contributionDays, r).GetOr(NoDay)))
  }

  /** `g` has 7 rows of `n` cells each. */
  predicate HasShape(g: seq<seq<int>>, n: nat) {
    |g| == Weekdays && forall r :: 0 <= r < Weekdays ==> |g[r]| == n
  }

  /** A grid of `n` columns whose every cell holds the no-day sentinel. */
  predicate IsSentinelGrid(g: seq<seq<int>>, n: nat) {
    HasShape(g, n) && forall r, c :: 0 <= r < Weekdays && 0 <= c < n ==> g[r][c] == NoDay
  }

  /**
   * The first half of the conversion: seven rows, each built by pushing the
   * sentinel once per week, pushed in turn onto the result.
   */
  method SentinelGrid(n: nat) returns (result: seq<seq<int>>)
    ensures IsSentinelGrid(result, n)
  {
    result := [];
    var i := 0;
    while i < Weekdays
      invariant 0 <= i <= Weekdays && |result| == i
      invariant forall r :: 0 <= r < i ==> |result[r]| == n && forall c :: 0 <= c < n ==> result[r][c] == NoDay
    {
      var row: seq<int> := [];
      var j := 0;
      while j < n
        invariant 0 <= j <= n && |row| == j
        invariant forall c :: 0 <= c < j ==> row[c] == NoDay
      {
        row := row + [NoDay];
        j := j + 1;
      }
      result := result + [row];
      i := i + 1;
    }
  }

  /**
   * The writes of one week: each day of `days`, in order, stores its count in
   * row `weekday`, column `i`. On success column `i` of row `r` holds the last
   * count written to it (its old value when no day falls on `r`) and every other
   * column is as before. A day whose weekday names no row stops the week, and the
   * index of that day is returned.
   */
  method WriteWeek(grid: seq<seq<int>>, n: nat, i: nat, days: seq<ContributionDay>)
    returns (res: Result<seq<seq<int>>, nat>)
    requires HasShape(grid, n) && i < n
    ensures res.Failure? <==> exists k :: 0 <= k < |days| && !IsWeekday(days[k].weekday)
    ensures res.Failure? ==>
      (res.error < |days| && !IsWeekday(days[res.error].weekday) &&
       forall k :: 0 <= k < res.error ==> IsWeekday(days[k].weekday))
    ensures res.Success? ==> HasShape(res.value, n)
    ensures res.Success? ==> forall r :: 0 <= r < Weekdays ==>
      res.value[r][i] == LastCount(days, r).GetOr(grid[r][i])
    ensures res.Success? ==> forall r, c :: 0 <= r < Weekdays && 0 <= c < n && c != i ==>
      res.value[r][c] == grid[r][c]
  {
    var result := grid;
    var k := 0;
    while k < |days|
      invariant 0 <= k <= |days|
      invariant HasShape(result, n)
      invariant forall j :: 0 <= j < k ==> IsWeekday(days[j].weekday)
      invariant forall r :: 0 <= r < Weekdays ==> result[r][i] == LastCount(days[..k], r).GetOr(grid[r][i])
      invariant forall r, c :: 0 <= r < Weekdays && 0 <= c < n && c != i ==> result[r][c] == grid[r][c]
    {
      var day := days[k];
      if !IsWeekday(day.weekday) {
        return Failure(k);
      }
      result := result[day.weekday := result[day.weekday][i := day.contributionCount]];
      assert days[..k + 1][..k] == days[..k];
      k := k + 1;
    }
    assert days[..k] == days;
    res := Success(result);
  }

  /**
   * getConvertedContributions: a 7 x N grid of sentinels, then every day of week
   * `i` writes its count into row `weekday`, column `i`. It fails exactly when
   * some day's weekday names no row, at the first such day; otherwise the result
   * is ConvertedGrid(contribs).
   */
  method GetConvertedContributions(contribs: seq<Week>) returns (res: Result<seq<seq<int>>, ConvertError>)
    ensures res.Failure? <==> !AllWeekdaysValid(contribs)
    ensures res.Failure? ==> FirstInvalidDay(contribs, res.error)
    ensures res.Success? ==> res.value == ConvertedGrid(contribs)
    ensures contribs == [] ==> res == Success([[], [], [], [], [], [], []])
  {
    var result := SentinelGrid(|contribs|);
    var i := 0;
    while i < |contribs|
      invariant 0 <= i <= |contribs|
      invariant HasShape(result, |contribs|)
      invariant AllWeekdaysValid(contribs[..i])
      invariant forall r, c :: 0 <= r < Weekdays && 0 <= c < i ==>
        result[r][c] == ConvertedGrid(contribs)[r][c]
      invariant forall r, c :: 0 <= r < Weekdays && i <= c < |contribs| ==> result[r][c] == NoDay
    {
      var written := WriteWeek(result, |contribs|, i, contribs[i].contributionDays);
      if written.Failure? {
        res := Failure(WeekdayOutOfRange(i, written.error));
        assert FirstInvalidDay(contribs, res.error);
        return;
      }
      result := written.value;
      assert forall j :: 0 <= j < i ==> contribs[..i + 1][j] == contribs[..i][j];
      i := i + 1;
    }
    assert contribs[..i] == contribs;
    res := Success(result);
    GridEquality(result, ConvertedGrid(contribs), |contribs|);
  }

  /** Two grids of the same shape that agree cell by cell are equal. */
  lemma GridEquality(a: seq<seq<int>>, b: seq<seq<int>>, n: nat)
    requires HasShape(a, n) && HasShape(b, n)
    requires forall r, c :: 0 <= r < Weekdays && 0 <= c < n ==> a[r][c] == b[r][c]
    ensures a == b
  {
    forall r | 0 <= r < Weekdays ensures a[r] == b[r] {
    }
  }

  /** A cell whose week has no day on that weekday keeps the sentinel -1. */
  lemma SentinelWhereNoDay(weeks: seq<Week>, r: nat, i: nat)
    requires r < Weekdays && i < |weeks|
    requires forall d :: d in weeks[i].contributionDays ==> d.weekday != r
    ensures ConvertedGrid(weeks)[r][i] == NoDay
  {
    var days := weeks[i].contributionDays;
    assert forall k :: 0 <= k < |days| ==> days[k] in days;
  }

  /**
   * The last day of week `i` that falls on weekday `r` decides the cell: its count
   * is copied unchanged (0 and negative counts included; nothing is clamped).
   */
  lemma LastDayWins(weeks: seq<Week>, r: nat, i: nat, k: nat)
    requires r < Weekdays && i < |weeks| && k < |weeks[i].contributionDays|
    requires weeks[i].contributionDays[k].weekday == r
    requires forall j :: k < j < |weeks[i].contributionDays| ==> weeks[i].contributionDays[j].weekday != r
    ensures ConvertedGrid(weeks)[r][i] == weeks[i].contributionDays[k].contributionCount
  {
    var days := weeks[i].contributionDays;
    var o := LastCount(days, r);
    var k' :| 0 <= k' < |days| && days[k'].weekday == r && days[k'].contributionCount == o.value &&
      forall j :: k' < j < |days| ==> days[j].weekday != r;
    assert k' == k;
  }

  /**
   * Conversely, a cell other than the sentinel holds the count of some day of
   * its week that falls on its weekday.
   */
  lemma CellComesFromADay(weeks: seq<Week>, r: nat, i: nat)
    requires r < Weekdays && i < |weeks|
    requires ConvertedGrid(weeks)[r][i] != NoDay
    ensures exists d ::
      (d in weeks[i].contributionDays && d.weekday == r && d.contributionCount == ConvertedGrid(weeks)[r][i])
  {
    var days := weeks[i].contributionDays;
    var k :| 0 <= k < |days| && days[k].weekday == r &&
      days[k].contributionCount == LastCount(days, r).value &&
      forall j :: k < j < |days| ==> days[j].weekday != r;
    assert days[k] in days;
  }

  /** Column `i` of the grid depends on week `i` alone. */
  lemma ColumnDependsOnItsWeek(weeks: seq<Week>, weeks': seq<Week>, i: nat)
    requires i < |weeks| && i < |weeks'| && weeks[i] == weeks'[i]
    ensures forall r :: 0 <= r < Weekdays ==> ConvertedGrid(weeks)[r][i] == ConvertedGrid(weeks')[r][i]
  {
  }
}
