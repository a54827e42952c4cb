/** Coverage analysis of scripts/audit/find_gaps.py: the runs of dates
    without data, the seasonal split of the per-date flight counts, and
    the page and cost estimate for backfilling the runs. Dates are day
    numbers; parsing and formatting "YYYY-MM-DD" is not modelled. */
module Gaps {
  import opened Values
  import opened Calendar
  import opened Rounding

  /** A run of missing dates, both ends included. */
  datatype Gap = Gap(start: Day, end: Day, days: int)

  /** The number of dates in [lo, hi) without data. */
  function MissingCount(data: set<Day>, lo: Day, hi: Day): nat
    decreases hi - lo
  {
    if hi <= lo then 0 else MissingCount(data, lo, hi - 1) + (if hi - 1 in data then 0 else 1)
  }

  /** `g` is a maximal run of missing dates inside [lo, hi] whose `days` is
      its inclusive length. */
  ghost predicate IsRun(g: Gap, data: set<Day>, lo: Day, hi: Day)
  {
    && lo <= g.start <= g.end <= hi
    && g.days == g.end - g.start + 1
    && (forall d :: g.start <= d <= g.end ==> d !in data)
    && (g.start == lo || g.start - 1 in data)
    && (g.end == hi || g.end + 1 in data)
  }

  /** The date lies in one of the gaps. */
  predicate Covered(gaps: seq<Gap>, d: Day)
  {
    exists k :: 0 <= k < |gaps| && gaps[k].start <= d <= gaps[k].end
  }

  /** The total of the gaps' `days`. */
  function SumDays(gaps: seq<Gap>): int
  {
    if |gaps| == 0 then 0 else SumDays(gaps[..|gaps| - 1]) + gaps[|gaps| - 1].days
  }

  /** Everything `find_gaps` promises about its list for [lo, hi]: maximal
      runs, in ascending order with data between neighbours, covering every
      missing date, with `days` adding up to the number of missing dates. */
  ghost predicate GapsOf(gaps: seq<Gap>, data: set<Day>, lo: Day, hi: Day)
  {
    && (forall k :: 0 <= k < |gaps| ==> IsRun(gaps[k], data, lo, hi))
    && (forall k :: 0 <= k < |gaps| - 1 ==> gaps[k].end + 1 < gaps[k + 1].start)
    && (forall d :: lo <= d <= hi && d !in data ==> Covered(gaps, d))
    && SumDays(gaps) == MissingCount(data, lo, hi + 1)
  }

  /** The closed runs before `current`: maximal, each followed by a date
      with data, in ascending order. */
  ghost predicate ClosedRuns(gaps: seq<Gap>, current: Day, data: set<Day>, lo: Day, hi: Day)
  {
    && (forall k :: 0 <= k < |gaps| ==> IsRun(gaps[k], data, lo, hi) && gaps[k].end + 1 < current)
    && (forall k :: 0 <= k < |gaps| ==> gaps[k].end + 1 in data)
    && (forall k :: 0 <= k < |gaps| - 1 ==> gaps[k].end + 1 < gaps[k + 1].start)
  }

  /** The open run, if any, started after the last closed one, right after
      a date with data (or at `lo`), and every date since is missing. */
  ghost predicate OpenRun(gaps: seq<Gap>, gapStart: Option<Day>, current: Day, data: set<Day>, lo: Day)
  {
    && (gapStart.Some? ==>
          && lo <= gapStart.value < current
          && (forall d :: gapStart.value <= d < current ==> d !in data)
          && (gapStart.value == lo || gapStart.value - 1 in data)
          && (|gaps| > 0 ==> gaps[|gaps| - 1].end + 1 < gapStart.value))
    && (gapStart.None? ==> current == lo || current - 1 in data)
  }

  /** Every missing date before `current` is in a closed or the open run. */
  ghost predicate CoveredBefore(gaps: seq<Gap>, gapStart: Option<Day>, current: Day, data: set<Day>, lo: Day)
  {
    forall d :: lo <= d < current && d !in data ==> Covered(gaps, d) || (gapStart.Some? && gapStart.value <= d)
  }

  /** The loop state of `find_gaps` after the dates before `current`. */
  ghost predicate ScannedUpTo(gaps: seq<Gap>, gapStart: Option<Day>, current: Day, data: set<Day>, lo: Day, hi: Day)
  {
    && lo <= current <= hi + 1
    && ClosedRuns(gaps, current, data, lo, hi)
    && OpenRun(gaps, gapStart, current, data, lo)
    && CoveredBefore(gaps, gapStart, current, data, lo)
    && SumDays(gaps) + (if gapStart.Some? then current - gapStart.value else 0) == MissingCount(data, lo, current)
  }

  lemma SumDaysAppend(gaps: seq<Gap>, g: Gap)
    ensures SumDays(gaps + [g]) == SumDays(gaps) + g.days
  {
    assert (gaps + [g])[..|gaps|] == gaps;
  }

  lemma CoveredAppend(gaps: seq<Gap>, g: Gap, d: Day)
    requires Covered(gaps, d) || g.start <= d <= g.end
    ensures Covered(gaps + [g], d)
  {
    if Covered(gaps, d) {
      var k :| 0 <= k < |gaps| && gaps[k].start <= d <= gaps[k].end;
      assert (gaps + [g])[k] == gaps[k];
    } else {
      assert (gaps + [g])[|gaps|] == g;
    }
  }

  /** A missing date extends the open run, or opens one. */
  lemma StepMissing(gaps: seq<Gap>, gapStart: Option<Day>, current: Day, data: set<Day>, lo: Day, hi: Day)
    requires current <= hi && current !in data
    requires ScannedUpTo(gaps, gapStart, current, data, lo, hi)
    ensures ScannedUpTo(gaps, if gapStart.None? then Some(current) else gapStart, current + 1, data, lo, hi)
  {
    var gapStart' := if gapStart.None? then Some(current) else gapStart;
    assert ClosedRuns(gaps, current + 1, data, lo, hi);
    assert OpenRun(gaps, gapStart', current + 1, data, lo);
    assert CoveredBefore(gaps, gapStart', current + 1, data, lo);
  }

  /** The run closed by a date with data joins the closed runs. */
  lemma ClosingKeepsRuns(gaps: seq<Gap>, gapStart: Option<Day>, current: Day, data: set<Day>, lo: Day, hi: Day)
    requires current <= hi && current in data && gapStart.Some?
    requires lo <= current && ClosedRuns(gaps, current, data, lo, hi) && OpenRun(gaps, gapStart, current, data, lo)
    ensures ClosedRuns(gaps + [Gap(gapStart.value, current - 1, current - gapStart.value)], current + 1, data, lo, hi)
  {
    var g := Gap(gapStart.value, current - 1, current - gapStart.value);
    var gaps' := gaps + [g];
    assert IsRun(g, data, lo, hi);
    assert forall k :: 0 <= k < |gaps| ==> gaps'[k] == gaps[k];
  }

  /** The missing dates stay covered when the open run is closed. */
  lemma ClosingKeepsCover(gaps: seq<Gap>, gapStart: Option<Day>, current: Day, data: set<Day>, lo: Day)
    requires current in data && gapStart.Some?
    requires CoveredBefore(gaps, gapStart, current, data, lo)
    ensures CoveredBefore(gaps + [Gap(gapStart.value, current - 1, current - gapStart.value)], None, current + 1, data, lo)
  {
    var g := Gap(gapStart.value, current - 1, current - gapStart.value);
    forall d | lo <= d < current + 1 && d !in data
      ensures Covered(gaps + [g], d)
    {
      CoveredAppend(gaps, g, d);
    }
  }

  /** A date with data after a missing one closes the open run. */
  lemma StepCloses(gaps: seq<Gap>, gapStart: Option<Day>, current: Day, data: set<Day>, lo: Day, hi: Day)
    requires current <= hi && current in data && gapStart.Some?
    requires ScannedUpTo(gaps, gapStart, current, data, lo, hi)
    ensures ScannedUpTo(gaps + [Gap(gapStart.value, current - 1, current - gapStart.value)], None, current + 1, data, lo, hi)
  {
    var g := Gap(gapStart.value, current - 1, current - gapStart.value);
    SumDaysAppend(gaps, g);
    ClosingKeepsRuns(gaps, gapStart, current, data, lo, hi);
    ClosingKeepsCover(gaps, gapStart, current, data, lo);
  }

  /** A date with data after another one changes nothing but the cursor. */
  lemma StepStaysClosed(gaps: seq<Gap>, current: Day, data: set<Day>, lo: Day, hi: Day)
    requires current <= hi && current in data
    requires ScannedUpTo(gaps, None, current, data, lo, hi)
    ensures ScannedUpTo(gaps, None, current + 1, data, lo, hi)
  {
    assert ClosedRuns(gaps, current + 1, data, lo, hi);
  }

  /** One day of the `find_gaps` loop. */
  method ScanDay(data: set<Day>, lo: Day, hi: Day, current: Day, gaps: seq<Gap>, gapStart: Option<Day>)
    returns (gaps': seq<Gap>, gapStart': Option<Day>)
    requires current <= hi
    requires ScannedUpTo(gaps, gapStart, current, data, lo, hi)
    ensures ScannedUpTo(gaps', gapStart', current + 1, data, lo, hi)
  {
    gaps', gapStart' := gaps, gapStart;
    if current !in data {
      StepMissing(gaps, gapStart, current, data, lo, hi);
      if gapStart.None? {
        gapStart' := Some(current);
      }
    } else if gapStart.Some? {
      StepCloses(gaps, gapStart, current, data, lo, hi);
      gaps' := gaps + [Gap(gapStart.value, current - 1, current - gapStart.value)];
      gapStart' := None;
    } else {
      StepStaysClosed(gaps, current, data, lo, hi);
    }
  }

  /** After the last date, the open run, if any, becomes the trailing gap. */
  lemma FinishScan(gaps: seq<Gap>, gapStart: Option<Day>, data: set<Day>, lo: Day, hi: Day)
    requires lo <= hi && ScannedUpTo(gaps, gapStart, hi + 1, data, lo, hi)
    ensures gapStart.None? ==> GapsOf(gaps, data, lo, hi)
    ensures gapStart.Some? ==> GapsOf(gaps + [Gap(gapStart.value, hi, hi - gapStart.value + 1)], data, lo, hi)
  {
    if gapStart.Some? {
      var g := Gap(gapStart.value, hi, hi - gapStart.value + 1);
      var gaps' := gaps + [g];
      SumDaysAppend(gaps, g);
      assert IsRun(g, data, lo, hi);
      assert forall k :: 0 <= k < |gaps| ==> gaps'[k] == gaps[k];
      forall d | lo <= d <= hi && d !in data
        ensures Covered(gaps', d)
      {
        CoveredAppend(gaps, g, d);
      }
    }
  }

  /** Before the first date nothing has been scanned. */
  lemma ScanStart(data: set<Day>, lo: Day, hi: Day)
    requires lo <= hi
    ensures ScannedUpTo([], None, lo, data, lo, hi)
  {
  }

  /** `find_gaps`: the gaps of [lo, hi]; none when lo > hi. */
  method FindGaps(data: set<Day>, lo: Day, hi: Day) returns (gaps: seq<Gap>)
    ensures lo > hi ==> gaps == []
    ensures lo <= hi ==> GapsOf(gaps, data, lo, hi)
  {
    gaps := [];
    if lo > hi {
      return;
    }
    var current := lo;
    var gapStart: Option<Day> := None;
    ScanStart(data, lo, hi);
    while current <= hi
      invariant ScannedUpTo(gaps, gapStart, current, data, lo, hi)
      decreases hi - current
    {
      gaps, gapStart := ScanDay(data, lo, hi, current, gaps, gapStart);
      current := current + 1;
    }
    FinishScan(gaps, gapStart, data, lo, hi);
    if gapStart.Some? {
      gaps := gaps + [Gap(gapStart.value, hi, hi - gapStart.value + 1)];
    }
  }

  /** With data on every date of a range, nothing in it is missing. */
  lemma {:induction false} NoneMissingNoDays(data: set<Day>, lo: Day, hi: Day)
    requires forall d :: lo <= d < hi ==> d in data
    ensures MissingCount(data, lo, hi) == 0
    decreases hi - lo
  {
    if hi > lo {
      NoneMissingNoDays(data, lo, hi - 1);
    }
  }

  /** With no data at all, every date of a range is missing. */
  lemma {:induction false} AllMissing(data: set<Day>, lo: Day, hi: Day)
    requires forall d :: lo <= d < hi ==> d !in data
    ensures MissingCount(data, lo, hi) == if hi <= lo then 0 else hi - lo
    decreases hi - lo
  {
    if hi > lo {
      AllMissing(data, lo, hi - 1);
    }
  }

  /** A fully covered range yields gaps of zero total days, and an empty
      data set a single gap total equal to the range's length. */
  lemma CoverageExtremes(gaps: seq<Gap>, data: set<Day>, lo: Day, hi: Day)
    requires lo <= hi && GapsOf(gaps, data, lo, hi)
    ensures (forall d :: lo <= d <= hi ==> d in data) ==> SumDays(gaps) == 0
    ensures (forall d :: lo <= d <= hi ==> d !in data) ==> SumDays(gaps) == hi - lo + 1
  {
    if forall d :: lo <= d <= hi ==> d in data {
      NoneMissingNoDays(data, lo, hi + 1);
    }
    if forall d :: lo <= d <= hi ==> d !in data {
      AllMissing(data, lo, hi + 1);
    }
  }

  // ---------------------------------------------------------------------
  // Seasonal coverage
  // ---------------------------------------------------------------------

  /** Dates and flights of one season. */
  datatype Season = Season(dates: nat, flights: int)

  datatype Coverage = Coverage(summer: Season, winter: Season, summerAvgPerDay: real, winterAvgPerDay: real)

  /** The (date, count) items of one season. */
  function SeasonOf(items: seq<(Day, int)>, summer: bool): (s: Season)
    ensures s.dates <= |items|
    ensures s.dates == |items| ==> forall k :: 0 <= k < |items| ==> IsSummer(items[k].0) == summer
  {
    if |items| == 0 then Season(0, 0)
    else
      var s := SeasonOf(items[..|items| - 1], summer);
      var (d, count) := items[|items| - 1];
      if IsSummer(d) == summer then Season(s.dates + 1, s.flights + count) else s
  }

  /** The total of the counts. */
  function TotalFlights(items: seq<(Day, int)>): int
  {
    if |items| == 0 then 0 else TotalFlights(items[..|items| - 1]) + items[|items| - 1].1
  }

  /** The two seasons partition the dates and the flights. */
  lemma {:induction false} SeasonsPartition(items: seq<(Day, int)>)
    ensures SeasonOf(items, true).dates + SeasonOf(items, false).dates == |items|
    ensures SeasonOf(items, true).flights + SeasonOf(items, false).flights == TotalFlights(items)
  {
    if |items| > 0 {
      SeasonsPartition(items[..|items| - 1]);
    }
  }

  /** `flights / max(1, dates)` */
  function AveragePerDay(s: Season): (avg: real)
    ensures s.dates == 0 ==> avg == s.flights as real
    ensures s.dates > 0 ==> avg * s.dates as real == s.flights as real
  {
    s.flights as real / (if s.dates > 0 then s.dates else 1) as real
  }

  /** `analyze_seasonal_coverage` over the per-date counts, in dictionary
      order. */
  method AnalyzeSeasonalCoverage(items: seq<(Day, int)>) returns (r: Coverage)
    ensures r.summer == SeasonOf(items, true) && r.winter == SeasonOf(items, false)
    ensures r.summerAvgPerDay == AveragePerDay(r.summer) && r.winterAvgPerDay == AveragePerDay(r.winter)
  {
    var summer := Season(0, 0);
    var winter := Season(0, 0);
    for i := 0 to |items|
      invariant summer == SeasonOf(items[..i], true) && winter == SeasonOf(items[..i], false)
    {
      assert items[..i + 1][..i] == items[..i];
      var (d, count) := items[i];
      if IsSummer(d) {
        summer := Season(summer.dates + 1, summer.flights + count);
      } else {
        winter := Season(winter.dates + 1, winter.flights + count);
      }
    }
    assert items[..|items|] == items;
    r := Coverage(summer, winter, AveragePerDay(summer), AveragePerDay(winter));
  }

  // ---------------------------------------------------------------------
  // Backfill cost estimate
  // ---------------------------------------------------------------------

  datatype CostEstimate = CostEstimate(totalMissingDays: nat, summerDays: nat, winterDays: nat,
                                       estimatedPages: int, estimatedCostUsd: real)

  /** `max(1, int(avg / 15) + 1)`: the pages one day of a season takes. */
  function PagesPerDay(avg: real): (n: int)
    ensures n >= 1
    ensures avg >= 0.0 ==> n == (avg / 15.0).Floor + 1
  {
    var p := Truncate(avg / 15.0) + 1;
    if p > 1 then p else 1
  }

  /** The pages of one date. */
  function DayPages(d: Day, seasonal: Coverage): int
  {
    if IsSummer(d) then PagesPerDay(seasonal.summerAvgPerDay) else PagesPerDay(seasonal.winterAvgPerDay)
  }

  /** Summer days, winter days and pages counted so far. */
  datatype Tally = Tally(summerDays: nat, winterDays: nat, pages: int)

  /** The tally after one more date. */
  function AddDay(t: Tally, d: Day, seasonal: Coverage): (r: Tally)
    ensures r.summerDays + r.winterDays == t.summerDays + t.winterDays + 1
    ensures r.pages >= t.pages + 1
  {
    if IsSummer(d) then Tally(t.summerDays + 1, t.winterDays, t.pages + DayPages(d, seasonal))
    else Tally(t.summerDays, t.winterDays + 1, t.pages + DayPages(d, seasonal))
  }

  /** The tally of the dates [lo, hi). */
  function RangeTally(lo: Day, hi: Day, seasonal: Coverage): (t: Tally)
    decreases hi - lo
    ensures t.pages >= t.summerDays + t.winterDays
  {
    if hi <= lo then Tally(0, 0, 0) else AddDay(RangeTally(lo, hi - 1, seasonal), hi - 1, seasonal)
  }

  /** A range tallies one day per date. */
  lemma {:induction false} RangeTallyDays(lo: Day, hi: Day, seasonal: Coverage)
    ensures RangeTally(lo, hi, seasonal).summerDays + RangeTally(lo, hi, seasonal).winterDays
      == if hi <= lo then 0 else hi - lo
    decreases hi - lo
  {
    if hi > lo {
      RangeTallyDays(lo, hi - 1, seasonal);
    }
  }

  function Plus(t: Tally, u: Tally): Tally
  {
    Tally(t.summerDays + u.summerDays, t.winterDays + u.winterDays, t.pages + u.pages)
  }

  /** The summed tally of the gaps' dates, gap after gap. */
  function GapsTally(gaps: seq<Gap>, seasonal: Coverage): (t: Tally)
    ensures t.pages >= t.summerDays + t.winterDays
  {
    if |gaps| == 0 then Tally(0, 0, 0)
    else
      var g := gaps[|gaps| - 1];
      Plus(GapsTally(gaps[..|gaps| - 1], seasonal), RangeTally(g.start, g.end + 1, seasonal))
  }

  /** The inclusive length of a gap, zero when it is reversed. */
  function Length(g: Gap): nat
  {
    if g.end < g.start then 0 else g.end - g.start + 1
  }

  function SumLengths(gaps: seq<Gap>): nat
  {
    if |gaps| == 0 then 0 else SumLengths(gaps[..|gaps| - 1]) + Length(gaps[|gaps| - 1])
  }

  /** The missing days counted are the gaps' total length. */
  lemma {:induction false} GapsTallyDays(gaps: seq<Gap>, seasonal: Coverage)
    ensures GapsTally(gaps, seasonal).summerDays + GapsTally(gaps, seasonal).winterDays == SumLengths(gaps)
  {
    if |gaps| > 0 {
      var g := gaps[|gaps| - 1];
      GapsTallyDays(gaps[..|gaps| - 1], seasonal);
      RangeTallyDays(g.start, g.end + 1, seasonal);
    }
  }

  /** For the runs `find_gaps` reports, the lengths are their `days`. */
  lemma {:induction false} RunLengthsAreDays(gaps: seq<Gap>, data: set<Day>, lo: Day, hi: Day)
    requires forall k :: 0 <= k < |gaps| ==> IsRun(gaps[k], data, lo, hi)
    ensures SumLengths(gaps) == SumDays(gaps)
  {
    if |gaps| > 0 {
      RunLengthsAreDays(gaps[..|gaps| - 1], data, lo, hi);
    }
  }

  /** The dates of one gap, both ends included. */
  method TallyRange(lo: Day, hi: Day, seasonal: Coverage) returns (t: Tally)
    ensures t == RangeTally(lo, hi + 1, seasonal)
  {
    t := Tally(0, 0, 0);
    if hi < lo {
      return;
    }
    var current := lo;
    while current <= hi
      invariant lo <= current <= hi + 1
      invariant t == RangeTally(lo, current, seasonal)
      decreases hi - current
    {
      assert RangeTally(lo, current + 1, seasonal) == AddDay(t, current, seasonal);
      var pages := t.pages + DayPages(current, seasonal);
      if IsSummer(current) {
        t := Tally(t.summerDays + 1, t.winterDays, pages);
      } else {
        t := Tally(t.summerDays, t.winterDays + 1, pages);
      }
      current := current + 1;
    }
  }

  /** The tally of one more gap. */
  lemma GapsTallyStep(gaps: seq<Gap>, i: nat, seasonal: Coverage)
    requires i < |gaps|
    ensures GapsTally(gaps[..i + 1], seasonal) ==
      Plus(GapsTally(gaps[..i], seasonal), RangeTally(gaps[i].start, gaps[i].end + 1, seasonal))
  {
    assert gaps[..i + 1][..i] == gaps[..i];
  }

  /** `estimate_backfill_cost`: every date of every gap is counted as a
      summer or a winter day and adds at least one page; the cost is one
      cent per page. */
  method EstimateBackfillCost(gaps: seq<Gap>, seasonal: Coverage) returns (r: CostEstimate)
    ensures Tally(r.summerDays, r.winterDays, r.estimatedPages) == GapsTally(gaps, seasonal)
    ensures r.totalMissingDays == r.summerDays + r.winterDays == SumLengths(gaps)
    ensures r.estimatedPages >= r.totalMissingDays
    ensures r.estimatedCostUsd == r.estimatedPages as real * 0.01
  {
    var total := Tally(0, 0, 0);
    for i := 0 to |gaps|
      invariant total == GapsTally(gaps[..i], seasonal)
    {
      GapsTallyStep(gaps, i, seasonal);
      var t := TallyRange(gaps[i].start, gaps[i].end, seasonal);
      total := Plus(total, t);
    }
    assert gaps[..|gaps|] == gaps;
    GapsTallyDays(gaps, seasonal);
    r := CostEstimate(total.summerDays + total.winterDays, total.summerDays, total.winterDays, total.pages,
                      total.pages as real * 0.01);
  }

  /** Applied to the output of `find_gaps`, the estimate counts exactly the
      missing dates of the range. */
  lemma EstimateCountsMissingDates(gaps: seq<Gap>, data: set<Day>, lo: Day, hi: Day, seasonal: Coverage)
    requires lo <= hi && GapsOf(gaps, data, lo, hi)
    ensures GapsTally(gaps, seasonal).summerDays + GapsTally(gaps, seasonal).winterDays == MissingCount(data, lo, hi + 1)
  {
    GapsTallyDays(gaps, seasonal);
    RunLengthsAreDays(gaps, data, lo, hi);
  }
}
