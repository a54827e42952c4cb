/** Backfill planning of scripts/backfill/historical_pull.py: the airport
    code in force on a date, the per-day cost estimate, the date range, the
    dry-run pull, and the cost-limited loop over the dates to pull. Dates
    are day numbers except where the source compares the date text itself;
    the FlightAware client is an oracle giving each pull's outcome. */
module Backfill {
  import opened Calendar
  import opened Text

  /** The first date served under the code KJPX. */
  const KjpxStartDate: string := "2022-05-01"

  /** `get_airport_code`: "KJPX" from 2022-05-01 on (by string order),
      "KHTO" before. */
  function AirportCode(dateStr: string): (code: string)
    ensures code == "KJPX" <==> !StrLess(dateStr, KjpxStartDate)
    ensures code == "KJPX" || code == "KHTO"
  {
    if !StrLess(dateStr, KjpxStartDate) then "KJPX" else "KHTO"
  }

  /** The switch-over day and the day before it. */
  lemma AirportCodeSwitch()
    ensures AirportCode("2022-05-01") == "KJPX"
    ensures AirportCode("2022-04-30") == "KHTO"
  {
    StrLessTrichotomy("2022-05-01", KjpxStartDate);
    assert StrLess("2022-04-30", KjpxStartDate) by {
      assert "2022-04-30"[..5] == KjpxStartDate[..5];
      assert "2022-04-30"[5..] == "04-30" && KjpxStartDate[5..] == "05-01";
      assert StrLess("04-30", "05-01");
      StrPrefixLess("2022-", "04-30", "05-01");
      assert "2022-04-30" == "2022-" + "04-30";
      assert KjpxStartDate == "2022-" + "05-01";
    }
  }

  /** `estimate_daily_cost`: 0.07 for a day from May to September, 0.02
      otherwise. */
  function EstimateDailyCost(day: Day): (cost: real)
    ensures IsSummer(day) <==> cost == 0.07
    ensures !IsSummer(day) <==> cost == 0.02
  {
    if IsSummer(day) then 0.07 else 0.02
  }

  /** `generate_date_range`: every day from `start` to `end`, ascending. */
  method GenerateDateRange(start: Day, end: Day) returns (dates: seq<Day>)
    ensures |dates| == if start <= end then end - start + 1 else 0
    ensures forall i :: 0 <= i < |dates| ==> dates[i] == start + i
  {
    dates := [];
    var current := start;
    while current <= end
      invariant start <= end ==> start <= current <= end + 1
      invariant start > end ==> current == start
      invariant |dates| == current - start
      invariant forall i :: 0 <= i < |dates| ==> dates[i] == start + i
      decreases end - current
    {
      dates := dates + [current];
      current := current + 1;
    }
  }

  /** Strictly ascending days. */
  predicate Ascending(days: seq<Day>)
  {
    forall i, j :: 0 <= i < j < |days| ==> days[i] < days[j]
  }

  /** A generated range is strictly ascending and holds exactly the days
      between its ends. */
  lemma DateRangeShape(dates: seq<Day>, start: Day, end: Day)
    requires |dates| == (if start <= end then end - start + 1 else 0)
    requires forall i :: 0 <= i < |dates| ==> dates[i] == start + i
    ensures Ascending(dates)
    ensures forall d :: d in dates <==> start <= d <= end
  {
    forall d | start <= d <= end
      ensures d in dates
    {
      assert dates[d - start] == d;
    }
  }

  /** The outcome of one pull. */
  datatype Status = Success | Error | DryRun

  datatype PullResult = PullResult(date: Day, airport: string, flights: int, cost: real, status: Status)

  /** The dry-run branch of `pull_single_date`: the estimate, no flights,
      and no call to the client. */
  function DryRunPull(day: Day, dateStr: string): (r: PullResult)
    ensures r.status == DryRun && r.flights == 0
    ensures r.cost == EstimateDailyCost(day) && r.airport == AirportCode(dateStr)
    ensures r.date == day
  {
    PullResult(day, AirportCode(dateStr), 0, EstimateDailyCost(day), DryRun)
  }

  /** `dates_to_pull`: the range without the dates already stored, in
      range order. */
  function DatesToPull(dates: seq<Day>, existing: set<Day>): (r: seq<Day>)
    ensures forall d :: d in r <==> d in dates && d !in existing
    ensures |r| <= |dates|
  {
    if |dates| == 0 then []
    else
      var init := DatesToPull(dates[..|dates| - 1], existing);
      var d := dates[|dates| - 1];
      assert dates == dates[..|dates| - 1] + [d];
      if d in existing then init else init + [d]
  }

  /** The filter keeps range order: an ascending range gives ascending
      dates to pull. */
  lemma {:induction false} DatesToPullAscending(dates: seq<Day>, existing: set<Day>)
    requires Ascending(dates)
    ensures Ascending(DatesToPull(dates, existing))
  {
    if |dates| > 0 {
      var init := dates[..|dates| - 1];
      var d := dates[|dates| - 1];
      DatesToPullAscending(init, existing);
      var kept := DatesToPull(init, existing);
      if d !in existing {
        forall k | 0 <= k < |kept|
          ensures kept[k] < d
        {
          assert kept[k] in kept;
        }
      }
    }
  }

  /** With nothing stored, every date is pulled. */
  lemma {:induction false} NothingStoredPullsAll(dates: seq<Day>)
    ensures DatesToPull(dates, {}) == dates
  {
    if |dates| > 0 {
      NothingStoredPullsAll(dates[..|dates| - 1]);
      assert dates == dates[..|dates| - 1] + [dates[|dates| - 1]];
    }
  }

  /** What the client reports after pulling one date: the result and the
      client's running cost estimate. */
  datatype Outcome = Outcome(result: PullResult, costAfter: real)

  /** The running cost before the `k`-th pull. */
  function CostBefore(outcomes: seq<Outcome>, k: nat): real
    requires k <= |outcomes|
  {
    if k == 0 then 0.0 else outcomes[k - 1].costAfter
  }

  /** The successful dates among the first `n` pulls, in order. */
  function Completed(dates: seq<Day>, outcomes: seq<Outcome>, n: nat): (r: seq<Day>)
    requires n <= |dates| && n <= |outcomes|
    ensures |r| <= n
  {
    if n == 0 then []
    else Completed(dates, outcomes, n - 1) + (if outcomes[n - 1].result.status == Success then [dates[n - 1]] else [])
  }

  /** The flights of the successful pulls among the first `n`. */
  function SuccessfulFlights(outcomes: seq<Outcome>, n: nat): int
    requires n <= |outcomes|
  {
    if n == 0 then 0
    else SuccessfulFlights(outcomes, n - 1) + (if outcomes[n - 1].result.status == Success then outcomes[n - 1].result.flights else 0)
  }

  datatype BackfillRun = BackfillRun(results: seq<PullResult>, completedDates: seq<Day>, totalFlights: int,
                                     totalCost: real)

  /** The live loop of `main`: before each date it stops once the client's
      running cost has reached `maxCost`; each pulled date's result is
      kept, and only successful dates join the completed ones. The pulls
      made are exactly the first `n`, where `n` is the first index whose
      running cost reaches the limit (or all of them); `n` is returned as
      the number of dates pulled. */
  method BackfillLoop(datesToPull: seq<Day>, outcomes: seq<Outcome>, completed: seq<Day>, maxCost: real)
    returns (r: BackfillRun, n: nat)
    requires |outcomes| == |datesToPull|
    ensures n <= |datesToPull|
    ensures forall k :: 0 <= k < n ==> CostBefore(outcomes, k) < maxCost
    ensures n < |datesToPull| ==> CostBefore(outcomes, n) >= maxCost
    ensures |r.results| == n && forall k :: 0 <= k < n ==> r.results[k] == outcomes[k].result
    ensures r.completedDates == completed + Completed(datesToPull, outcomes, n)
    ensures r.totalFlights == SuccessfulFlights(outcomes, n)
    ensures r.totalCost == CostBefore(outcomes, n)
  {
    var totalCost := 0.0;
    var totalFlights := 0;
    var results: seq<PullResult> := [];
    var completedDates := completed;
    var i := 0;
    while i < |datesToPull|
      invariant i <= |datesToPull|
      invariant forall k :: 0 <= k < i ==> CostBefore(outcomes, k) < maxCost
      invariant totalCost == CostBefore(outcomes, i)
      invariant |results| == i && forall k :: 0 <= k < i ==> results[k] == outcomes[k].result
      invariant completedDates == completed + Completed(datesToPull, outcomes, i)
      invariant totalFlights == SuccessfulFlights(outcomes, i)
    {
      if totalCost >= maxCost {
        break;
      }
      var result := outcomes[i].result;
      results := results + [result];
      if result.status == Success {
        totalFlights := totalFlights + result.flights;
        completedDates := completedDates + [datesToPull[i]];
      }
      totalCost := outcomes[i].costAfter;
      i := i + 1;
    }
    r := BackfillRun(results, completedDates, totalFlights, totalCost);
    n := i;
  }

  /** Only dates that were pulled, and succeeded, are recorded. */
  lemma {:induction false} CompletedAreSuccesses(dates: seq<Day>, outcomes: seq<Outcome>, n: nat)
    requires n <= |dates| && n <= |outcomes|
    ensures forall d :: d in Completed(dates, outcomes, n) ==>
      exists k :: 0 <= k < n && dates[k] == d && outcomes[k].result.status == Success
  {
    if n > 0 {
      CompletedAreSuccesses(dates, outcomes, n - 1);
    }
  }
}
