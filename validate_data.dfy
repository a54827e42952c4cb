/** The data-quality rules of the validation suite
    (scripts/validate/validate_data.py): an accumulator of errors and
    warnings with per-field counters, the per-flight field checks, and the
    recount of the daily summaries. Fetching rows from either database is
    not modelled: flights and summaries come in as values. */
module Validation {
  import opened Values
  import opened Classify

  const RequiredFields: seq<string> := ["fa_flight_id", "direction"]
  const RecommendedFields: seq<string> := ["aircraft_type", "registration", "operation_date", "operation_hour_et"]
  const ValidDirections: seq<string> := ["arrival", "departure"]
  const ValidCategories: seq<string> := ["helicopter", "jet", "fixed_wing", "unknown"]

  /** One reported problem. The human-readable message is not modelled. */
  datatype Issue = Issue(flightId: Value, field: string, severity: string)

  /** The number of issues about `field`. */
  function CountField(issues: seq<Issue>, field: string): (n: nat)
    ensures n <= |issues|
  {
    if |issues| == 0 then 0
    else CountField(issues[..|issues| - 1], field) + (if issues[|issues| - 1].field == field then 1 else 0)
  }

  /** Appending one issue counts it when it is about `field`. */
  lemma CountFieldAppend(issues: seq<Issue>, x: Issue, field: string)
    ensures CountField(issues + [x], field) == CountField(issues, field) + (if x.field == field then 1 else 0)
  {
    assert (issues + [x])[..|issues|] == issues;
  }

  /** A `defaultdict(int)` read. */
  function StatOf(stats: map<string, int>, key: string): int
  {
    if key in stats then stats[key] else 0
  }

  /** The counter name "error_<field>". */
  function ErrorKey(field: string): (k: string)
    ensures |k| == 6 + |field| && k[0] == 'e' && k[6..] == field
  {
    "error_" + field
  }

  /** The counter name "warning_<field>". */
  function WarningKey(field: string): (k: string)
    ensures |k| == 8 + |field| && k[0] == 'w' && k[8..] == field
  {
    "warning_" + field
  }

  /** What `to_dict` reports. */
  datatype Report = Report(totalErrors: nat, totalWarnings: nat, errors: seq<Issue>, warnings: seq<Issue>,
                           stats: map<string, int>)

  /** `ValidationResult`: the errors and warnings found so far, and a
      counter per "error_<field>" and "warning_<field>". */
  class ValidationResult {
    var errors: seq<Issue>
    var warnings: seq<Issue>
    var stats: map<string, int>

    /** Every counter equals the number of issues of its kind about its
        field. */
    ghost predicate Valid()
      reads this
    {
      forall field ::
        StatOf(stats, ErrorKey(field)) == CountField(errors, field) &&
        StatOf(stats, WarningKey(field)) == CountField(warnings, field)
    }

    constructor()
      ensures errors == [] && warnings == [] && stats == map[]
      ensures Valid()
    {
      errors := [];
      warnings := [];
      stats := map[];
    }

    /** `error`: one more error about `field`, and its counter goes up by
        one. */
    method Error(flightId: Value, field: string)
      requires Valid()
      modifies this
      ensures errors == old(errors) + [Issue(flightId, field, "error")] && warnings == old(warnings)
      ensures stats == old(stats)[ErrorKey(field) := StatOf(old(stats), ErrorKey(field)) + 1]
      ensures Valid()
    {
      var x := Issue(flightId, field, "error");
      forall other
        ensures StatOf(stats[ErrorKey(field) := StatOf(stats, ErrorKey(field)) + 1], ErrorKey(other))
          == CountField(errors + [x], other)
        ensures StatOf(stats[ErrorKey(field) := StatOf(stats, ErrorKey(field)) + 1], WarningKey(other))
          == CountField(warnings, other)
      {
        CountFieldAppend(errors, x, other);
        assert ErrorKey(other) == ErrorKey(field) ==> other == field;
        assert WarningKey(other)[0] != ErrorKey(field)[0];
      }
      errors := errors + [x];
      stats := stats[ErrorKey(field) := StatOf(stats, ErrorKey(field)) + 1];
    }

    /** `warning`: one more warning about `field`, and its counter goes up
        by one. */
    method Warning(flightId: Value, field: string)
      requires Valid()
      modifies this
      ensures warnings == old(warnings) + [Issue(flightId, field, "warning")] && errors == old(errors)
      ensures stats == old(stats)[WarningKey(field) := StatOf(old(stats), WarningKey(field)) + 1]
      ensures Valid()
    {
      var x := Issue(flightId, field, "warning");
      forall other
        ensures StatOf(stats[WarningKey(field) := StatOf(stats, WarningKey(field)) + 1], WarningKey(other))
          == CountField(warnings + [x], other)
        ensures StatOf(stats[WarningKey(field) := StatOf(stats, WarningKey(field)) + 1], ErrorKey(other))
          == CountField(errors, other)
      {
        CountFieldAppend(warnings, x, other);
        assert WarningKey(other) == WarningKey(field) ==> other == field;
        assert ErrorKey(other)[0] != WarningKey(field)[0];
      }
      warnings := warnings + [x];
      stats := stats[WarningKey(field) := StatOf(stats, WarningKey(field)) + 1];
    }

    /** `to_dict`: the totals count every issue, while the lists hold only
        the first 100 of each. */
    function ToDict(): (r: Report)
      reads this
      ensures r.totalErrors == |errors| && r.totalWarnings == |warnings|
      ensures |r.errors| <= 100 && |r.errors| <= |errors| && r.errors == errors[..|r.errors|]
      ensures |r.warnings| <= 100 && |r.warnings| <= |warnings| && r.warnings == warnings[..|r.warnings|]
      ensures |errors| <= 100 ==> r.errors == errors
      ensures |warnings| <= 100 ==> r.warnings == warnings
      ensures r.stats == stats
    {
      Report(|errors|, |warnings|, Take(errors, 100), Take(warnings, 100), stats)
    }
  }

  // ---------------------------------------------------------------------
  // Field checks
  // ---------------------------------------------------------------------

  /** `flight.get("fa_flight_id", "UNKNOWN")` */
  function FlightId(flight: Record): Value
  {
    GetOr(flight, "fa_flight_id", Str("UNKNOWN"))
  }

  /** The fields, in order, whose value in the flight is falsy. */
  function Missing(flight: Record, fields: seq<string>): (r: seq<string>)
    ensures forall f :: f in r <==> f in fields && !Truthy(Get(flight, f))
    ensures |r| <= |fields|
  {
    if |fields| == 0 then []
    else
      var init := Missing(flight, fields[..|fields| - 1]);
      var f := fields[|fields| - 1];
      assert fields == fields[..|fields| - 1] + [f];
      if Truthy(Get(flight, f)) then init else init + [f]
  }

  /** One issue per field. */
  function IssuesFor(flightId: Value, fields: seq<string>, severity: string): (r: seq<Issue>)
    ensures |r| == |fields|
    ensures forall i :: 0 <= i < |fields| ==> r[i] == Issue(flightId, fields[i], severity)
  {
    seq(|fields|, i requires 0 <= i < |fields| => Issue(flightId, fields[i], severity))
  }

  /** The missing fields of a longer prefix. */
  lemma MissingStep(flight: Record, fields: seq<string>, i: nat)
    requires i < |fields|
    ensures Missing(flight, fields[..i + 1]) ==
      Missing(flight, fields[..i]) + (if Truthy(Get(flight, fields[i])) then [] else [fields[i]])
  {
    assert fields[..i + 1][..i] == fields[..i];
  }

  /** Issues for one more field. */
  lemma IssuesForAppend(flightId: Value, fields: seq<string>, field: string, severity: string)
    ensures IssuesFor(flightId, fields + [field], severity) == IssuesFor(flightId, fields, severity) + [Issue(flightId, field, severity)]
  {
  }

  /** An hour of 0 is falsy, so it draws a "missing" warning. */
  lemma MidnightHourLooksMissing(flight: Record)
    requires Get(flight, "operation_hour_et") == Int(0)
    ensures "operation_hour_et" in Missing(flight, RecommendedFields)
  {
  }

  /** Reports each falsy field of `fields`, in order, as an error. */
  method ReportMissingErrors(flight: Record, fields: seq<string>, result: ValidationResult)
    requires result.Valid()
    modifies result
    ensures result.Valid() && result.warnings == old(result.warnings)
    ensures result.errors == old(result.errors) + IssuesFor(FlightId(flight), Missing(flight, fields), "error")
  {
    var flightId := FlightId(flight);
    for i := 0 to |fields|
      invariant result.Valid() && result.warnings == old(result.warnings)
      invariant result.errors == old(result.errors) + IssuesFor(flightId, Missing(flight, fields[..i]), "error")
    {
      MissingStep(flight, fields, i);
      IssuesForAppend(flightId, Missing(flight, fields[..i]), fields[i], "error");
      if !Truthy(Get(flight, fields[i])) {
        result.Error(flightId, fields[i]);
      }
    }
    assert fields[..|fields|] == fields;
  }

  /** Reports each falsy field of `fields`, in order, as a warning. */
  method ReportMissingWarnings(flight: Record, fields: seq<string>, result: ValidationResult)
    requires result.Valid()
    modifies result
    ensures result.Valid() && result.errors == old(result.errors)
    ensures result.warnings == old(result.warnings) + IssuesFor(FlightId(flight), Missing(flight, fields), "warning")
  {
    var flightId := FlightId(flight);
    for i := 0 to |fields|
      invariant result.Valid() && result.errors == old(result.errors)
      invariant result.warnings == old(result.warnings) + IssuesFor(flightId, Missing(flight, fields[..i]), "warning")
    {
      MissingStep(flight, fields, i);
      IssuesForAppend(flightId, Missing(flight, fields[..i]), fields[i], "warning");
      if !Truthy(Get(flight, fields[i])) {
        result.Warning(flightId, fields[i]);
      }
    }
    assert fields[..|fields|] == fields;
  }

  /** `validate_required_fields`: one error per falsy required field and one
      warning per falsy recommended field, in field order. */
  method ValidateRequiredFields(flight: Record, result: ValidationResult)
    requires result.Valid()
    modifies result
    ensures result.Valid()
    ensures result.errors == old(result.errors) + IssuesFor(FlightId(flight), Missing(flight, RequiredFields), "error")
    ensures result.warnings == old(result.warnings) + IssuesFor(FlightId(flight), Missing(flight, RecommendedFields), "warning")
  {
    ReportMissingErrors(flight, RequiredFields, result);
    ReportMissingWarnings(flight, RecommendedFields, result);
  }

  /** Python `v in names` for a list of strings. */
  predicate InNames(v: Value, names: seq<string>)
  {
    v.Str? && v.s in names
  }

  /** The direction is set but is neither "arrival" nor "departure". */
  predicate InvalidDirection(flight: Record)
  {
    Truthy(Get(flight, "direction")) && !InNames(Get(flight, "direction"), ValidDirections)
  }

  /** `validate_direction`: one error exactly when the direction is set and
      not a valid one. */
  method ValidateDirection(flight: Record, result: ValidationResult)
    requires result.Valid()
    modifies result
    ensures result.Valid() && result.warnings == old(result.warnings)
    ensures result.errors == old(result.errors) +
      (if InvalidDirection(flight) then [Issue(FlightId(flight), "direction", "error")] else [])
  {
    var direction := Get(flight, "direction");
    if Truthy(direction) && !InNames(direction, ValidDirections) {
      result.Error(FlightId(flight), "direction");
    }
  }

  /** The stored category is set but is not one of the four. */
  predicate InvalidCategory(flight: Record)
  {
    Truthy(Get(flight, "aircraft_category")) && !InNames(Get(flight, "aircraft_category"), ValidCategories)
  }

  /** The type is set and the stored category differs from what
      `classify` gives for it. */
  predicate MismatchBy(flight: Record, classify: string -> Category)
    requires var t := Get(flight, "aircraft_type"); Truthy(t) ==> t.Str?
  {
    var t := Get(flight, "aircraft_type");
    Truthy(t) && !PyEq(Get(flight, "aircraft_category"), Str(CategoryName(classify(t.s))))
  }

  /** The type is set and the stored category differs from what
      `classify_aircraft` gives for it. */
  predicate CategoryMismatch(flight: Record)
    requires var t := Get(flight, "aircraft_type"); Truthy(t) ==> t.Str?
  {
    MismatchBy(flight, ClassifyAircraft)
  }

  /** The two checks of `validate_category` for a given classifier. */
  method CheckCategory(flight: Record, classify: string -> Category, result: ValidationResult)
    requires result.Valid()
    requires var t := Get(flight, "aircraft_type"); Truthy(t) ==> t.Str?
    modifies result
    ensures result.Valid()
    ensures result.errors == old(result.errors) +
      (if InvalidCategory(flight) then [Issue(FlightId(flight), "aircraft_category", "error")] else [])
    ensures result.warnings == old(result.warnings) +
      (if MismatchBy(flight, classify) then [Issue(FlightId(flight), "aircraft_category", "warning")] else [])
  {
    var flightId := FlightId(flight);
    var stored := Get(flight, "aircraft_category");
    var aircraftType := Get(flight, "aircraft_type");
    if Truthy(stored) && !InNames(stored, ValidCategories) {
      result.Error(flightId, "aircraft_category");
    }
    if Truthy(aircraftType) {
      var expected := CategoryName(classify(aircraftType.s));
      if !PyEq(stored, Str(expected)) {
        result.Warning(flightId, "aircraft_category");
      }
    }
  }

  /** `validate_category`, for flights whose type, when set, is text (the
      classifier strips it): an error for a category outside the four, and
      a warning when the stored category is not the classification. */
  method ValidateCategory(flight: Record, result: ValidationResult)
    requires result.Valid()
    requires var t := Get(flight, "aircraft_type"); Truthy(t) ==> t.Str?
    modifies result
    ensures result.Valid()
    ensures result.errors == old(result.errors) +
      (if InvalidCategory(flight) then [Issue(FlightId(flight), "aircraft_category", "error")] else [])
    ensures result.warnings == old(result.warnings) +
      (if CategoryMismatch(flight) then [Issue(FlightId(flight), "aircraft_category", "warning")] else [])
  {
    CheckCategory(flight, ClassifyAircraft, result);
  }

  /** A stored category equal to the classification of the stored type
      draws neither an error nor a warning. */
  lemma ConsistentCategoryPasses(flight: Record)
    requires Get(flight, "aircraft_type").Str? && Get(flight, "aircraft_type").s != ""
    requires Get(flight, "aircraft_category") == Str(CategoryName(ClassifyAircraft(Get(flight, "aircraft_type").s)))
    ensures !InvalidCategory(flight) && !CategoryMismatch(flight)
  {
  }

  /** The hour is present but is not an integer in 0..23 (a bool counts as
      the integer 0 or 1). */
  predicate InvalidHour(hour: Value)
  {
    !hour.Null? && (NumberOf(hour).None? || NumberOf(hour).value < 0 || NumberOf(hour).value > 23)
  }

  /** The hour check of `validate_timestamps`: one error exactly when the
      hour is invalid. */
  method ValidateHour(flight: Record, result: ValidationResult)
    requires result.Valid()
    modifies result
    ensures result.Valid() && result.warnings == old(result.warnings)
    ensures result.errors == old(result.errors) +
      (if InvalidHour(Get(flight, "operation_hour_et")) then [Issue(FlightId(flight), "operation_hour_et", "error")] else [])
  {
    var hour := Get(flight, "operation_hour_et");
    if !hour.Null? {
      var n := NumberOf(hour);
      if n.None? || n.value < 0 || n.value > 23 {
        result.Error(FlightId(flight), "operation_hour_et");
      }
    }
  }

  /** Every hour of the day passes, and nothing else that is a number. */
  lemma HoursOfDayValid(h: int)
    ensures !InvalidHour(Int(h)) <==> 0 <= h <= 23
    ensures InvalidHour(Str("7"))
  {
  }

  /** `bool(curfew)` when the flag is stored as an integer. */
  function NormalizeFlag(curfew: Value): (v: Value)
    ensures curfew.Int? ==> v == Bool(curfew.i != 0)
    ensures !curfew.Int? ==> v == curfew
  {
    if curfew.Int? then Bool(curfew.i != 0) else curfew
  }

  /** Hour and flag are both present and the flag disagrees with the
      curfew rule for that hour. */
  predicate CurfewFlagMismatch(flight: Record)
    requires var h := Get(flight, "operation_hour_et"); h.Null? || NumberOf(h).Some?
  {
    var hour := Get(flight, "operation_hour_et");
    var curfew := Get(flight, "is_curfew_period");
    !hour.Null? && !curfew.Null? && !PyEq(NormalizeFlag(curfew), Bool(IsCurfewHour(NumberOf(hour).value)))
  }

  /** `validate_curfew_flag`, for flights whose hour, when present, is a
      number (the rule compares it with 7 and 21): one warning exactly when
      the flag disagrees with the rule. */
  method ValidateCurfewFlag(flight: Record, result: ValidationResult)
    requires result.Valid()
    requires var h := Get(flight, "operation_hour_et"); h.Null? || NumberOf(h).Some?
    modifies result
    ensures result.Valid() && result.errors == old(result.errors)
    ensures result.warnings == old(result.warnings) +
      (if CurfewFlagMismatch(flight) then [Issue(FlightId(flight), "is_curfew_period", "warning")] else [])
  {
    var hour := Get(flight, "operation_hour_et");
    var curfew := Get(flight, "is_curfew_period");
    if !hour.Null? && !curfew.Null? {
      curfew := NormalizeFlag(curfew);
      var expected := IsCurfewHour(NumberOf(hour).value);
      if !PyEq(curfew, Bool(expected)) {
        result.Warning(FlightId(flight), "is_curfew_period");
      }
    }
  }

  /** A flag stored as 1 or 0 is judged like True or False. */
  lemma IntegerFlagsLikeBooleans(flight: Record, b: bool)
    requires var h := Get(flight, "operation_hour_et"); h.Int?
    requires Get(flight, "is_curfew_period") == Int(if b then 1 else 0)
    ensures CurfewFlagMismatch(flight) <==> b != IsCurfewHour(Get(flight, "operation_hour_et").i)
  {
  }

  // ---------------------------------------------------------------------
  // Daily summary recount
  // ---------------------------------------------------------------------

  /** The recounted figures of one date. */
  datatype Counts = Counts(total: nat, arrivals: nat, departures: nat, helicopters: nat, jets: nat,
                           fixedWing: nat, curfew: nat)

  const NoCounts := Counts(0, 0, 0, 0, 0, 0, 0)

  /** One more flight on the date: its direction and category are counted
      when they are one of the known ones, its curfew flag when truthy. */
  function Tally(c: Counts, flight: Record): (r: Counts)
    ensures r.total == c.total + 1
    ensures r.arrivals + r.departures <= c.arrivals + c.departures + 1
    ensures r.helicopters + r.jets + r.fixedWing <= c.helicopters + c.jets + c.fixedWing + 1
    ensures r.curfew == c.curfew + (if Truthy(Get(flight, "is_curfew_period")) then 1 else 0)
  {
    var direction := Get(flight, "direction");
    var category := Get(flight, "aircraft_category");
    Counts(c.total + 1,
           c.arrivals + (if direction == Str("arrival") then 1 else 0),
           c.departures + (if direction == Str("departure") then 1 else 0),
           c.helicopters + (if category == Str("helicopter") then 1 else 0),
           c.jets + (if category == Str("jet") then 1 else 0),
           c.fixedWing + (if category == Str("fixed_wing") then 1 else 0),
           c.curfew + (if Truthy(Get(flight, "is_curfew_period")) then 1 else 0))
  }

  function DateOf(flight: Record): Value
  {
    Get(flight, "operation_date")
  }

  /** The distinct truthy dates of the flights, in order of first
      appearance (the iteration order of the source's `defaultdict`). */
  function DateOrder(flights: seq<Record>): (r: seq<Value>)
    ensures forall i, j :: 0 <= i < j < |r| ==> r[i] != r[j]
    ensures forall d :: d in r ==> Truthy(d)
  {
    if |flights| == 0 then []
    else
      var init := DateOrder(flights[..|flights| - 1]);
      var d := DateOf(flights[|flights| - 1]);
      if Truthy(d) && d !in init then init + [d] else init
  }

  /** The recount of the flights on `date`. */
  function CountsFor(flights: seq<Record>, date: Value): Counts
  {
    if |flights| == 0 then NoCounts
    else
      var init := CountsFor(flights[..|flights| - 1], date);
      if DateOf(flights[|flights| - 1]) == date then Tally(init, flights[|flights| - 1]) else init
  }

  /** The number of flights on `date`. */
  function FlightsOn(flights: seq<Record>, date: Value): nat
  {
    if |flights| == 0 then 0
    else FlightsOn(flights[..|flights| - 1], date) + (if DateOf(flights[|flights| - 1]) == date then 1 else 0)
  }

  /** The recount's total is the number of flights on the date, and no
      sub-count exceeds it. */
  lemma {:induction false} CountsBounded(flights: seq<Record>, date: Value)
    ensures CountsFor(flights, date).total == FlightsOn(flights, date)
    ensures CountsFor(flights, date).arrivals + CountsFor(flights, date).departures <= FlightsOn(flights, date)
    ensures CountsFor(flights, date).helicopters + CountsFor(flights, date).jets + CountsFor(flights, date).fixedWing
      <= FlightsOn(flights, date)
    ensures CountsFor(flights, date).curfew <= FlightsOn(flights, date)
  {
    if |flights| > 0 {
      CountsBounded(flights[..|flights| - 1], date);
    }
  }

  /** A flight without a date changes neither the dates nor any recount. */
  lemma UndatedFlightIgnored(flights: seq<Record>, flight: Record, date: Value)
    requires !Truthy(DateOf(flight))
    ensures DateOrder(flights + [flight]) == DateOrder(flights)
    ensures Truthy(date) ==> CountsFor(flights + [flight], date) == CountsFor(flights, date)
  {
    assert (flights + [flight])[..|flights|] == flights;
  }

  /** Every date that some flight carries is in the order. */
  lemma {:induction false} DatedFlightListed(flights: seq<Record>, i: nat)
    requires i < |flights| && Truthy(DateOf(flights[i]))
    ensures DateOf(flights[i]) in DateOrder(flights)
  {
    if i < |flights| - 1 {
      assert flights[..|flights| - 1][i] == flights[i];
      DatedFlightListed(flights[..|flights| - 1], i);
    }
  }

  /** The daily_summary fields compared, with their recounted values. */
  function Checks(c: Counts): (r: seq<(string, int)>)
    ensures |r| == 7
  {
    [("total_operations", c.total), ("arrivals", c.arrivals), ("departures", c.departures),
     ("helicopters", c.helicopters), ("jets", c.jets), ("fixed_wing", c.fixedWing),
     ("curfew_operations", c.curfew)]
  }

  /** The issue fields "daily_summary.<field>", in order, of the checks
      whose stored value (0 when absent) differs from the recount. */
  function Mismatched(summary: Record, checks: seq<(string, int)>): (r: seq<string>)
    ensures |r| <= |checks|
  {
    if |checks| == 0 then []
    else
      var init := Mismatched(summary, checks[..|checks| - 1]);
      var (field, expected) := checks[|checks| - 1];
      if PyEq(GetOr(summary, field, Int(0)), Int(expected)) then init else init + ["daily_summary." + field]
  }

  /** A summary holding exactly the recounted values draws no mismatch. */
  lemma {:induction false} MatchingSummaryPasses(summary: Record, checks: seq<(string, int)>)
    requires forall k :: 0 <= k < |checks| ==> checks[k].0 in summary && summary[checks[k].0] == Int(checks[k].1)
    ensures Mismatched(summary, checks) == []
  {
    if |checks| > 0 {
      MatchingSummaryPasses(summary, checks[..|checks| - 1]);
    }
  }

  /** A field the summary lacks is compared as 0. */
  lemma AbsentFieldIsZero(summary: Record, field: string, expected: int)
    requires field !in summary
    ensures Mismatched(summary, [(field, expected)]) == if expected == 0 then [] else ["daily_summary." + field]
  {
    assert [(field, expected)][..0] == [];
  }

  /** The warnings for one date: "daily_summary" when there is no
      (non-empty) summary, otherwise one per mismatched field. */
  function DateIssues(date: Value, c: Counts, summaries: map<Value, Record>): (r: seq<Issue>)
    ensures |r| <= 7
    ensures (date !in summaries || |summaries[date]| == 0) <==> r == [Issue(date, "daily_summary", "warning")]
  {
    if date !in summaries || |summaries[date]| == 0 then [Issue(date, "daily_summary", "warning")]
    else
      var r := IssuesFor(date, Mismatched(summaries[date], Checks(c)), "warning");
      assert forall k :: 0 <= k < |r| ==> r[k].field != "daily_summary" by {
        MismatchedFieldsPrefixed(summaries[date], Checks(c));
      }
      assert |r| != 0 ==> r[0].field != "daily_summary";
      r
  }

  /** Every mismatch field is longer than "daily_summary". */
  lemma {:induction false} MismatchedFieldsPrefixed(summary: Record, checks: seq<(string, int)>)
    ensures forall k :: 0 <= k < |Mismatched(summary, checks)| ==> |Mismatched(summary, checks)[k]| > |"daily_summary"|
  {
    if |checks| > 0 {
      MismatchedFieldsPrefixed(summary, checks[..|checks| - 1]);
    }
  }

  /** The warnings for the given dates, date after date. */
  function SummaryIssues(dates: seq<Value>, flights: seq<Record>, summaries: map<Value, Record>): seq<Issue>
  {
    if |dates| == 0 then []
    else
      var last := dates[|dates| - 1];
      SummaryIssues(dates[..|dates| - 1], flights, summaries) + DateIssues(last, CountsFor(flights, last), summaries)
  }

  /** At most seven warnings per date. */
  lemma {:induction false} SummaryIssuesBounded(dates: seq<Value>, flights: seq<Record>, summaries: map<Value, Record>)
    ensures |SummaryIssues(dates, flights, summaries)| <= 7 * |dates|
  {
    if |dates| > 0 {
      SummaryIssuesBounded(dates[..|dates| - 1], flights, summaries);
    }
  }

  /** The warnings for one more date. */
  lemma SummaryIssuesStep(dates: seq<Value>, j: nat, flights: seq<Record>, summaries: map<Value, Record>)
    requires j < |dates|
    ensures SummaryIssues(dates[..j + 1], flights, summaries) ==
      SummaryIssues(dates[..j], flights, summaries) + DateIssues(dates[j], CountsFor(flights, dates[j]), summaries)
  {
    assert dates[..j + 1][..j] == dates[..j];
  }

  /** Reports the mismatched checks against one summary. */
  method ReportMismatches(date: Value, summary: Record, checks: seq<(string, int)>, result: ValidationResult)
    requires result.Valid()
    modifies result
    ensures result.Valid() && result.errors == old(result.errors)
    ensures result.warnings == old(result.warnings) + IssuesFor(date, Mismatched(summary, checks), "warning")
  {
    for k := 0 to |checks|
      invariant result.Valid() && result.errors == old(result.errors)
      invariant result.warnings == old(result.warnings) + IssuesFor(date, Mismatched(summary, checks[..k]), "warning")
    {
      var (field, expected) := checks[k];
      assert checks[..k + 1][..k] == checks[..k];
      IssuesForAppend(date, Mismatched(summary, checks[..k]), "daily_summary." + field, "warning");
      var stored := GetOr(summary, field, Int(0));
      if !PyEq(stored, Int(expected)) {
        result.Warning(date, "daily_summary." + field);
      }
    }
    assert checks[..|checks|] == checks;
  }

  /** The warnings for one date against the stored summaries. */
  method ReportDate(date: Value, c: Counts, summaries: map<Value, Record>, result: ValidationResult)
    requires result.Valid()
    modifies result
    ensures result.Valid() && result.errors == old(result.errors)
    ensures result.warnings == old(result.warnings) + DateIssues(date, c, summaries)
  {
    var summary := if date in summaries then summaries[date] else map[];
    if |summary| == 0 {
      result.Warning(date, "daily_summary");
    } else {
      ReportMismatches(date, summary, Checks(c), result);
    }
  }

  /** The recount after one more flight. */
  lemma CountsStep(flights: seq<Record>, i: nat, date: Value)
    requires i < |flights|
    ensures CountsFor(flights[..i + 1], date) ==
      if DateOf(flights[i]) == date then Tally(CountsFor(flights[..i], date), flights[i]) else CountsFor(flights[..i], date)
    ensures DateOrder(flights[..i + 1]) ==
      var d := DateOf(flights[i]);
      if Truthy(d) && d !in DateOrder(flights[..i]) then DateOrder(flights[..i]) + [d] else DateOrder(flights[..i])
  {
    assert flights[..i + 1][..i] == flights[..i];
  }

  /** The per-date recount, kept as the source keeps it: a map from date
      to counts plus the order in which dates first appeared. */
  method RecountByDate(flights: seq<Record>) returns (order: seq<Value>, counts: map<Value, Counts>)
    ensures order == DateOrder(flights)
    ensures forall d :: d in counts <==> d in order
    ensures forall d :: d in counts ==> counts[d] == CountsFor(flights, d)
  {
    order := [];
    counts := map[];
    for i := 0 to |flights|
      invariant order == DateOrder(flights[..i])
      invariant forall d :: d in counts <==> d in order
      invariant forall d :: d in counts ==> counts[d] == CountsFor(flights[..i], d)
    {
      var date := DateOf(flights[i]);
      forall d
        ensures CountsFor(flights[..i + 1], d) ==
          if date == d then Tally(CountsFor(flights[..i], d), flights[i]) else CountsFor(flights[..i], d)
      {
        CountsStep(flights, i, d);
      }
      CountsStep(flights, i, date);
      if Truthy(date) {
        if date !in counts {
          assert CountsFor(flights[..i], date) == NoCounts by {
            NeverSeenCountsNothing(flights[..i], date);
          }
          counts := counts[date := Tally(NoCounts, flights[i])];
          order := order + [date];
        } else {
          counts := counts[date := Tally(counts[date], flights[i])];
        }
      } else {
        forall d | d in counts
          ensures date != d
        {
        }
      }
    }
    assert flights[..|flights|] == flights;
  }

  /** A truthy date that is not yet in the order has counted nothing. */
  lemma {:induction false} NeverSeenCountsNothing(flights: seq<Record>, date: Value)
    requires Truthy(date) && date !in DateOrder(flights)
    ensures CountsFor(flights, date) == NoCounts
  {
    if |flights| > 0 {
      var init := flights[..|flights| - 1];
      assert date !in DateOrder(init);
      NeverSeenCountsNothing(init, date);
    }
  }

  /** The comparison loop: each date of `order`, in turn, against its
      stored summary, using the recount held in `counts`. */
  method ReportDates(order: seq<Value>, counts: map<Value, Counts>, flights: seq<Record>,
                     summaries: map<Value, Record>, result: ValidationResult)
    requires result.Valid()
    requires forall d :: d in order ==> d in counts && counts[d] == CountsFor(flights, d)
    modifies result
    ensures result.Valid() && result.errors == old(result.errors)
    ensures result.warnings == old(result.warnings) + SummaryIssues(order, flights, summaries)
  {
    for j := 0 to |order|
      invariant result.Valid() && result.errors == old(result.errors)
      invariant result.warnings == old(result.warnings) + SummaryIssues(order[..j], flights, summaries)
    {
      ReportDateAt(order, j, counts, flights, summaries, result, old(result.warnings));
    }
    assert order[..|order|] == order;
  }

  /** One round of the comparison loop: the date at position `j`. */
  method ReportDateAt(order: seq<Value>, j: nat, counts: map<Value, Counts>, flights: seq<Record>,
                      summaries: map<Value, Record>, result: ValidationResult, ghost w0: seq<Issue>)
    requires j < |order| && order[j] in counts && counts[order[j]] == CountsFor(flights, order[j])
    requires result.Valid()
    requires result.warnings == w0 + SummaryIssues(order[..j], flights, summaries)
    modifies result
    ensures result.Valid() && result.errors == old(result.errors)
    ensures result.warnings == w0 + SummaryIssues(order[..j + 1], flights, summaries)
  {
    var date := order[j];
    var c := counts[date];
    ghost var earlier := SummaryIssues(order[..j], flights, summaries);
    SummaryIssuesStep(order, j, flights, summaries);
    ReportDate(date, c, summaries, result);
    assert w0 + earlier + DateIssues(date, c, summaries) == w0 + (earlier + DateIssues(date, c, summaries));
  }

  /** `validate_summary_consistency`: the flights are recounted per date,
      and each date, in order of first appearance, draws the warnings of
      `DateIssues` against the stored summary. */
  method ValidateSummaryConsistency(flights: seq<Record>, summaries: map<Value, Record>, result: ValidationResult)
    requires result.Valid()
    modifies result
    ensures result.Valid() && result.errors == old(result.errors)
    ensures result.warnings == old(result.warnings) + SummaryIssues(DateOrder(flights), flights, summaries)
  {
    var order, counts := RecountByDate(flights);
    ReportDates(order, counts, flights, summaries, result);
  }
}
