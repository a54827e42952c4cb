/** The three audits of scripts/audit/audit_data.py that do not need time
    zones: stored category against the classifier, stored curfew flag
    against the curfew rule, and missing fields. The queries are not
    modelled: each audit receives the rows its query selects. */
module Audit {
  import opened Values
  import opened Classify
  import Validation

  // ---------------------------------------------------------------------
  // Classification audit
  // ---------------------------------------------------------------------

  /** A row of the classification query (`aircraft_type IS NOT NULL`). */
  datatype TypedRow = TypedRow(id: Value, faFlightId: Value, aircraftType: string, stored: Value)

  /** One reported misclassification. */
  datatype ClassMismatch = ClassMismatch(id: Value, faFlightId: Value, aircraftType: string, stored: Value,
                                         correct: Category)

  /** How often a type was classified correctly and wrongly. */
  datatype TypeTally = TypeTally(correct: nat, wrong: nat)

  datatype ClassificationAudit = ClassificationAudit(totalChecked: nat, mismatches: nat,
                                                     details: seq<ClassMismatch>,
                                                     typeSummary: map<string, TypeTally>)

  /** The stored category differs from what `classify` gives for the type. */
  predicate Misclassified(row: TypedRow, classify: string -> Category)
  {
    row.stored != Str(CategoryName(classify(row.aircraftType)))
  }

  /** The misclassified rows, in order. */
  function ClassMismatches(rows: seq<TypedRow>, classify: string -> Category): (r: seq<ClassMismatch>)
    ensures |r| <= |rows|
  {
    if |rows| == 0 then []
    else
      var init := ClassMismatches(rows[..|rows| - 1], classify);
      var row := rows[|rows| - 1];
      if Misclassified(row, classify)
      then init + [ClassMismatch(row.id, row.faFlightId, row.aircraftType, row.stored, classify(row.aircraftType))]
      else init
  }

  /** The number of rows of the given type. */
  function RowsOfType(rows: seq<TypedRow>, aircraftType: string): nat
  {
    if |rows| == 0 then 0
    else RowsOfType(rows[..|rows| - 1], aircraftType) + (if rows[|rows| - 1].aircraftType == aircraftType then 1 else 0)
  }

  /** The correct/wrong tally of one type. */
  function TallyOf(rows: seq<TypedRow>, aircraftType: string, classify: string -> Category): TypeTally
  {
    if |rows| == 0 then TypeTally(0, 0)
    else
      var t := TallyOf(rows[..|rows| - 1], aircraftType, classify);
      var row := rows[|rows| - 1];
      TallyAfter(t, row, aircraftType, classify)
  }

  /** Per type, correct and wrong add up to the rows of that type. */
  lemma {:induction false} TallyCoversType(rows: seq<TypedRow>, aircraftType: string, classify: string -> Category)
    ensures TallyOf(rows, aircraftType, classify).correct + TallyOf(rows, aircraftType, classify).wrong
      == RowsOfType(rows, aircraftType)
  {
    if |rows| > 0 {
      TallyCoversType(rows[..|rows| - 1], aircraftType, classify);
    }
  }

  /** A type absent from the rows has an empty tally. */
  lemma {:induction false} UnseenTypeUntallied(rows: seq<TypedRow>, aircraftType: string, classify: string -> Category)
    requires forall i :: 0 <= i < |rows| ==> rows[i].aircraftType != aircraftType
    ensures TallyOf(rows, aircraftType, classify) == TypeTally(0, 0)
  {
    if |rows| > 0 {
      UnseenTypeUntallied(rows[..|rows| - 1], aircraftType, classify);
    }
  }

  /** A type's tally after one more row. */
  function TallyAfter(p: TypeTally, row: TypedRow, aircraftType: string, classify: string -> Category): TypeTally
  {
    if row.aircraftType != aircraftType then p
    else if Misclassified(row, classify) then TypeTally(p.correct, p.wrong + 1)
    else TypeTally(p.correct + 1, p.wrong)
  }

  /** The types that occur in the rows. */
  function TypesOf(rows: seq<TypedRow>): set<string>
  {
    set k | 0 <= k < |rows| :: rows[k].aircraftType
  }

  /** The tally after one more row. */
  lemma TallyStep(rows: seq<TypedRow>, i: nat, classify: string -> Category)
    requires i < |rows|
    ensures ClassMismatches(rows[..i + 1], classify) == ClassMismatches(rows[..i], classify) +
      (if Misclassified(rows[i], classify)
       then [ClassMismatch(rows[i].id, rows[i].faFlightId, rows[i].aircraftType, rows[i].stored, classify(rows[i].aircraftType))]
       else [])
    ensures forall t :: TallyOf(rows[..i + 1], t, classify) == TallyAfter(TallyOf(rows[..i], t, classify), rows[i], t, classify)
  {
    assert rows[..i + 1][..i] == rows[..i];
  }

  /** The types seen after one more row, and the empty tally of a type
      not seen before. */
  lemma TypesStep(rows: seq<TypedRow>, i: nat, classify: string -> Category)
    requires i < |rows|
    ensures TypesOf(rows[..i + 1]) == TypesOf(rows[..i]) + {rows[i].aircraftType}
    ensures rows[i].aircraftType !in TypesOf(rows[..i]) ==>
      TallyOf(rows[..i], rows[i].aircraftType, classify) == TypeTally(0, 0)
  {
    assert rows[..i + 1][i] == rows[i];
    assert forall k :: 0 <= k < i ==> rows[..i + 1][k] == rows[..i][k];
    if rows[i].aircraftType !in TypesOf(rows[..i]) {
      assert forall k :: 0 <= k < i ==> rows[..i][k].aircraftType != rows[i].aircraftType;
      UnseenTypeUntallied(rows[..i], rows[i].aircraftType, classify);
    }
  }

  /** The audit state after the first `i` rows. */
  ghost predicate AuditedUpTo(rows: seq<TypedRow>, i: nat, classify: string -> Category,
                              mismatches: seq<ClassMismatch>, typeCounts: map<string, TypeTally>)
    requires i <= |rows|
  {
    && mismatches == ClassMismatches(rows[..i], classify)
    && typeCounts.Keys == TypesOf(rows[..i])
    && forall t :: t in typeCounts ==> typeCounts[t] == TallyOf(rows[..i], t, classify)
  }

  /** One iteration of the audit loop: the row is a mismatch or not, and
      its type's tally goes up on the matching side. */
  method AuditRow(rows: seq<TypedRow>, i: nat, classify: string -> Category,
                  mismatches: seq<ClassMismatch>, typeCounts: map<string, TypeTally>)
    returns (mismatches': seq<ClassMismatch>, typeCounts': map<string, TypeTally>)
    requires i < |rows|
    requires AuditedUpTo(rows, i, classify, mismatches, typeCounts)
    ensures AuditedUpTo(rows, i + 1, classify, mismatches', typeCounts')
  {
    TallyStep(rows, i, classify);
    TypesStep(rows, i, classify);
    var row := rows[i];
    var correct := classify(row.aircraftType);
    var tally := if row.aircraftType in typeCounts then typeCounts[row.aircraftType] else TypeTally(0, 0);
    if row.aircraftType !in typeCounts {
      assert row.aircraftType !in TypesOf(rows[..i]);
    }
    assert tally == TallyOf(rows[..i], row.aircraftType, classify);
    if row.stored != Str(CategoryName(correct)) {
      mismatches' := mismatches + [ClassMismatch(row.id, row.faFlightId, row.aircraftType, row.stored, correct)];
      typeCounts' := typeCounts[row.aircraftType := TypeTally(tally.correct, tally.wrong + 1)];
    } else {
      mismatches' := mismatches;
      typeCounts' := typeCounts[row.aircraftType := TypeTally(tally.correct + 1, tally.wrong)];
    }
  }

  /** The audit loop for a given classifier. */
  method AuditClassificationsWith(rows: seq<TypedRow>, classify: string -> Category) returns (r: ClassificationAudit)
    ensures r.totalChecked == |rows|
    ensures r.mismatches == |ClassMismatches(rows, classify)|
    ensures r.details == Take(ClassMismatches(rows, classify), 100)
    ensures r.typeSummary.Keys == TypesOf(rows)
    ensures forall t :: t in r.typeSummary ==> r.typeSummary[t] == TallyOf(rows, t, classify)
  {
    var mismatches: seq<ClassMismatch> := [];
    var typeCounts: map<string, TypeTally> := map[];
    for i := 0 to |rows|
      invariant AuditedUpTo(rows, i, classify, mismatches, typeCounts)
    {
      mismatches, typeCounts := AuditRow(rows, i, classify, mismatches, typeCounts);
    }
    assert rows[..|rows|] == rows;
    r := ClassificationAudit(|rows|, |mismatches|, Take(mismatches, 100), typeCounts);
  }

  /** `audit_classifications`: the full mismatch count, the first 100
      mismatches in order, and a correct/wrong tally per type seen. */
  method AuditClassifications(rows: seq<TypedRow>) returns (r: ClassificationAudit)
    ensures r.totalChecked == |rows|
    ensures r.mismatches == |ClassMismatches(rows, ClassifyAircraft)|
    ensures r.details == Take(ClassMismatches(rows, ClassifyAircraft), 100)
    ensures r.typeSummary.Keys == TypesOf(rows)
    ensures forall t :: t in r.typeSummary ==> r.typeSummary[t] == TallyOf(rows, t, ClassifyAircraft)
  {
    r := AuditClassificationsWith(rows, ClassifyAircraft);
  }

  // ---------------------------------------------------------------------
  // Curfew-flag audit
  // ---------------------------------------------------------------------

  /** A row of the curfew query (`operation_hour_et IS NOT NULL`). */
  datatype HourRow = HourRow(id: Value, faFlightId: Value, hour: int, flag: Value)

  datatype CurfewMismatch = CurfewMismatch(id: Value, faFlightId: Value, hour: int, stored: Value, correct: bool)

  datatype CurfewAudit = CurfewAudit(totalChecked: nat, mismatches: nat, boundaryIssues: seq<CurfewMismatch>,
                                     details: seq<CurfewMismatch>)

  /** The stored flag as the audit reads it: SQLite rows go through
      `bool()`, Supabase rows are taken as they are. */
  function StoredFlag(flag: Value, fromSqlite: bool): (v: Value)
    ensures fromSqlite ==> v == Bool(Truthy(flag))
    ensures !fromSqlite ==> v == flag
  {
    if fromSqlite then Bool(Truthy(flag)) else flag
  }

  /** The stored flag disagrees with the curfew rule. */
  predicate CurfewMismatched(row: HourRow, fromSqlite: bool)
  {
    !PyEq(StoredFlag(row.flag, fromSqlite), Bool(IsCurfewHour(row.hour)))
  }

  /** The hours next to the curfew edges. */
  predicate BoundaryHour(hour: int)
  {
    hour == 6 || hour == 7 || hour == 20 || hour == 21
  }

  function MismatchOf(row: HourRow, fromSqlite: bool): CurfewMismatch
  {
    CurfewMismatch(row.id, row.faFlightId, row.hour, StoredFlag(row.flag, fromSqlite), IsCurfewHour(row.hour))
  }

  /** The mismatched rows, in order. */
  function CurfewMismatches(rows: seq<HourRow>, fromSqlite: bool): (r: seq<CurfewMismatch>)
    ensures |r| <= |rows|
  {
    if |rows| == 0 then []
    else
      var init := CurfewMismatches(rows[..|rows| - 1], fromSqlite);
      var row := rows[|rows| - 1];
      if CurfewMismatched(row, fromSqlite) then init + [MismatchOf(row, fromSqlite)] else init
  }

  /** The mismatches at a boundary hour, in order. */
  function AtBoundary(ms: seq<CurfewMismatch>): (r: seq<CurfewMismatch>)
    ensures |r| <= |ms|
    ensures forall m :: m in r <==> m in ms && BoundaryHour(m.hour)
  {
    if |ms| == 0 then []
    else
      var init := AtBoundary(ms[..|ms| - 1]);
      var m := ms[|ms| - 1];
      assert ms == ms[..|ms| - 1] + [m];
      if BoundaryHour(m.hour) then init + [m] else init
  }

  /** With a boolean flag, a mismatch is a flag that is not the rule. */
  lemma BooleanFlagMismatch(row: HourRow, fromSqlite: bool)
    requires row.flag.Bool?
    ensures CurfewMismatched(row, fromSqlite) <==> row.flag.b != IsCurfewHour(row.hour)
  {
  }

  /** A SQLite flag of 1 or 0 is read as a boolean. */
  lemma SqliteIntegerFlag(row: HourRow)
    requires row.flag == Int(0) || row.flag == Int(1)
    ensures CurfewMismatched(row, true) <==> (row.flag == Int(1)) != IsCurfewHour(row.hour)
  {
  }

  lemma CurfewStep(rows: seq<HourRow>, i: nat, fromSqlite: bool)
    requires i < |rows|
    ensures CurfewMismatches(rows[..i + 1], fromSqlite) == CurfewMismatches(rows[..i], fromSqlite) +
      (if CurfewMismatched(rows[i], fromSqlite) then [MismatchOf(rows[i], fromSqlite)] else [])
  {
    assert rows[..i + 1][..i] == rows[..i];
  }

  lemma AtBoundaryAppend(ms: seq<CurfewMismatch>, m: CurfewMismatch)
    ensures AtBoundary(ms + [m]) == AtBoundary(ms) + (if BoundaryHour(m.hour) then [m] else [])
  {
    assert (ms + [m])[..|ms|] == ms;
  }

  /** `audit_curfew_flags`: the full mismatch count, every mismatch at a
      boundary hour, and the first 50 mismatches. */
  method AuditCurfewFlags(rows: seq<HourRow>, fromSqlite: bool) returns (r: CurfewAudit)
    ensures r.totalChecked == |rows|
    ensures r.mismatches == |CurfewMismatches(rows, fromSqlite)|
    ensures r.boundaryIssues == AtBoundary(CurfewMismatches(rows, fromSqlite))
    ensures r.details == Take(CurfewMismatches(rows, fromSqlite), 50)
  {
    var mismatches: seq<CurfewMismatch> := [];
    var boundaryIssues: seq<CurfewMismatch> := [];
    for i := 0 to |rows|
      invariant mismatches == CurfewMismatches(rows[..i], fromSqlite)
      invariant boundaryIssues == AtBoundary(mismatches)
    {
      CurfewStep(rows, i, fromSqlite);
      var hour := rows[i].hour;
      var stored := StoredFlag(rows[i].flag, fromSqlite);
      var correct := IsCurfewHour(hour);
      if !PyEq(stored, Bool(correct)) {
        var mismatch := CurfewMismatch(rows[i].id, rows[i].faFlightId, hour, stored, correct);
        AtBoundaryAppend(mismatches, mismatch);
        mismatches := mismatches + [mismatch];
        if hour == 6 || hour == 7 || hour == 20 || hour == 21 {
          boundaryIssues := boundaryIssues + [mismatch];
        }
      }
    }
    assert rows[..|rows|] == rows;
    r := CurfewAudit(|rows|, |mismatches|, boundaryIssues, Take(mismatches, 50));
  }

  // ---------------------------------------------------------------------
  // Missing-field audit
  // ---------------------------------------------------------------------

  const AuditRequired: seq<string> := ["fa_flight_id", "direction", "operation_date"]
  const AuditRecommended: seq<string> := ["aircraft_type", "registration", "operation_hour_et"]

  /** One missing required field of one flight. */
  datatype MissingEntry = MissingEntry(id: Value, field: string)

  datatype FieldAudit = FieldAudit(totalFlights: nat, missingRequiredCount: nat, missingRequired: seq<MissingEntry>,
                                   missingRecommended: map<string, nat>)

  function EntriesFor(id: Value, fields: seq<string>): (r: seq<MissingEntry>)
    ensures |r| == |fields|
    ensures forall k :: 0 <= k < |fields| ==> r[k] == MissingEntry(id, fields[k])
  {
    seq(|fields|, k requires 0 <= k < |fields| => MissingEntry(id, fields[k]))
  }

  /** One entry per falsy required field per flight, flight after flight. */
  function MissingRequired(flights: seq<Record>, required: seq<string>): (r: seq<MissingEntry>)
    ensures forall e :: e in r ==> e.field in required
  {
    if |flights| == 0 then []
    else
      var f := flights[|flights| - 1];
      MissingRequired(flights[..|flights| - 1], required) + EntriesFor(Get(f, "id"), Validation.Missing(f, required))
  }

  /** At most one entry per required field per flight. */
  lemma {:induction false} MissingRequiredBounded(flights: seq<Record>, required: seq<string>)
    ensures |MissingRequired(flights, required)| <= |required| * |flights|
  {
    if |flights| > 0 {
      var f := flights[|flights| - 1];
      MissingRequiredBounded(flights[..|flights| - 1], required);
      assert |Validation.Missing(f, required)| <= |required|;
      calc {
        |MissingRequired(flights, required)|;
        <= |required| * (|flights| - 1) + |required|;
        == |required| * |flights|;
      }
    }
  }

  /** The number of flights in which `field` is falsy. */
  function FlightsMissing(flights: seq<Record>, field: string): (n: nat)
    ensures n <= |flights|
  {
    if |flights| == 0 then 0
    else FlightsMissing(flights[..|flights| - 1], field) + (if Truthy(Get(flights[|flights| - 1], field)) then 0 else 1)
  }

  lemma FieldAuditStep(flights: seq<Record>, i: nat, required: seq<string>)
    requires i < |flights|
    ensures MissingRequired(flights[..i + 1], required) ==
      MissingRequired(flights[..i], required) + EntriesFor(Get(flights[i], "id"), Validation.Missing(flights[i], required))
    ensures forall field ::
      FlightsMissing(flights[..i + 1], field) == FlightsMissing(flights[..i], field) + (if Truthy(Get(flights[i], field)) then 0 else 1)
  {
    assert flights[..i + 1][..i] == flights[..i];
  }

  /** Appends the entries of one flight, field by field. */
  method AppendMissing(entries: seq<MissingEntry>, flight: Record, required: seq<string>) returns (r: seq<MissingEntry>)
    ensures r == entries + EntriesFor(Get(flight, "id"), Validation.Missing(flight, required))
  {
    r := entries;
    for k := 0 to |required|
      invariant r == entries + EntriesFor(Get(flight, "id"), Validation.Missing(flight, required[..k]))
    {
      Validation.MissingStep(flight, required, k);
      if !Truthy(Get(flight, required[k])) {
        r := r + [MissingEntry(Get(flight, "id"), required[k])];
      }
    }
    assert required[..|required|] == required;
  }

  /** Counts one flight's falsy recommended fields. */
  method CountMissing(counts: map<string, nat>, flight: Record, recommended: seq<string>) returns (r: map<string, nat>)
    requires forall i, j :: 0 <= i < j < |recommended| ==> recommended[i] != recommended[j]
    ensures forall f :: f in r <==> f in counts || (f in recommended && !Truthy(Get(flight, f)))
    ensures forall f :: f in r ==>
      r[f] == (if f in counts then counts[f] else 0) + (if f in recommended && !Truthy(Get(flight, f)) then 1 else 0)
  {
    r := counts;
    for k := 0 to |recommended|
      invariant forall f :: f in r <==> f in counts || (f in recommended[..k] && !Truthy(Get(flight, f)))
      invariant forall f :: f in r ==>
        r[f] == (if f in counts then counts[f] else 0) + (if f in recommended[..k] && !Truthy(Get(flight, f)) then 1 else 0)
    {
      assert recommended[..k + 1] == recommended[..k] + [recommended[k]];
      if !Truthy(Get(flight, recommended[k])) {
        r := r[recommended[k] := (if recommended[k] in r then r[recommended[k]] else 0) + 1];
      }
    }
    assert recommended[..|recommended|] == recommended;
  }

  /** The audit loop for given field lists, whose recommended fields are
      distinct. */
  method AuditFieldsWith(flights: seq<Record>, required: seq<string>, recommended: seq<string>) returns (r: FieldAudit)
    requires forall i, j :: 0 <= i < j < |recommended| ==> recommended[i] != recommended[j]
    ensures r.totalFlights == |flights|
    ensures r.missingRequiredCount == |MissingRequired(flights, required)|
    ensures r.missingRequired == Take(MissingRequired(flights, required), 20)
    ensures forall f :: f in r.missingRecommended <==> f in recommended && FlightsMissing(flights, f) > 0
    ensures forall f :: f in r.missingRecommended ==> r.missingRecommended[f] == FlightsMissing(flights, f)
  {
    var missingRequired: seq<MissingEntry> := [];
    var missingRecommended: map<string, nat> := map[];
    for i := 0 to |flights|
      invariant missingRequired == MissingRequired(flights[..i], required)
      invariant forall f :: f in missingRecommended <==> f in recommended && FlightsMissing(flights[..i], f) > 0
      invariant forall f :: f in missingRecommended ==> missingRecommended[f] == FlightsMissing(flights[..i], f)
    {
      FieldAuditStep(flights, i, required);
      missingRequired := AppendMissing(missingRequired, flights[i], required);
      missingRecommended := CountMissing(missingRecommended, flights[i], recommended);
    }
    assert flights[..|flights|] == flights;
    r := FieldAudit(|flights|, |missingRequired|, Take(missingRequired, 20), missingRecommended);
  }

  /** `audit_required_fields`: one entry per falsy required field per
      flight (the full count, and the first 20 entries), and per
      recommended field the number of flights where it is falsy, for the
      fields missing at least once. */
  method AuditRequiredFields(flights: seq<Record>) returns (r: FieldAudit)
    ensures r.totalFlights == |flights|
    ensures r.missingRequiredCount == |MissingRequired(flights, AuditRequired)|
    ensures r.missingRequired == Take(MissingRequired(flights, AuditRequired), 20)
    ensures forall f :: f in r.missingRecommended <==> f in AuditRecommended && FlightsMissing(flights, f) > 0
    ensures forall f :: f in r.missingRecommended ==> r.missingRecommended[f] == FlightsMissing(flights, f)
  {
    r := AuditFieldsWith(flights, AuditRequired, AuditRecommended);
  }
}
