/** Record preparation of src/db/supabase_writer.py: field whitelisting
    and boolean coercion, keep-first deduplication, batching, the daily
    summary counts, and the guard of the summary upsert. The Supabase
    client is an abstract sink: what it answers for each request is an
    input. */
module Writer {
  import opened Values
  import opened Calendar

  const FlightFields: seq<string> := [
    "fa_flight_id", "ident", "registration", "direction",
    "aircraft_type", "aircraft_category", "operator", "operator_iata",
    "origin_code", "origin_name", "origin_city",
    "destination_code", "destination_name", "destination_city",
    "scheduled_off", "actual_off", "scheduled_on", "actual_on",
    "operation_date", "operation_hour_et", "is_curfew_period", "is_weekend"]

  const ComplaintFields: seq<string> := [
    "source_id", "event_date", "event_time", "event_datetime_utc",
    "event_hour_et", "is_curfew_period", "is_weekend",
    "street_name", "municipality", "zip_code", "latitude", "longitude",
    "airport", "complaint_types", "aircraft_type", "aircraft_description",
    "flight_direction", "comments",
    "matched_flight_id", "matched_confidence", "matched_registration", "matched_operator",
    "submission_date"]

  /** The two flags stored as booleans. */
  predicate IsFlag(key: string)
  {
    key == "is_curfew_period" || key == "is_weekend"
  }

  /** `{k: d.get(k) for k in fields if k in d}` followed by `bool()` on the
      two flags when present. */
  function Whitelist(d: Record, fields: seq<string>): (r: Record)
    ensures forall k :: k in r <==> k in fields && k in d
    ensures forall k :: k in r && !IsFlag(k) ==> r[k] == d[k]
    ensures forall k :: k in r && IsFlag(k) ==> r[k] == Bool(Truthy(d[k]))
  {
    map k | k in fields && k in d :: if IsFlag(k) then Bool(Truthy(d[k])) else d[k]
  }

  /** The record `_prepare_flight_record` builds: the whitelisted fields
      present in the input, flags as booleans, plus raw_json exactly when
      it is truthy. */
  function FlightRecordOf(flight: Record): (r: Record)
    ensures forall k :: k in r <==> (k in FlightFields && k in flight) || (k == "raw_json" && Truthy(Get(flight, "raw_json")))
    ensures forall k :: k in r && k != "raw_json" && !IsFlag(k) ==> r[k] == flight[k]
    ensures forall k :: k in r && IsFlag(k) ==> r[k] == Bool(Truthy(flight[k]))
    ensures "raw_json" in r ==> "raw_json" in flight && r["raw_json"] == flight["raw_json"]
  {
    var record := Whitelist(flight, FlightFields);
    assert "raw_json" !in FlightFields;
    if Truthy(Get(flight, "raw_json")) then record["raw_json" := flight["raw_json"]] else record
  }

  /** Coerces one flag of a record to a boolean, in place, when present. */
  method CoerceFlag(record: Record, key: string) returns (r: Record)
    ensures r.Keys == record.Keys
    ensures key in record ==> r[key] == Bool(Truthy(record[key]))
    ensures forall k :: k in r && k != key ==> r[k] == record[k]
  {
    r := record;
    if key in r {
      r := r[key := Bool(Truthy(r[key]))];
    }
  }

  /** Copies the whitelisted fields present, then coerces the two flags. */
  method CopyFields(d: Record, fields: seq<string>) returns (r: Record)
    ensures r == Whitelist(d, fields)
  {
    r := map k | k in fields && k in d :: d[k];
    r := CoerceFlag(r, "is_curfew_period");
    r := CoerceFlag(r, "is_weekend");
  }

  /** `_prepare_flight_record`. */
  method PrepareFlightRecord(flight: Record) returns (record: Record)
    ensures record == FlightRecordOf(flight)
  {
    record := CopyFields(flight, FlightFields);
    if Truthy(Get(flight, "raw_json")) {
      record := record["raw_json" := flight["raw_json"]];
    }
  }

  /** `_prepare_complaint_record`: only the whitelisted complaint fields
      that are present, flags as booleans. */
  method PrepareComplaintRecord(complaint: Record) returns (record: Record)
    ensures forall k :: k in record <==> k in ComplaintFields && k in complaint
    ensures forall k :: k in record && !IsFlag(k) ==> record[k] == complaint[k]
    ensures forall k :: k in record && IsFlag(k) ==> record[k] == Bool(Truthy(complaint[k]))
  {
    record := CopyFields(complaint, ComplaintFields);
  }

  /** Preparing twice changes nothing more. */
  lemma WhitelistIdempotent(d: Record, fields: seq<string>)
    ensures Whitelist(Whitelist(d, fields), fields) == Whitelist(d, fields)
  {
  }

  // ---------------------------------------------------------------------
  // Deduplication and batching
  // ---------------------------------------------------------------------

  function IdOf(record: Record): Value
  {
    Get(record, "fa_flight_id")
  }

  /** The ids of the records. */
  function Ids(records: seq<Record>): set<Value>
  {
    set k | 0 <= k < |records| :: IdOf(records[k])
  }

  /** Keep-first deduplication: a record is kept when its id is truthy and
      no earlier record was kept with that id. */
  function KeepFirst(records: seq<Record>): (r: seq<Record>)
    ensures |r| <= |records|
  {
    if |records| == 0 then []
    else
      var init := KeepFirst(records[..|records| - 1]);
      var record := records[|records| - 1];
      if Truthy(IdOf(record)) && IdOf(record) !in Ids(init) then init + [record] else init
  }

  lemma IdsAppend(records: seq<Record>, record: Record)
    ensures Ids(records + [record]) == Ids(records) + {IdOf(record)}
  {
    var s := records + [record];
    assert s[|records|] == record;
    assert forall k :: 0 <= k < |records| ==> s[k] == records[k];
  }

  /** The kept records have truthy, pairwise distinct ids, and every kept
      record comes from the input. */
  lemma {:induction false} KeepFirstDistinct(records: seq<Record>)
    ensures forall i :: 0 <= i < |KeepFirst(records)| ==> Truthy(IdOf(KeepFirst(records)[i]))
    ensures forall i, j :: 0 <= i < j < |KeepFirst(records)| ==> IdOf(KeepFirst(records)[i]) != IdOf(KeepFirst(records)[j])
    ensures forall r :: r in KeepFirst(records) ==> r in records
  {
    if |records| > 0 {
      var init := records[..|records| - 1];
      KeepFirstDistinct(init);
      var kept := KeepFirst(init);
      var record := records[|records| - 1];
      if Truthy(IdOf(record)) && IdOf(record) !in Ids(kept) {
        forall i | 0 <= i < |kept|
          ensures IdOf(kept[i]) != IdOf(record)
        {
          assert IdOf(kept[i]) in Ids(kept);
        }
      }
      assert forall r :: r in init ==> r in records;
    }
  }

  /** Every truthy id of the input is kept, and no other id is. */
  lemma {:induction false} KeepFirstComplete(records: seq<Record>)
    ensures Ids(KeepFirst(records)) == set k | 0 <= k < |records| && Truthy(IdOf(records[k])) :: IdOf(records[k])
  {
    if |records| > 0 {
      var init := records[..|records| - 1];
      KeepFirstComplete(init);
      var record := records[|records| - 1];
      var kept := KeepFirst(init);
      if Truthy(IdOf(record)) && IdOf(record) !in Ids(kept) {
        IdsAppend(kept, record);
      }
      assert forall k :: 0 <= k < |init| ==> records[k] == init[k];
    }
  }

  /** Where in the input each kept record stands. */
  ghost function KeptIndices(records: seq<Record>): (idx: seq<nat>)
  {
    if |records| == 0 then []
    else
      var init := records[..|records| - 1];
      var record := records[|records| - 1];
      if Truthy(IdOf(record)) && IdOf(record) !in Ids(KeepFirst(init)) then KeptIndices(init) + [|records| - 1]
      else KeptIndices(init)
  }

  /** A truthy id that was not kept from `init` occurs nowhere in it. */
  lemma NewIdUnseen(init: seq<Record>, record: Record)
    requires Truthy(IdOf(record)) && IdOf(record) !in Ids(KeepFirst(init))
    ensures forall j :: 0 <= j < |init| ==> IdOf(init[j]) != IdOf(record)
  {
    KeepFirstComplete(init);
  }

  /** `idx` places the records of `kept` in `records`: in increasing
      positions, each the first record with its id. */
  ghost predicate PlacedFirst(records: seq<Record>, kept: seq<Record>, idx: seq<nat>)
  {
    && |idx| == |kept|
    && (forall a, b :: 0 <= a < b < |idx| ==> idx[a] < idx[b])
    && (forall k :: 0 <= k < |idx| ==> idx[k] < |records| && kept[k] == records[idx[k]])
    && (forall k, j :: 0 <= k < |idx| && 0 <= j < idx[k] ==> IdOf(records[j]) != IdOf(kept[k]))
  }

  /** A placement in a prefix is a placement in the whole input. */
  lemma PlacedInLonger(records: seq<Record>, kept: seq<Record>, idx: seq<nat>)
    requires |records| > 0 && PlacedFirst(records[..|records| - 1], kept, idx)
    ensures PlacedFirst(records, kept, idx)
  {
    var init := records[..|records| - 1];
    assert forall j :: 0 <= j < |init| ==> init[j] == records[j];
  }

  /** The last record, when its id occurs nowhere before it, extends the
      placement. */
  lemma PlacedLast(records: seq<Record>, kept: seq<Record>, idx: seq<nat>)
    requires |records| > 0 && PlacedFirst(records[..|records| - 1], kept, idx)
    requires forall j :: 0 <= j < |records| - 1 ==> IdOf(records[j]) != IdOf(records[|records| - 1])
    ensures PlacedFirst(records, kept + [records[|records| - 1]], idx + [|records| - 1])
  {
    PlacedInLonger(records, kept, idx);
  }

  /** The kept records are a subsequence of the input in input order, and
      each is the first input record with its id. */
  lemma {:induction false} KeepFirstOrder(records: seq<Record>)
    ensures PlacedFirst(records, KeepFirst(records), KeptIndices(records))
  {
    if |records| > 0 {
      var init := records[..|records| - 1];
      var record := records[|records| - 1];
      KeepFirstOrder(init);
      if Truthy(IdOf(record)) && IdOf(record) !in Ids(KeepFirst(init)) {
        NewIdUnseen(init, record);
        PlacedLast(records, KeepFirst(init), KeptIndices(init));
      } else {
        PlacedInLonger(records, KeepFirst(init), KeptIndices(init));
      }
    }
  }

  /** The deduplication loop of `batch_insert_flights`. */
  method Deduplicate(records: seq<Record>) returns (unique: seq<Record>)
    ensures unique == KeepFirst(records)
  {
    var seenIds: set<Value> := {};
    unique := [];
    for i := 0 to |records|
      invariant unique == KeepFirst(records[..i])
      invariant seenIds == Ids(unique)
    {
      assert records[..i + 1][..i] == records[..i];
      var flightId := IdOf(records[i]);
      if Truthy(flightId) && flightId !in seenIds {
        IdsAppend(unique, records[i]);
        seenIds := seenIds + {flightId};
        unique := unique + [records[i]];
      }
    }
    assert records[..|records|] == records;
  }

  /** The slices `s[i:i + size]` for i = 0, size, 2*size, ... */
  function Batches<T>(s: seq<T>, size: nat): (r: seq<seq<T>>)
    requires size > 0
    ensures forall k :: 0 <= k < |r| ==> 0 < |r[k]| <= size
    decreases |s|
  {
    if |s| == 0 then [] else if |s| <= size then [s] else [s[..size]] + Batches(s[size..], size)
  }

  function Concat<T>(ss: seq<seq<T>>): seq<T>
  {
    if |ss| == 0 then [] else ss[0] + Concat(ss[1..])
  }

  /** The batches put back together are the input. */
  lemma {:induction false} BatchesConcat<T>(s: seq<T>, size: nat)
    requires size > 0
    ensures Concat(Batches(s, size)) == s
    decreases |s|
  {
    if |s| > size {
      BatchesConcat(s[size..], size);
      assert Batches(s, size)[1..] == Batches(s[size..], size);
      assert s == s[..size] + s[size..];
    } else if |s| > 0 {
      assert Batches(s, size)[1..] == [];
    }
  }

  /** What the sink answers for one batch: the number of rows it reports,
      or None when the request raises. */
  type Answer = Option<nat>

  /** The rows reported for the batches that did not raise. */
  function Inserted(answers: seq<Answer>): nat
  {
    if |answers| == 0 then 0
    else Inserted(answers[..|answers| - 1]) + (var a := answers[|answers| - 1]; if a.Some? then a.value else 0)
  }

  /** The batching loop of `batch_insert_flights`: sends each batch in
      turn, skips a batch whose request raises, and sums the rows reported
      for the others. */
  method SendBatches(unique: seq<Record>, batchSize: nat, answers: seq<Answer>)
    returns (inserted: nat, sent: seq<seq<Record>>)
    requires batchSize > 0
    requires |answers| == |Batches(unique, batchSize)|
    ensures sent == Batches(unique, batchSize)
    ensures inserted == Inserted(answers)
  {
    inserted := 0;
    sent := [];
    var rest := unique;
    var k := 0;
    while |rest| > 0
      invariant 0 <= k <= |answers|
      invariant sent + Batches(rest, batchSize) == Batches(unique, batchSize)
      invariant |sent| == k
      invariant inserted == Inserted(answers[..k])
      decreases |rest|
    {
      var batch := if |rest| <= batchSize then rest else rest[..batchSize];
      assert Batches(rest, batchSize)[0] == batch;
      assert Batches(rest, batchSize) == [batch] + Batches(rest[|batch|..], batchSize);
      assert answers[..k + 1][..k] == answers[..k];
      var answer := answers[k];
      if answer.Some? {
        inserted := inserted + answer.value;
      }
      sent := sent + [batch];
      rest := rest[|batch|..];
      k := k + 1;
    }
    assert answers[..k] == answers;
  }

  /** Every flight prepared. */
  function PreparedFlights(flights: seq<Record>): (r: seq<Record>)
    ensures |r| == |flights|
    ensures forall i :: 0 <= i < |flights| ==> r[i] == FlightRecordOf(flights[i])
  {
    seq(|flights|, i requires 0 <= i < |flights| => FlightRecordOf(flights[i]))
  }

  /** The preparation loop: each flight prepared in turn. */
  method PrepareAll(flights: seq<Record>) returns (records: seq<Record>)
    ensures records == PreparedFlights(flights)
  {
    records := [];
    for i := 0 to |flights|
      invariant |records| == i
      invariant forall j :: 0 <= j < i ==> records[j] == FlightRecordOf(flights[j])
    {
      var record := PrepareFlightRecord(flights[i]);
      records := records + [record];
    }
  }

  /** `batch_insert_flights`: prepare every flight, keep the first record
      per truthy id, and send the survivors in batches. */
  method BatchInsertFlights(flights: seq<Record>, batchSize: nat, answers: seq<Answer>)
    returns (inserted: nat, sent: seq<seq<Record>>)
    requires batchSize > 0
    requires |answers| == |Batches(KeepFirst(PreparedFlights(flights)), batchSize)|
    ensures sent == Batches(KeepFirst(PreparedFlights(flights)), batchSize)
    ensures Concat(sent) == KeepFirst(PreparedFlights(flights))
    ensures forall k :: 0 <= k < |sent| ==> 0 < |sent[k]| <= batchSize
    ensures inserted == Inserted(answers)
  {
    var records := PrepareAll(flights);
    var unique := Deduplicate(records);
    inserted, sent := SendBatches(unique, batchSize, answers);
    BatchesConcat(unique, batchSize);
  }

  // ---------------------------------------------------------------------
  // Daily summary
  // ---------------------------------------------------------------------

  datatype DailySummary = DailySummary(totalOperations: nat, arrivals: nat, departures: nat, helicopters: nat,
                                       fixedWing: nat, jets: nat, unknownType: nat, curfewOperations: nat,
                                       uniqueAircraft: nat, dayOfWeek: string)

  /** The flights whose `key` equals `v`. */
  function CountEq(flights: seq<Record>, key: string, v: Value): (n: nat)
    ensures n <= |flights|
  {
    if |flights| == 0 then 0
    else CountEq(flights[..|flights| - 1], key, v) + (if Get(flights[|flights| - 1], key) == v then 1 else 0)
  }

  /** The flights whose `key` is truthy. */
  function CountTruthy(flights: seq<Record>, key: string): (n: nat)
    ensures n <= |flights|
  {
    if |flights| == 0 then 0
    else CountTruthy(flights[..|flights| - 1], key) + (if Truthy(Get(flights[|flights| - 1], key)) then 1 else 0)
  }

  /** The distinct truthy registrations. */
  function Registrations(flights: seq<Record>): set<Value>
  {
    set k | 0 <= k < |flights| && Truthy(Get(flights[k], "registration")) :: Get(flights[k], "registration")
  }

  /** Two values that differ are counted apart. */
  lemma {:induction false} CountEqDisjoint(flights: seq<Record>, key: string, v: Value, w: Value)
    requires v != w
    ensures CountEq(flights, key, v) + CountEq(flights, key, w) <= |flights|
  {
    if |flights| > 0 {
      CountEqDisjoint(flights[..|flights| - 1], key, v, w);
    }
  }

  /** Four distinct values are counted apart. */
  lemma {:induction false} CountEqDisjoint4(flights: seq<Record>, key: string, a: Value, b: Value, c: Value, d: Value)
    requires a != b && a != c && a != d && b != c && b != d && c != d
    ensures CountEq(flights, key, a) + CountEq(flights, key, b) + CountEq(flights, key, c) + CountEq(flights, key, d)
      <= |flights|
  {
    if |flights| > 0 {
      CountEqDisjoint4(flights[..|flights| - 1], key, a, b, c, d);
    }
  }

  /** No more distinct registrations than flights. */
  lemma {:induction false} RegistrationsBounded(flights: seq<Record>)
    ensures |Registrations(flights)| <= |flights|
  {
    if |flights| > 0 {
      var init := flights[..|flights| - 1];
      RegistrationsBounded(init);
      var f := flights[|flights| - 1];
      var reg := Get(f, "registration");
      var grown := if Truthy(reg) then Registrations(init) + {reg} else Registrations(init);
      assert Registrations(flights) == grown by {
        forall r | r in Registrations(flights)
          ensures r in grown
        {
          var k :| 0 <= k < |flights| && Truthy(Get(flights[k], "registration")) && Get(flights[k], "registration") == r;
          if k < |init| {
            assert flights[k] == init[k];
          }
        }
        forall r | r in Registrations(init)
          ensures r in Registrations(flights)
        {
          var k :| 0 <= k < |init| && Truthy(Get(init[k], "registration")) && Get(init[k], "registration") == r;
          assert flights[k] == init[k];
        }
        if Truthy(reg) {
          assert flights[|flights| - 1] == f;
        }
      }
    }
  }

  /** `_calculate_daily_summary` over the flights of the date: None when
      there are none, otherwise the counts. */
  function CalculateDailySummary(flights: seq<Record>, day: Day): (r: Option<DailySummary>)
    ensures |flights| == 0 <==> r.None?
    ensures r.Some? ==> r.value.totalOperations == |flights|
    ensures r.Some? ==> r.value.arrivals + r.value.departures <= r.value.totalOperations
    ensures r.Some? ==> r.value.helicopters + r.value.fixedWing + r.value.jets + r.value.unknownType <= r.value.totalOperations
    ensures r.Some? ==> r.value.curfewOperations <= r.value.totalOperations
    ensures r.Some? ==> r.value.uniqueAircraft == |Registrations(flights)| <= r.value.totalOperations
    ensures r.Some? ==> r.value.dayOfWeek == WeekdayName(day)
  {
    if |flights| == 0 then None
    else
      CountEqDisjoint(flights, "direction", Str("arrival"), Str("departure"));
      CountEqDisjoint4(flights, "aircraft_category", Str("helicopter"), Str("fixed_wing"), Str("jet"), Str("unknown"));
      RegistrationsBounded(flights);
      Some(DailySummary(
        |flights|,
        CountEq(flights, "direction", Str("arrival")),
        CountEq(flights, "direction", Str("departure")),
        CountEq(flights, "aircraft_category", Str("helicopter")),
        CountEq(flights, "aircraft_category", Str("fixed_wing")),
        CountEq(flights, "aircraft_category", Str("jet")),
        CountEq(flights, "aircraft_category", Str("unknown")),
        CountTruthy(flights, "is_curfew_period"),
        |Registrations(flights)|,
        WeekdayName(day)))
  }

  /** The outcome of `upsert_daily_summary`: whether it reports success,
      and the row it sent, if any. */
  datatype UpsertOutcome = UpsertOutcome(ok: bool, sent: Option<Record>)

  /** `upsert_daily_summary`: a missing summary is replaced by the
      recalculated one; a missing or empty summary is not written and
      reports False; otherwise the row is sent with its date and time
      stamp, and success means the sink reported at least one row. */
  function UpsertDailySummary(date: string, summary: Option<Record>, recalculated: Option<Record>, now: string,
                              answer: Answer): (r: UpsertOutcome)
    ensures var s := if summary.None? then recalculated else summary;
      (s.None? || |s.value| == 0) ==> r == UpsertOutcome(false, None)
    ensures var s := if summary.None? then recalculated else summary;
      s.Some? && |s.value| > 0 ==>
        && r.sent == Some(s.value["operation_date" := Str(date)]["updated_at" := Str(now)])
        && (r.ok <==> answer.Some? && answer.value > 0)
  {
    var s := if summary.None? then recalculated else summary;
    if s.None? || |s.value| == 0 then UpsertOutcome(false, None)
    else
      var row := s.value["operation_date" := Str(date)]["updated_at" := Str(now)];
      UpsertOutcome(answer.Some? && answer.value > 0, Some(row))
  }
}
