/** The reconciliation of the two flight stores
    (scripts/audit/compare_databases.py, `compare_flights`). Each store is
    given as its rows keyed by fa_flight_id; reading the stores is not
    modelled. */
module Reconcile {
  import opened Values

  /** Flight rows keyed by fa_flight_id. */
  type Store = map<Value, Record>

  const CheckFields: seq<string> := ["aircraft_type", "aircraft_category", "direction", "operation_date",
                                     "operation_hour_et", "is_curfew_period", "registration", "origin_code",
                                     "destination_code"]

  /** Booleans are compared as 1 and 0. */
  function Normalize(v: Value): (r: Value)
    ensures !r.Bool?
    ensures v.Bool? ==> r == Int(if v.b then 1 else 0)
    ensures !v.Bool? ==> r == v
  {
    if v.Bool? then Int(if v.b then 1 else 0) else v
  }

  /** The field's normalized values differ between the two rows. */
  predicate Differs(sqliteRow: Record, supabaseRow: Record, field: string)
  {
    Normalize(Get(sqliteRow, field)) != Normalize(Get(supabaseRow, field))
  }

  /** A stored True and a stored 1 are not a difference. */
  lemma BoolMatchesInteger(sqliteRow: Record, supabaseRow: Record, field: string)
    requires Get(sqliteRow, field) == Int(1) && Get(supabaseRow, field) == Bool(true)
    ensures !Differs(sqliteRow, supabaseRow, field)
  {
  }

  /** The two values of one differing field, both normalized. */
  datatype FieldPair = FieldPair(sqlite: Value, supabase: Value)

  /** One shared flight with at least one differing field. */
  datatype Difference = Difference(faFlightId: Value, diffs: map<string, FieldPair>)

  /** Exactly the differing fields of `fields`, each with both values. */
  ghost predicate DiffsOf(diffs: map<string, FieldPair>, sqliteRow: Record, supabaseRow: Record, fields: seq<string>)
  {
    && (forall f :: f in diffs <==> f in fields && Differs(sqliteRow, supabaseRow, f))
    && (forall f :: f in diffs ==>
          diffs[f] == FieldPair(Normalize(Get(sqliteRow, f)), Normalize(Get(supabaseRow, f))))
  }

  /** The per-record field loop. */
  method FieldDiffs(sqliteRow: Record, supabaseRow: Record, fields: seq<string>) returns (diffs: map<string, FieldPair>)
    ensures DiffsOf(diffs, sqliteRow, supabaseRow, fields)
  {
    diffs := map[];
    for k := 0 to |fields|
      invariant DiffsOf(diffs, sqliteRow, supabaseRow, fields[..k])
    {
      assert fields[..k + 1] == fields[..k] + [fields[k]];
      var sqliteVal := Normalize(Get(sqliteRow, fields[k]));
      var supabaseVal := Normalize(Get(supabaseRow, fields[k]));
      if sqliteVal != supabaseVal {
        diffs := diffs[fields[k] := FieldPair(sqliteVal, supabaseVal)];
      }
    }
    assert fields[..|fields|] == fields;
  }

  /** Rows that agree on every checked field have no differences. */
  lemma AgreeingRowsNoDiffs(diffs: map<string, FieldPair>, sqliteRow: Record, supabaseRow: Record, fields: seq<string>)
    requires DiffsOf(diffs, sqliteRow, supabaseRow, fields)
    requires forall f :: f in fields ==> Get(sqliteRow, f) == Get(supabaseRow, f)
    ensures diffs == map[]
  {
  }

  datatype Comparison = Comparison(onlySqlite: set<Value>, onlySupabase: set<Value>, inBoth: nat,
                                   differences: seq<Difference>)

  /** The checked fields on which the two rows differ. */
  function DiffFields(sqliteRow: Record, supabaseRow: Record): set<string>
  {
    set f | f in CheckFields && Differs(sqliteRow, supabaseRow, f)
  }

  /** The ids listed in the differences. */
  function IdsOf(differences: seq<Difference>): set<Value>
  {
    set k | 0 <= k < |differences| :: differences[k].faFlightId
  }

  /** What the differences list says about the shared ids in `ids`: each
      entry is such an id with a non-empty, exact field diff; every such id
      with a difference has an entry; no id is listed twice. */
  ghost predicate ReportsDifferences(differences: seq<Difference>, sqlite: Store, supabase: Store, ids: set<Value>)
    requires ids <= sqlite.Keys * supabase.Keys
  {
    && (forall k :: 0 <= k < |differences| ==>
          var e := differences[k];
          && e.faFlightId in ids
          && e.diffs != map[]
          && DiffsOf(e.diffs, sqlite[e.faFlightId], supabase[e.faFlightId], CheckFields))
    && (forall id :: id in ids && DiffFields(sqlite[id], supabase[id]) != {} ==> id in IdsOf(differences))
    && (forall k, l :: 0 <= k < l < |differences| ==> differences[k].faFlightId != differences[l].faFlightId)
  }

  /** One iteration of the comparison loop: a shared id not yet visited. */
  method CompareOne(sqlite: Store, supabase: Store, visited: set<Value>, id: Value, differences: seq<Difference>)
    returns (differences': seq<Difference>)
    requires visited <= sqlite.Keys * supabase.Keys && id in sqlite && id in supabase && id !in visited
    requires ReportsDifferences(differences, sqlite, supabase, visited)
    ensures ReportsDifferences(differences', sqlite, supabase, visited + {id})
  {
    var diffs := FieldDiffs(sqlite[id], supabase[id], CheckFields);
    assert diffs.Keys == DiffFields(sqlite[id], supabase[id]);
    if diffs != map[] {
      differences' := differences + [Difference(id, diffs)];
      assert IdsOf(differences') == IdsOf(differences) + {id} by {
        assert differences'[|differences|].faFlightId == id;
        assert forall k :: 0 <= k < |differences| ==> differences'[k] == differences[k];
      }
    } else {
      differences' := differences;
      assert DiffFields(sqlite[id], supabase[id]) == {};
    }
  }

  /** `compare_flights`: the ids only in SQLite, only in Supabase, the
      number in both, and one entry per shared id whose checked fields
      differ. The shared ids are visited in an unspecified order, as
      Python's set iteration is. */
  method CompareFlights(sqlite: Store, supabase: Store) returns (r: Comparison)
    ensures r.onlySqlite == sqlite.Keys - supabase.Keys
    ensures r.onlySupabase == supabase.Keys - sqlite.Keys
    ensures r.inBoth == |sqlite.Keys * supabase.Keys|
    ensures ReportsDifferences(r.differences, sqlite, supabase, sqlite.Keys * supabase.Keys)
  {
    var inBoth := sqlite.Keys * supabase.Keys;
    var differences: seq<Difference> := [];
    var remaining := inBoth;
    while remaining != {}
      invariant remaining <= inBoth
      invariant ReportsDifferences(differences, sqlite, supabase, inBoth - remaining)
      decreases |remaining|
    {
      var id :| id in remaining;
      differences := CompareOne(sqlite, supabase, inBoth - remaining, id, differences);
      assert (inBoth - remaining) + {id} == inBoth - (remaining - {id});
      remaining := remaining - {id};
    }
    r := Comparison(sqlite.Keys - supabase.Keys, supabase.Keys - sqlite.Keys, |inBoth|, differences);
  }

  /** The three id groups partition the union of the two stores, so their
      sizes add up to its size. */
  lemma PartitionSizes(s: set<Value>, p: set<Value>)
    ensures (s - p) + (p - s) + (s * p) == s + p
    ensures (s - p) * (p - s) == {} && (s - p) * (s * p) == {} && (p - s) * (s * p) == {}
    ensures |s - p| + |p - s| + |s * p| == |s + p|
  {
    assert (s - p) + (s * p) == s;
    assert |s| == |s - p| + |s * p|;
    assert (s + p) == s + (p - s);
    assert |s + p| == |s| + |p - s|;
  }
}
