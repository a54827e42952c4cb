/** The pure and table-driven parts of the EASA noise-certification parser
    (scripts/easa/parse_easa_excel.py): column identification, record
    extraction, category guessing, certification lookup and the ICAO type
    code mapping built from it. Spreadsheet reading is not modelled: a row
    arrives as a map from normalised column name to cell. */
module EasaParsing {
  import opened Values
  import opened Text
  import opened Rounding
  import opened CategoryAverages

  /** One spreadsheet cell: its text (`str(value)`) and the number
      `_parse_float` reads from it, if any. A pandas NaN cell has the text
      "nan" and no number. */
  datatype Cell = Cell(text: string, number: Option<real>)

  /** A spreadsheet row, keyed by normalised column name. */
  type Row = map<string, Cell>

  /** One parsed certification record. */
  datatype Certification = Certification(
    manufacturer: string,
    model: string,
    engineType: Option<string>,
    mtomKg: Option<int>,
    category: string,
    lateralEpnl: Option<real>,
    flyoverEpnl: Option<real>,
    approachEpnl: Option<real>,
    takeoffEpnl: Option<real>,
    noiseChapter: Option<string>,
    dataSource: string)

  // ---------------------------------------------------------------------
  // Column identification
  // ---------------------------------------------------------------------

  /** The search terms for each field, in the order they are tried. */
  const ColumnPatterns: seq<(string, seq<string>)> := [
    ("manufacturer", ["manufacturer", "applicant", "mfr", "make"]),
    ("model", ["model", "type", "aircraft type", "designation"]),
    ("engine", ["engine", "engine type", "powerplant"]),
    ("mtom", ["mtom", "mtow", "mass", "weight", "max takeoff"]),
    ("lateral", ["lateral", "sideline", "lateral epnl", "epnl lateral"]),
    ("flyover", ["flyover", "fly-over", "flyover epnl", "epnl flyover"]),
    ("approach", ["approach", "landing", "approach epnl", "epnl approach"]),
    ("takeoff", ["takeoff", "take-off", "departure"]),
    ("chapter", ["chapter", "noise chapter", "stage", "noise stage"]),
    ("noise_level", ["noise level", "sel", "epnl", "db", "dba"])
  ]

  /** Each field is listed once. */
  lemma ColumnPatternKeysDistinct()
    ensures forall i, j :: 0 <= i < j < |ColumnPatterns| ==> ColumnPatterns[i].0 != ColumnPatterns[j].0
  {
  }

  /** A column holds a field when its lower-cased name contains one of the
      field's terms. */
  predicate ColumnMatches(column: string, terms: seq<string>)
  {
    ContainsAny(Lower(column), terms)
  }

  /** The position of the first column, in the given order, that holds a
      field with the given terms. */
  function FirstColumn(columns: seq<string>, terms: seq<string>): (r: Option<nat>)
    ensures r.Some? ==> r.value < |columns| && ColumnMatches(columns[r.value], terms)
    ensures r.Some? ==> forall j :: 0 <= j < r.value ==> !ColumnMatches(columns[j], terms)
    ensures r.None? ==> forall j :: 0 <= j < |columns| ==> !ColumnMatches(columns[j], terms)
  {
    if |columns| == 0 then None
    else if ColumnMatches(columns[0], terms) then Some(0)
    else
      var rest := FirstColumn(columns[1..], terms);
      if rest.None? then None else Some(rest.value + 1)
  }

  /** The fields of a pattern table are pairwise distinct. */
  ghost predicate DistinctFields(patterns: seq<(string, seq<string>)>)
  {
    forall i, j :: 0 <= i < j < |patterns| ==> patterns[i].0 != patterns[j].0
  }

  /** What `_identify_columns` finds for a pattern table: every field maps to
      the first column that holds it, a field no column holds is absent, and
      nothing else is mapped. */
  ghost predicate IdentifiesColumns(mapping: map<string, string>, columns: seq<string>,
                                    patterns: seq<(string, seq<string>)>)
  {
    && (forall i :: 0 <= i < |patterns| ==>
          (patterns[i].0 in mapping <==> FirstColumn(columns, patterns[i].1).Some?))
    && (forall i :: 0 <= i < |patterns| && FirstColumn(columns, patterns[i].1).Some? ==>
          mapping[patterns[i].0] == columns[FirstColumn(columns, patterns[i].1).value])
    && (forall key :: key in mapping ==> exists i :: 0 <= i < |patterns| && patterns[i].0 == key)
  }

  /** The nested search of `_identify_columns` over a table of distinct
      fields. */
  method FindColumns(columns: seq<string>, patterns: seq<(string, seq<string>)>) returns (mapping: map<string, string>)
    requires DistinctFields(patterns)
    ensures IdentifiesColumns(mapping, columns, patterns)
  {
    mapping := map[];
    for i := 0 to |patterns|
      invariant forall p :: 0 <= p < i ==>
        (patterns[p].0 in mapping <==> FirstColumn(columns, patterns[p].1).Some?)
      invariant forall p :: 0 <= p < i && FirstColumn(columns, patterns[p].1).Some? ==>
        mapping[patterns[p].0] == columns[FirstColumn(columns, patterns[p].1).value]
      invariant forall key :: key in mapping ==> exists p :: 0 <= p < i && patterns[p].0 == key
    {
      var key, terms := patterns[i].0, patterns[i].1;
      var j := ScanColumns(columns, terms);
      if j < |columns| {
        mapping := mapping[key := columns[j]];
      }
    }
  }

  /** The inner loop of `_identify_columns`: the position of the first
      column holding one of the terms, or the number of columns when none
      does. */
  method ScanColumns(columns: seq<string>, terms: seq<string>) returns (j: nat)
    ensures j <= |columns|
    ensures j < |columns| <==> FirstColumn(columns, terms).Some?
    ensures j < |columns| ==> j == FirstColumn(columns, terms).value
  {
    j := 0;
    while j < |columns|
      invariant j <= |columns|
      invariant forall c :: 0 <= c < j ==> !ColumnMatches(columns[c], terms)
    {
      if ColumnMatches(columns[j], terms) {
        break;
      }
      j := j + 1;
    }
  }

  /** `_identify_columns` with its own field table. */
  method IdentifyColumns(columns: seq<string>) returns (mapping: map<string, string>)
    ensures IdentifiesColumns(mapping, columns, ColumnPatterns)
  {
    ColumnPatternKeysDistinct();
    mapping := FindColumns(columns, ColumnPatterns);
  }

  // ---------------------------------------------------------------------
  // Record extraction
  // ---------------------------------------------------------------------

  /** The cell a field maps to; a field with no column, or a row without
      that column, reads as an empty cell. */
  function CellAt(row: Row, mapping: map<string, string>, field: string): Cell
  {
    var column := if field in mapping then mapping[field] else "";
    if column in row then row[column] else Cell("", None)
  }

  /** The stripped text of a field. */
  function TextAt(row: Row, mapping: map<string, string>, field: string): string
  {
    Strip(CellAt(row, mapping, field).text)
  }

  /** Python truthiness of an optional number: None and 0.0 are falsy. */
  predicate Present(x: Option<real>)
  {
    x.Some? && x.value != 0.0
  }

  /** `round(x, 1) if x else None` */
  function TenthOrNone(x: Option<real>): (r: Option<real>)
    ensures r.Some? <==> Present(x)
    ensures r.Some? ==> IsTenth(r.value)
    ensures r.Some? ==> x.value - 0.05 <= r.value <= x.value + 0.05
  {
    if Present(x) then Some(RoundTenth(x.value)) else None
  }

  /** The lateral, fly-over and approach levels after the rotorcraft
      fallback: when none of the three is given, a single noise level `n`
      stands for lateral `n`, fly-over `n - 2` and approach `n + 1`. */
  function NoiseLevels(lateral: Option<real>, flyover: Option<real>, approach: Option<real>,
                      noiseLevel: Option<real>): (r: (Option<real>, Option<real>, Option<real>))
    ensures Present(lateral) || Present(flyover) || Present(approach) || !Present(noiseLevel) ==>
      r == (lateral, flyover, approach)
    ensures !Present(lateral) && !Present(flyover) && !Present(approach) && Present(noiseLevel) ==>
      r == (noiseLevel, Some(noiseLevel.value - 2.0), Some(noiseLevel.value + 1.0))
  {
    if !(Present(lateral) || Present(flyover) || Present(approach)) && Present(noiseLevel) then
      var n := noiseLevel.value;
      (Some(n), Some(n - 2.0), Some(n + 1.0))
    else
      (lateral, flyover, approach)
  }

  /** The row has no usable manufacturer or model. */
  predicate Rejected(row: Row, mapping: map<string, string>)
  {
    var manufacturer := TextAt(row, mapping, "manufacturer");
    manufacturer == "" || TextAt(row, mapping, "model") == "" || Lower(manufacturer) == "nan"
  }

  /** `_extract_record`. */
  function ExtractRecord(row: Row, mapping: map<string, string>, defaultCategory: string): (r: Option<Certification>)
    ensures r.None? <==> Rejected(row, mapping)
    ensures r.Some? ==> r.value.manufacturer == TextAt(row, mapping, "manufacturer")
    ensures r.Some? ==> r.value.model == TextAt(row, mapping, "model")
    ensures r.Some? ==> r.value.dataSource == "EASA"
    ensures r.Some? ==> r.value.category == DetermineCategory(r.value.manufacturer, r.value.model, defaultCategory)
    ensures r.Some? ==> (r.value.engineType.None? <==> TextAt(row, mapping, "engine") == "nan")
    ensures r.Some? && r.value.engineType.Some? ==> r.value.engineType.value == TextAt(row, mapping, "engine")
    ensures r.Some? ==> (r.value.noiseChapter.None? <==> TextAt(row, mapping, "chapter") == "nan")
    ensures r.Some? && r.value.noiseChapter.Some? ==> r.value.noiseChapter.value == TextAt(row, mapping, "chapter")
    ensures r.Some? ==> (r.value.mtomKg.Some? <==> Present(CellAt(row, mapping, "mtom").number))
    ensures r.Some? && r.value.mtomKg.Some? ==>
      r.value.mtomKg.value == Truncate(CellAt(row, mapping, "mtom").number.value)
    ensures r.Some? ==>
      var levels := NoiseLevels(CellAt(row, mapping, "lateral").number, CellAt(row, mapping, "flyover").number,
                                CellAt(row, mapping, "approach").number, CellAt(row, mapping, "noise_level").number);
      && r.value.lateralEpnl == TenthOrNone(levels.0)
      && r.value.flyoverEpnl == TenthOrNone(levels.1)
      && r.value.approachEpnl == TenthOrNone(levels.2)
    ensures r.Some? ==> r.value.takeoffEpnl == TenthOrNone(CellAt(row, mapping, "takeoff").number)
  {
    var manufacturer := TextAt(row, mapping, "manufacturer");
    var model := TextAt(row, mapping, "model");
    if manufacturer == "" || model == "" || Lower(manufacturer) == "nan" then None
    else
      var levels := NoiseLevels(CellAt(row, mapping, "lateral").number, CellAt(row, mapping, "flyover").number,
                                CellAt(row, mapping, "approach").number, CellAt(row, mapping, "noise_level").number);
      var engine := TextAt(row, mapping, "engine");
      var mtom := CellAt(row, mapping, "mtom").number;
      var chapter := TextAt(row, mapping, "chapter");
      Some(Certification(
        manufacturer, model,
        if engine != "nan" then Some(engine) else None,
        if Present(mtom) then Some(Truncate(mtom.value)) else None,
        DetermineCategory(manufacturer, model, defaultCategory),
        TenthOrNone(levels.0), TenthOrNone(levels.1), TenthOrNone(levels.2),
        TenthOrNone(CellAt(row, mapping, "takeoff").number),
        if chapter != "nan" then Some(chapter) else None,
        "EASA"))
  }

  /** A row with lateral, fly-over and approach levels all missing or zero
      and a non-zero single noise level `n` is recorded as lateral `n`,
      fly-over `n - 2` and approach `n + 1`, each rounded to a tenth (and
      dropped when it is zero). */
  lemma NoiseLevelFallback(row: Row, mapping: map<string, string>, defaultCategory: string, n: real)
    requires !Rejected(row, mapping)
    requires !Present(CellAt(row, mapping, "lateral").number)
    requires !Present(CellAt(row, mapping, "flyover").number)
    requires !Present(CellAt(row, mapping, "approach").number)
    requires CellAt(row, mapping, "noise_level").number == Some(n) && n != 0.0
    ensures var r := ExtractRecord(row, mapping, defaultCategory).value;
      && r.lateralEpnl == Some(RoundTenth(n))
      && r.flyoverEpnl == (if n == 2.0 then None else Some(RoundTenth(n - 2.0)))
      && r.approachEpnl == (if n == -1.0 then None else Some(RoundTenth(n + 1.0)))
  {
  }

  /** A lateral, fly-over or approach level given in the row is kept,
      rounded to a tenth. */
  lemma GivenLevelsKept(row: Row, mapping: map<string, string>, defaultCategory: string)
    requires !Rejected(row, mapping)
    ensures var r := ExtractRecord(row, mapping, defaultCategory).value;
      var lateral := CellAt(row, mapping, "lateral").number;
      var flyover := CellAt(row, mapping, "flyover").number;
      var approach := CellAt(row, mapping, "approach").number;
      Present(lateral) || Present(flyover) || Present(approach) ==>
        && r.lateralEpnl == TenthOrNone(lateral)
        && r.flyoverEpnl == TenthOrNone(flyover)
        && r.approachEpnl == TenthOrNone(approach)
  {
  }

  // ---------------------------------------------------------------------
  // Categories
  // ---------------------------------------------------------------------

  const HelicopterKeywords: seq<string> := ["helicopter", "rotorcraft", "bell", "sikorsky",
    "robinson", "agusta", "eurocopter", "airbus helicopters", "md helicopters", "enstrom", "schweizer"]

  const JetKeywords: seq<string> := ["jet", "citation", "gulfstream", "learjet", "falcon",
    "challenger", "global", "phenom", "legacy", "embraer"]

  /** `_determine_category`: helicopter keywords win over jet keywords, and
      the file's default category applies when neither occurs in the
      lower-cased "manufacturer model". */
  function DetermineCategory(manufacturer: string, model: string, default: string): (c: string)
    ensures c == "helicopter" || c == "jet" || c == default
    ensures ContainsAny(Lower(manufacturer + " " + model), HelicopterKeywords) ==> c == "helicopter"
    ensures (!ContainsAny(Lower(manufacturer + " " + model), HelicopterKeywords) &&
             ContainsAny(Lower(manufacturer + " " + model), JetKeywords)) ==> c == "jet"
    ensures (!ContainsAny(Lower(manufacturer + " " + model), HelicopterKeywords) &&
             !ContainsAny(Lower(manufacturer + " " + model), JetKeywords)) ==> c == default
  {
    var combined := Lower(manufacturer + " " + model);
    if ContainsAny(combined, HelicopterKeywords) then "helicopter"
    else if ContainsAny(combined, JetKeywords) then "jet"
    else default
  }

  /** The keyword match ignores the case of manufacturer and model. */
  lemma DetermineCategoryCaseInsensitive(manufacturer: string, model: string, default: string)
    ensures DetermineCategory(Upper(manufacturer), Upper(model), default) ==
            DetermineCategory(manufacturer, model, default)
  {
    UpperAppend(manufacturer, " ");
    UpperAppend(manufacturer + " ", model);
    assert Upper(" ") == " ";
    LowerOfUpper(manufacturer + " " + model);
  }

  const HelicopterPrefixes: seq<string> := ["R2", "R4", "R6", "S7", "S9", "S6",
    "EC", "AS", "A1", "B0", "B4", "B5", "MD", "H1", "H5", "H2"]

  const JetPrefixes: seq<string> := ["GL", "CL", "C5", "C6", "C7",
    "LJ", "FA", "F9", "E1", "E3", "E5"]

  const FixedWingPrefixes: seq<string> := ["C1", "C2", "PA", "P2", "P2",
    "BE", "SR", "DA", "M2", "PC"]

  /** `_guess_category_from_icao`: helicopter prefixes, then jet, then
      fixed-wing, else "unknown". */
  function GuessCategory(icaoCode: string): (c: string)
    ensures StartsWithAny(icaoCode, HelicopterPrefixes) ==> c == "helicopter"
    ensures !StartsWithAny(icaoCode, HelicopterPrefixes) && StartsWithAny(icaoCode, JetPrefixes) ==> c == "jet"
    ensures (!StartsWithAny(icaoCode, HelicopterPrefixes) && !StartsWithAny(icaoCode, JetPrefixes) &&
             StartsWithAny(icaoCode, FixedWingPrefixes)) ==> c == "fixed_wing"
    ensures (!StartsWithAny(icaoCode, HelicopterPrefixes) && !StartsWithAny(icaoCode, JetPrefixes) &&
             !StartsWithAny(icaoCode, FixedWingPrefixes)) ==> c == "unknown"
  {
    if StartsWithAny(icaoCode, HelicopterPrefixes) then "helicopter"
    else if StartsWithAny(icaoCode, JetPrefixes) then "jet"
    else if StartsWithAny(icaoCode, FixedWingPrefixes) then "fixed_wing"
    else "unknown"
  }

  /** Every guessed category has a row in the category averages, so the
      fallback lookup never fails. */
  lemma GuessedCategoryHasAverage(icaoCode: string)
    ensures GuessCategory(icaoCode) in CategoryDefaults
  {
  }

  // ---------------------------------------------------------------------
  // Certification lookup and EPNL conversion
  // ---------------------------------------------------------------------

  /** A certification matches when its lower-cased "manufacturer model"
      contains one of the lower-cased patterns. */
  predicate CertificationMatches(cert: Certification, patterns: seq<string>)
  {
    exists p :: 0 <= p < |patterns| && Contains(Lower(cert.manufacturer + " " + cert.model), Lower(patterns[p]))
  }

  /** The position of the first matching certification, in list order. */
  function FirstMatchIndex(certs: seq<Certification>, patterns: seq<string>): (r: Option<nat>)
    ensures r.Some? ==> r.value < |certs| && CertificationMatches(certs[r.value], patterns)
    ensures r.Some? ==> forall j :: 0 <= j < r.value ==> !CertificationMatches(certs[j], patterns)
    ensures r.None? ==> forall j :: 0 <= j < |certs| ==> !CertificationMatches(certs[j], patterns)
  {
    if |certs| == 0 then None
    else if CertificationMatches(certs[0], patterns) then Some(0)
    else
      var rest := FirstMatchIndex(certs[1..], patterns);
      if rest.None? then None else Some(rest.value + 1)
  }

  /** The first matching certification, if any. */
  function BestMatch(certs: seq<Certification>, patterns: seq<string>): Option<Certification>
  {
    var i := FirstMatchIndex(certs, patterns);
    if i.Some? then Some(certs[i.value]) else None
  }

  /** `_epnl_to_lamax`: LAmax is taken as EPNL less 13 dB, to a tenth. */
  function EpnlToLamax(epnl: Option<real>): (r: Option<real>)
    ensures r.None? <==> epnl.None?
    ensures r.Some? ==> IsTenth(r.value)
    ensures r.Some? ==> epnl.value - 13.05 <= r.value <= epnl.value - 12.95
  {
    if epnl.None? then None else Some(RoundTenth(epnl.value - 13.0))
  }

  /** A louder certification never converts to a quieter LAmax. */
  lemma EpnlToLamaxMonotone(a: real, b: real)
    requires a <= b
    ensures EpnlToLamax(Some(a)).value <= EpnlToLamax(Some(b)).value
  {
    RoundTenthMonotone(a - 13.0, b - 13.0);
  }

  // ---------------------------------------------------------------------
  // ICAO type code mapping
  // ---------------------------------------------------------------------

  /** One entry of the ICAO type code mapping. */
  datatype IcaoEntry = IcaoEntry(
    icaoType: string,
    easaManufacturer: Option<string>,
    easaModel: Option<string>,
    category: string,
    lateralEpnl: Option<real>,
    flyoverEpnl: Option<real>,
    approachEpnl: Option<real>,
    takeoffDb: Option<real>,
    approachDb: Option<real>,
    dataSource: string,
    confidence: string)

  /** Python's `a or b` on optional levels. */
  function OrLevel(a: Option<real>, b: Option<real>): (r: Option<real>)
    ensures Present(a) ==> r == a
    ensures !Present(a) ==> r == b
  {
    if Present(a) then a else b
  }

  /** The entry for a type code: from its certification when one matched,
      otherwise a low-confidence estimate from the category guessed from the
      code, approach 4 dB below takeoff. */
  function EntryFor(icaoCode: string, best: Option<Certification>): (e: IcaoEntry)
    ensures e.icaoType == icaoCode
    ensures best.Some? ==> e.dataSource == "EASA_CERTIFIED" && e.confidence == "high"
    ensures best.Some? ==> e.easaManufacturer == Some(best.value.manufacturer) && e.easaModel == Some(best.value.model)
    ensures best.Some? ==> e.category == best.value.category
    ensures best.Some? ==>
      e.lateralEpnl == best.value.lateralEpnl && e.flyoverEpnl == best.value.flyoverEpnl &&
      e.approachEpnl == best.value.approachEpnl
    ensures best.Some? ==> e.takeoffDb == EpnlToLamax(OrLevel(best.value.takeoffEpnl, best.value.flyoverEpnl))
    ensures best.Some? ==> e.approachDb == EpnlToLamax(best.value.approachEpnl)
    ensures best.None? ==> e.dataSource == "CATEGORY_ESTIMATE" && e.confidence == "low"
    ensures best.None? ==> e.category == GuessCategory(icaoCode) && e.easaManufacturer.None? && e.easaModel.None?
    ensures best.None? ==> e.lateralEpnl.None? && e.flyoverEpnl.None? && e.approachEpnl.None?
    ensures best.None? ==> e.takeoffDb == Some(DefaultLevel(e.category) as real)
    ensures best.None? ==> e.approachDb == Some(e.takeoffDb.value - 4.0)
  {
    if best.Some? then
      var c := best.value;
      IcaoEntry(icaoCode, Some(c.manufacturer), Some(c.model), c.category,
                c.lateralEpnl, c.flyoverEpnl, c.approachEpnl,
                EpnlToLamax(OrLevel(c.takeoffEpnl, c.flyoverEpnl)), EpnlToLamax(c.approachEpnl),
                "EASA_CERTIFIED", "high")
    else
      var category := GuessCategory(icaoCode);
      GuessedCategoryHasAverage(icaoCode);
      var level := CategoryDefaults[category];
      IcaoEntry(icaoCode, None, None, category, None, None, None,
                Some(level as real), Some((level - 4) as real), "CATEGORY_ESTIMATE", "low")
  }

  /** The mapping built from a pattern table, entry by entry in table
      order; a code listed twice keeps its last entry, as a Python dict
      does. */
  function MappingOf(patterns: seq<(string, seq<string>)>, certs: seq<Certification>): map<string, IcaoEntry>
  {
    if |patterns| == 0 then map[]
    else
      var last := patterns[|patterns| - 1];
      MappingOf(patterns[..|patterns| - 1], certs)[last.0 := EntryFor(last.0, BestMatch(certs, last.1))]
  }

  /** Every code of the table has exactly one entry, and nothing else has
      one. */
  lemma {:induction false} MappingKeys(patterns: seq<(string, seq<string>)>, certs: seq<Certification>)
    ensures MappingOf(patterns, certs).Keys == set i | 0 <= i < |patterns| :: patterns[i].0
  {
    if |patterns| > 0 {
      var init := patterns[..|patterns| - 1];
      MappingKeys(init, certs);
      CodesSnoc(patterns, init);
    }
  }

  /** The codes of a table are those of all its rows but the last, and the
      last row's code. */
  lemma CodesSnoc(patterns: seq<(string, seq<string>)>, init: seq<(string, seq<string>)>)
    requires |patterns| > 0 && init == patterns[..|patterns| - 1]
    ensures (set i | 0 <= i < |patterns| :: patterns[i].0)
         == (set i | 0 <= i < |init| :: init[i].0) + {patterns[|patterns| - 1].0}
  {
    assert forall i :: 0 <= i < |init| ==> init[i] == patterns[i];
  }

  /** Every entry is either certified with high confidence, or a
      low-confidence category estimate whose approach level is 4 dB below
      its takeoff level, which is the category's default. */
  lemma {:induction false} MappingEntries(patterns: seq<(string, seq<string>)>, certs: seq<Certification>)
    ensures forall code :: code in MappingOf(patterns, certs) ==>
      var e := MappingOf(patterns, certs)[code];
      && e.icaoType == code
      && ((e.dataSource == "EASA_CERTIFIED" && e.confidence == "high") ||
          (e.dataSource == "CATEGORY_ESTIMATE" && e.confidence == "low" &&
           e.takeoffDb == Some(DefaultLevel(e.category) as real) && e.approachDb == Some(e.takeoffDb.value - 4.0)))
  {
    if |patterns| > 0 {
      MappingEntries(patterns[..|patterns| - 1], certs);
    }
  }

  /** The entry of a code listed once, or last, in the table is the one its
      own patterns select: certified exactly when some certification
      matches them. */
  lemma {:induction false} MappingEntryOf(patterns: seq<(string, seq<string>)>, certs: seq<Certification>, i: nat)
    requires i < |patterns|
    requires forall j :: i < j < |patterns| ==> patterns[j].0 != patterns[i].0
    ensures patterns[i].0 in MappingOf(patterns, certs)
    ensures MappingOf(patterns, certs)[patterns[i].0] == EntryFor(patterns[i].0, BestMatch(certs, patterns[i].1))
    ensures MappingOf(patterns, certs)[patterns[i].0].dataSource == "EASA_CERTIFIED" <==>
            exists c :: 0 <= c < |certs| && CertificationMatches(certs[c], patterns[i].1)
  {
    if i < |patterns| - 1 {
      var init := patterns[..|patterns| - 1];
      assert init[i] == patterns[i];
      MappingEntryOf(init, certs, i);
    }
  }

  /** The ICAO type codes the mapping covers, each with its search
      patterns, in declaration order. */
  const IcaoPatterns: seq<(string, seq<string>)> := [
      ("R22", ["Robinson", "R22"]),
      ("R44", ["Robinson", "R44"]),
      ("R66", ["Robinson", "R66"]),
      ("S76", ["Sikorsky", "S-76", "S76"]),
      ("S92", ["Sikorsky", "S-92", "S92"]),
      ("S61", ["Sikorsky", "S-61", "S61"]),
      ("EC35", ["EC135", "EC-135", "H135"]),
      ("EC45", ["EC145", "EC-145", "H145"]),
      ("EC55", ["EC155", "EC-155", "H155"]),
      ("EC30", ["EC130", "EC-130", "H130"]),
      ("AS50", ["AS350", "AS-350", "H125", "Ecureuil"]),
      ("AS55", ["AS355", "AS-355", "Ecureuil 2"]),
      ("AS32", ["AS332", "Super Puma", "H225"]),
      ("A109", ["AW109", "A109", "AgustaWestland 109"]),
      ("A119", ["AW119", "A119", "AgustaWestland 119"]),
      ("A139", ["AW139", "A139", "AgustaWestland 139"]),
      ("A169", ["AW169", "A169", "AgustaWestland 169"]),
      ("A189", ["AW189", "A189", "AgustaWestland 189"]),
      ("B06", ["Bell 206", "B206", "JetRanger"]),
      ("B407", ["Bell 407", "B407"]),
      ("B412", ["Bell 412", "B412"]),
      ("B429", ["Bell 429", "B429"]),
      ("B505", ["Bell 505", "B505", "Jet Ranger X"]),
      ("B525", ["Bell 525", "B525", "Relentless"]),
      ("MD52", ["MD 520", "MD520", "NOTAR"]),
      ("MD60", ["MD 600", "MD600"]),
      ("H500", ["Hughes 500", "MD 500", "MD500"]),
      ("GLF2", ["Gulfstream II", "G-II", "GII"]),
      ("GLF3", ["Gulfstream III", "G-III", "GIII"]),
      ("GLF4", ["Gulfstream IV", "G-IV", "GIV", "G400", "G450"]),
      ("GLF5", ["Gulfstream V", "G-V", "GV", "G500", "G550"]),
      ("GLF6", ["Gulfstream G600", "G600", "G650"]),
      ("GLEX", ["Global Express", "BD-700"]),
      ("CL30", ["Challenger 300", "BD-100"]),
      ("CL35", ["Challenger 350", "BD-100"]),
      ("CL60", ["Challenger 600", "CL-600", "Challenger 601", "Challenger 604", "Challenger 605"]),
      ("GL5T", ["Global 5000", "BD-700", "Global 5500"]),
      ("GL7T", ["Global 7000", "BD-700", "Global 7500"]),
      ("C500", ["Citation I", "Citation 500"]),
      ("C525", ["CitationJet", "Citation CJ", "CJ1", "CJ2", "CJ3", "CJ4", "525"]),
      ("C550", ["Citation II", "Citation Bravo", "S550"]),
      ("C560", ["Citation V", "Citation Ultra", "Citation Encore", "560"]),
      ("C56X", ["Citation Excel", "Citation XLS", "560XL"]),
      ("C680", ["Citation Sovereign", "680"]),
      ("C700", ["Citation Longitude", "700"]),
      ("C750", ["Citation X", "Citation X+", "750"]),
      ("E135", ["ERJ-135", "EMB-135"]),
      ("E145", ["ERJ-145", "EMB-145"]),
      ("E35L", ["Legacy 450", "EMB-545", "Praetor 500"]),
      ("E50P", ["Phenom 100", "EMB-500"]),
      ("E55P", ["Phenom 300", "EMB-505"]),
      ("E545", ["Legacy 450", "Praetor 500"]),
      ("E550", ["Legacy 500", "Praetor 600"]),
      ("FA10", ["Falcon 10", "Mystere 10"]),
      ("FA20", ["Falcon 20", "Mystere 20"]),
      ("FA50", ["Falcon 50"]),
      ("FA7X", ["Falcon 7X"]),
      ("F900", ["Falcon 900"]),
      ("F2TH", ["Falcon 2000"]),
      ("FA8X", ["Falcon 8X"]),
      ("LJ23", ["Learjet 23"]),
      ("LJ24", ["Learjet 24"]),
      ("LJ25", ["Learjet 25"]),
      ("LJ31", ["Learjet 31"]),
      ("LJ35", ["Learjet 35", "Learjet 36"]),
      ("LJ40", ["Learjet 40"]),
      ("LJ45", ["Learjet 45"]),
      ("LJ55", ["Learjet 55"]),
      ("LJ60", ["Learjet 60"]),
      ("LJ75", ["Learjet 75"]),
      ("C150", ["Cessna 150"]),
      ("C152", ["Cessna 152"]),
      ("C172", ["Cessna 172", "Skyhawk"]),
      ("C182", ["Cessna 182", "Skylane"]),
      ("C206", ["Cessna 206", "Stationair", "T206"]),
      ("C208", ["Cessna 208", "Caravan"]),
      ("C210", ["Cessna 210", "Centurion"]),
      ("C310", ["Cessna 310"]),
      ("C340", ["Cessna 340"]),
      ("C414", ["Cessna 414"]),
      ("P28A", ["PA-28", "Cherokee", "Archer", "Warrior"]),
      ("PA28", ["PA-28", "Cherokee", "Archer", "Warrior"]),
      ("PA32", ["PA-32", "Cherokee Six", "Saratoga", "Lance"]),
      ("PA34", ["PA-34", "Seneca"]),
      ("PA46", ["PA-46", "Malibu", "Meridian", "M350", "M500", "M600"]),
      ("PC12", ["Pilatus PC-12", "PC-12"]),
      ("PC24", ["Pilatus PC-24", "PC-24"]),
      ("BE33", ["Bonanza 33", "Debonair"]),
      ("BE35", ["Bonanza 35", "V35"]),
      ("BE36", ["Bonanza 36", "A36"]),
      ("BE55", ["Baron 55", "E55"]),
      ("BE58", ["Baron 58", "G58"]),
      ("BE9L", ["King Air 90", "C90"]),
      ("BE20", ["King Air 200", "B200", "Super King Air"]),
      ("B350", ["King Air 350", "Super King Air 350"]),
      ("SR20", ["Cirrus SR20"]),
      ("SR22", ["Cirrus SR22"]),
      ("SF50", ["Cirrus Vision Jet", "SF50"]),
      ("DA20", ["Diamond DA20"]),
      ("DA40", ["Diamond DA40", "Diamond Star"]),
      ("DA42", ["Diamond DA42", "Twin Star"]),
      ("DA50", ["Diamond DA50"]),
      ("DA62", ["Diamond DA62"]),
      ("M20J", ["Mooney M20J", "201"]),
      ("M20K", ["Mooney M20K", "231", "252"]),
      ("M20M", ["Mooney M20M", "TLS", "Bravo"]),
      ("M20R", ["Mooney M20R", "Ovation"]),
      ("M20T", ["Mooney M20T", "Acclaim"]),
      ("M20U", ["Mooney M20U", "Ovation Ultra"])  ]

  /** The parser's state: the certifications read from the spreadsheets and
      the ICAO mapping built from them. */
  class EasaParser {
    var certifications: seq<Certification>
    var icaoMap: map<string, IcaoEntry>

    constructor()
      ensures certifications == [] && icaoMap == map[]
    {
      certifications := [];
      icaoMap := map[];
    }

    /** What `parse_excel_files` stores: the records parsed from every
        available sheet, in order. */
    method SetCertifications(records: seq<Certification>)
      modifies this
      ensures certifications == records && icaoMap == old(icaoMap)
    {
      certifications := records;
    }

    /** `_find_best_match`: the first certification, in list order, whose
        "manufacturer model" contains one of the patterns, ignoring case. */
    method FindBestMatch(icaoCode: string, patterns: seq<string>) returns (r: Option<Certification>)
      ensures r == BestMatch(certifications, patterns)
    {
      for c := 0 to |certifications|
        invariant forall j :: 0 <= j < c ==> !CertificationMatches(certifications[j], patterns)
      {
        var cert := certifications[c];
        var combined := Lower(cert.manufacturer + " " + cert.model);
        for p := 0 to |patterns|
          invariant forall q :: 0 <= q < p ==> !Contains(combined, Lower(patterns[q]))
        {
          if Contains(combined, Lower(patterns[p])) {
            return Some(cert);
          }
        }
      }
      return None;
    }

    /** The loop of `build_icao_mapping` over a pattern table: one entry
        per code, stored in the parser and returned. */
    method BuildMapping(table: seq<(string, seq<string>)>) returns (m: map<string, IcaoEntry>)
      modifies this
      ensures m == MappingOf(table, certifications)
      ensures icaoMap == m && certifications == old(certifications)
    {
      m := map[];
      for i := 0 to |table|
        invariant m == MappingOf(table[..i], certifications)
        invariant certifications == old(certifications)
      {
        var code, patterns := table[i].0, table[i].1;
        var best := FindBestMatch(code, patterns);
        assert table[..i + 1][..i] == table[..i];
        m := m[code := EntryFor(code, best)];
      }
      assert table[..|table|] == table;
      icaoMap := m;
    }

    /** `build_icao_mapping`, over the ICAO pattern table. */
    method BuildIcaoMapping() returns (m: map<string, IcaoEntry>)
      modifies this
      ensures m == MappingOf(IcaoPatterns, certifications)
      ensures icaoMap == m && certifications == old(certifications)
    {
      m := BuildMapping(IcaoPatterns);
    }
  }
}
