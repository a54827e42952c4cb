/** The deterministic parts of the noise-complaint loader
    (scripts/load_complaints.py): finding a field's column, stripping the
    house number from an address, normalising municipality names, and
    scoring the flights near a complaint to pick the one it most likely
    refers to. Spreadsheet reading, time-zone conversion, geocoding and the
    database query for nearby flights are not modelled: the flights come in
    as a list, nearest first. */
module Complaints {
  import opened Values
  import opened Text

  // ---------------------------------------------------------------------
  // Column lookup
  // ---------------------------------------------------------------------

  /** The header names each field may appear under, most preferred first. */
  const ColumnMappings: map<string, seq<string>> := map[
    "event_date" := ["Date of Noise Event", "Event Date", "Date", "date"],
    "event_time" := ["Time of Noise Event", "Event Time", "Time", "time"],
    "address" := ["Street Address", "Address", "Street", "address", "street_address"],
    "municipality" := ["City/Town", "Municipality", "City", "Town", "city", "municipality"],
    "zip_code" := ["Zip Code", "ZIP", "Zip", "zip_code", "zipcode"],
    "airport" := ["Airport", "airport"],
    "complaint_types" := ["Complaint Type(s)", "Complaint Types", "Complaint Type", "Type of Complaint", "complaint_types"],
    "aircraft_type" := ["Aircraft Type", "Type of Aircraft", "aircraft_type"],
    "aircraft_description" := ["Aircraft Description", "Description of Aircraft", "aircraft_description"],
    "flight_direction" := ["Direction", "Flight Direction", "direction"],
    "comments" := ["Comments", "Additional Comments", "Notes", "comments"],
    "submission_date" := ["Submission Date", "Date Submitted", "Filed Date", "submission_date"]
  ]

  /** The names a field may appear under: its mapped names, or just its own
      name when it has none. */
  function CandidateNames(field: string): (names: seq<string>)
    ensures field in ColumnMappings ==> names == ColumnMappings[field]
    ensures field !in ColumnMappings ==> names == [field]
  {
    if field in ColumnMappings then ColumnMappings[field] else [field]
  }

  /** The first of `names`, in order, that is one of the headers. */
  function FirstPresent(names: seq<string>, headers: seq<string>): (r: Option<string>)
    ensures r.Some? ==> r.value in headers && r.value in names
    ensures r.Some? ==> exists i :: 0 <= i < |names| && names[i] == r.value &&
                                    forall j :: 0 <= j < i ==> names[j] !in headers
    ensures r.None? <==> forall i :: 0 <= i < |names| ==> names[i] !in headers
  {
    if |names| == 0 then None
    else if names[0] in headers then Some(names[0])
    else
      var rest := FirstPresent(names[1..], headers);
      assert rest.Some? ==> exists i :: 0 <= i < |names| && names[i] == rest.value &&
                                        forall j :: 0 <= j < i ==> names[j] !in headers by {
        if rest.Some? {
          var k :| 0 <= k < |names[1..]| && names[1..][k] == rest.value &&
                   forall j :: 0 <= j < k ==> names[1..][j] !in headers;
          assert names[k + 1] == rest.value;
        }
      }
      rest
  }

  /** `find_column`: the first candidate name of the field, in preference
      order, that the headers contain, or None. */
  function FindColumn(headers: seq<string>, field: string): (r: Option<string>)
    ensures r.Some? ==> r.value in headers && r.value in CandidateNames(field)
    ensures r.None? <==> forall name :: name in CandidateNames(field) ==> name !in headers
  {
    FirstPresent(CandidateNames(field), headers)
  }

  /** A field without a mapping is found under its own name exactly when the
      headers contain that name. */
  lemma UnmappedFieldByOwnName(headers: seq<string>, field: string)
    requires field !in ColumnMappings
    ensures FindColumn(headers, field) == (if field in headers then Some(field) else None)
  {
  }

  // ---------------------------------------------------------------------
  // House numbers
  // ---------------------------------------------------------------------

  /** A character of the number part of a house number: a digit or '-'. */
  predicate IsNumberChar(c: char) { IsDigit(c) || c == '-' }

  /** The end of the run of number characters starting at `i`. */
  function NumberRunEnd(t: string, i: nat): (e: nat)
    requires i <= |t|
    ensures i <= e <= |t|
    ensures forall k :: i <= k < e ==> IsNumberChar(t[k])
    ensures e == |t| || !IsNumberChar(t[e])
    decreases |t| - i
  {
    if i < |t| && IsNumberChar(t[i]) then NumberRunEnd(t, i + 1) else i
  }

  /** The end of the run of whitespace starting at `i`. */
  function SpaceRunEnd(t: string, i: nat): (e: nat)
    requires i <= |t|
    ensures i <= e <= |t|
    ensures forall k :: i <= k < e ==> IsSpace(t[k])
    ensures e == |t| || !IsSpace(t[e])
    decreases |t| - i
  {
    if i < |t| && IsSpace(t[i]) then SpaceRunEnd(t, i + 1) else i
  }

  /** Where the leading house number of `t` and the whitespace after it end:
      digits, then digits or dashes, then at most one letter, then at least
      one whitespace character. None when `t` does not start that way. */
  function HouseNumberEnd(t: string): (r: Option<nat>)
    ensures r.Some? ==> 0 < r.value <= |t| && IsDigit(t[0]) && IsSpace(t[r.value - 1])
    ensures r.Some? ==> r.value == |t| || !IsSpace(t[r.value])
    ensures r.Some? ==> forall k :: 0 <= k < r.value ==> IsNumberChar(t[k]) || IsLetter(t[k]) || IsSpace(t[k])
    ensures |t| == 0 || !IsDigit(t[0]) ==> r.None?
  {
    if |t| == 0 || !IsDigit(t[0]) then None
    else
      var k := NumberRunEnd(t, 0);
      if k < |t| && IsSpace(t[k]) then Some(SpaceRunEnd(t, k))
      else if k + 1 < |t| && IsLetter(t[k]) && IsSpace(t[k + 1]) then Some(SpaceRunEnd(t, k + 1))
      else None
  }

  /** `t[..e]` is in the language of `^\d+[-\d]*[A-Za-z]?\s+`, read part
      by part: digits up to `i`, digits or dashes up to `j`, at most one
      letter up to `l`, and whitespace up to `e`. */
  ghost predicate Matches(t: string, e: nat)
  {
    exists i, j, l :: DigitsPart(t, i) && DashDigitsPart(t, i, j) && LetterPart(t, j, l) && SpacesPart(t, l, e)
  }

  /** `\d+`: `t[..i]` is one or more digits. */
  predicate DigitsPart(t: string, i: nat)
  {
    0 < i <= |t| && forall k :: 0 <= k < i ==> IsDigit(t[k])
  }

  /** `[-\d]*`: `t[i..j]` is digits and dashes. */
  predicate DashDigitsPart(t: string, i: nat, j: nat)
  {
    i <= j <= |t| && forall k :: i <= k < j ==> IsNumberChar(t[k])
  }

  /** `[A-Za-z]?`: `t[j..l]` is empty or one letter. */
  predicate LetterPart(t: string, j: nat, l: nat)
  {
    l == j || (l == j + 1 && j < |t| && IsLetter(t[j]))
  }

  /** `\s+`: `t[l..e]` is one or more whitespace characters. */
  predicate SpacesPart(t: string, l: nat, e: nat)
  {
    l < e <= |t| && forall k :: l <= k < e ==> IsSpace(t[k])
  }

  /** The match `re.sub` removes: the pattern matches `t[..e]` and the
      greedy `\s+` has taken the whole whitespace run. */
  ghost predicate TakenMatch(t: string, e: nat)
  {
    Matches(t, e) && (e == |t| || !IsSpace(t[e]))
  }

  /** A run of number characters from `i` that stops before `j` ends at `j`. */
  lemma {:induction false} NumberRunEndAt(t: string, i: nat, j: nat)
    requires i <= j <= |t| && DashDigitsPart(t, i, j) && (j == |t| || !IsNumberChar(t[j]))
    ensures NumberRunEnd(t, i) == j
    decreases j - i
  {
    if i < j {
      NumberRunEndAt(t, i + 1, j);
    }
  }

  /** The whitespace run from `l` reaches at least as far as `e`. */
  lemma {:induction false} SpaceRunCovers(t: string, l: nat, e: nat)
    requires l <= e <= |t| && forall k :: l <= k < e ==> IsSpace(t[k])
    ensures e <= SpaceRunEnd(t, l)
    decreases e - l
  {
    if l < e {
      SpaceRunCovers(t, l + 1, e);
    }
  }

  /** Every match of the pattern ends no later than `HouseNumberEnd`: the
      number part must take the whole run of digits and dashes, because the
      character after it has to be a letter or whitespace. */
  lemma MatchWithin(t: string, e: nat)
    requires Matches(t, e)
    ensures HouseNumberEnd(t).Some? && e <= HouseNumberEnd(t).value
  {
    var i, j, l :| DigitsPart(t, i) && DashDigitsPart(t, i, j) && LetterPart(t, j, l) && SpacesPart(t, l, e);
    assert DashDigitsPart(t, 0, j);
    NumberRunEndAt(t, 0, j);
    SpaceRunCovers(t, l, e);
  }

  /** `HouseNumberEnd` is where the pattern's match ends. */
  lemma EndMatches(t: string)
    requires HouseNumberEnd(t).Some?
    ensures TakenMatch(t, HouseNumberEnd(t).value)
  {
    var j := NumberRunEnd(t, 0);
    var e := HouseNumberEnd(t).value;
    var l := if IsSpace(t[j]) then j else j + 1;
    assert DigitsPart(t, 1) && DashDigitsPart(t, 1, j) && LetterPart(t, j, l) && SpacesPart(t, l, e);
  }

  /** `HouseNumberEnd` finds a match exactly when the pattern matches a
      prefix, and then the one `re.sub` takes: the longest, which is the
      only match followed by no whitespace. */
  lemma HouseNumberEndIsMatch(t: string)
    ensures HouseNumberEnd(t).Some? <==> exists e: nat :: Matches(t, e)
    ensures forall e: nat :: Matches(t, e) ==> HouseNumberEnd(t).Some? && e <= HouseNumberEnd(t).value
    ensures forall e: nat :: TakenMatch(t, e) <==> HouseNumberEnd(t) == Some(e)
  {
    if HouseNumberEnd(t).Some? {
      EndMatches(t);
    }
    forall e: nat | Matches(t, e)
      ensures HouseNumberEnd(t).Some? && e <= HouseNumberEnd(t).value
    {
      MatchWithin(t, e);
    }
    forall e: nat | TakenMatch(t, e)
      ensures HouseNumberEnd(t) == Some(e)
    {
      MatchWithin(t, e);
      var i, j, l :| DigitsPart(t, i) && DashDigitsPart(t, i, j) && LetterPart(t, j, l) && SpacesPart(t, l, e);
      SpaceRunEndAt(t, l, e);
    }
  }

  /** A whitespace run from `l` that stops before `e` ends at `e`. */
  lemma {:induction false} SpaceRunEndAt(t: string, l: nat, e: nat)
    requires l <= e <= |t| && (forall k :: l <= k < e ==> IsSpace(t[k])) && (e == |t| || !IsSpace(t[e]))
    ensures SpaceRunEnd(t, l) == e
    decreases e - l
  {
    if l < e {
      SpaceRunEndAt(t, l + 1, e);
    }
  }

  /** `strip_house_number`. */
  function StripHouseNumber(address: string): (r: string)
    ensures address == "" ==> r == ""
    ensures |r| <= |address|
  {
    if address == "" then ""
    else
      var t := Strip(address);
      var e := HouseNumberEnd(t);
      if e.Some? then t[e.value..] else t
  }

  /** The stripped address loses the prefix the house-number pattern
      matches, when it matches one, and nothing else; what is left starts
      with no whitespace. */
  lemma StripHouseNumberRemovesToken(address: string)
    requires address != ""
    ensures forall e: nat :: TakenMatch(Strip(address), e) ==> StripHouseNumber(address) == Strip(address)[e..]
    ensures (forall e: nat :: !Matches(Strip(address), e)) ==> StripHouseNumber(address) == Strip(address)
    ensures StripHouseNumber(address) == [] || !IsSpace(StripHouseNumber(address)[0])
  {
    var t := Strip(address);
    HouseNumberEndIsMatch(t);
  }

  /** An address that does not start with a digit only loses its
      surrounding whitespace. */
  lemma StreetNameKept(address: string)
    requires |Strip(address)| > 0 && !IsDigit(Strip(address)[0])
    ensures StripHouseNumber(address) == Strip(address)
  {
  }

  /** A house number, an optional letter and one space in front of a
      street name are removed, and the street name is kept. */
  lemma NumberedStreetKept(number: string, letter: string, street: string)
    requires |number| > 0 && forall k :: 0 <= k < |number| ==> IsDigit(number[k])
    requires |letter| <= 1 && forall k :: 0 <= k < |letter| ==> IsLetter(letter[k])
    requires |street| > 0 && !IsSpace(street[0]) && !IsSpace(street[|street| - 1])
    ensures StripHouseNumber(number + letter + " " + street) == street
  {
    var t := number + letter + " " + street;
    var l := |number| + |letter|;
    StripStripped(t);
    assert DigitsPart(t, |number|) && DashDigitsPart(t, |number|, |number|);
    assert LetterPart(t, |number|, l) && SpacesPart(t, l, l + 1);
    assert TakenMatch(t, l + 1);
    StripHouseNumberRemovesToken(t);
    assert t[l + 1..] == street;
  }

  /** The first example of the docstring: a plain number. */
  lemma StripHouseNumberPlain()
    ensures StripHouseNumber("123 Main Street") == "Main Street"
  {
    var t := "123 Main Street";
    assert t[0] == '1' && t[3] == ' ' && t[4] == 'M';
    assert HouseNumberEnd(t) == Some(4);
    StripStripped(t);
    assert t[4..] == "Main Street";
  }

  /** The second example: a number with a letter suffix. */
  lemma StripHouseNumberSuffix()
    ensures StripHouseNumber("45A Ocean Ave") == "Ocean Ave"
  {
    var t := "45A Ocean Ave";
    assert t[0] == '4' && t[2] == 'A' && t[3] == ' ' && t[4] == 'O';
    assert HouseNumberEnd(t) == Some(4);
    StripStripped(t);
    assert t[4..] == "Ocean Ave";
  }

  /** The third example: no number, nothing removed. */
  lemma StripHouseNumberNone()
    ensures StripHouseNumber("Main Street") == "Main Street"
  {
    var t := "Main Street";
    assert t[0] == 'M';
    assert HouseNumberEnd(t) == None;
    StripStripped(t);
  }

  // ---------------------------------------------------------------------
  // Municipalities
  // ---------------------------------------------------------------------

  /** `str.title()`: a letter is upper-cased when it starts a word (follows
      a non-letter or starts the string) and lower-cased otherwise. */
  function Title(s: string): (r: string)
    ensures |r| == |s|
    ensures forall i :: 0 <= i < |s| ==> IsSpace(r[i]) == IsSpace(s[i])
  {
    seq(|s|, i requires 0 <= i < |s| =>
      if IsLetter(s[i]) then (if i > 0 && IsLetter(s[i - 1]) then LowerChar(s[i]) else UpperChar(s[i]))
      else s[i])
  }

  /** Title case does not depend on the case the text came in. */
  lemma TitleOfUpper(s: string)
    ensures Title(Upper(s)) == Title(s)
  {
  }

  /** Title-casing twice is title-casing once. */
  lemma TitleIdempotent(s: string)
    ensures Title(Title(s)) == Title(s)
  {
  }

  /** Known spellings of the municipalities and the names they stand for. */
  const MunicipalityNames: map<string, string> := map[
    "East Hampton" := "East Hampton",
    "Easthampton" := "East Hampton",
    "Sag Harbor" := "Sag Harbor",
    "Sagaponack" := "Sagaponack",
    "Wainscott" := "Wainscott",
    "Bridgehampton" := "Bridgehampton",
    "Amagansett" := "Amagansett",
    "Springs" := "Springs",
    "Montauk" := "Montauk",
    "Noyac" := "Noyac",
    "North Haven" := "North Haven",
    "Shelter Island" := "Shelter Island",
    "Southampton" := "Southampton",
    "Water Mill" := "Water Mill",
    "Watermill" := "Water Mill"
  ]

  /** `normalize_municipality`: the stripped, title-cased name, replaced by
      its standard spelling when it is a known variant. */
  function NormalizeMunicipality(municipality: string): (r: string)
    ensures municipality == "" ==> r == ""
    ensures var t := Title(Strip(municipality));
      municipality != "" ==> (if t in MunicipalityNames then r == MunicipalityNames[t] else r == t)
  {
    if municipality == "" then ""
    else
      var normalized := Title(Strip(municipality));
      if normalized in MunicipalityNames then MunicipalityNames[normalized] else normalized
  }

  /** Names differing only in case and surrounding whitespace normalise
      alike. */
  lemma NormalizeIgnoresCase(municipality: string)
    ensures NormalizeMunicipality(Upper(municipality)) == NormalizeMunicipality(municipality)
  {
    StripUpper(municipality);
    TitleOfUpper(Strip(municipality));
  }

  // ---------------------------------------------------------------------
  // Matching a complaint to a flight
  // ---------------------------------------------------------------------

  /** The complaint fields the matcher reads. */
  datatype Complaint = Complaint(eventDatetimeUtc: Option<string>, aircraftType: Option<string>,
                                 flightDirection: Option<string>)

  /** A flight near the complaint's time. */
  datatype Candidate = Candidate(faFlightId: Option<string>, aircraftCategory: Option<string>,
                                 direction: Option<string>, registration: Option<string>,
                                 operator: Option<string>)

  /** The matcher's answer: flight id, confidence, registration, operator. */
  datatype Match = Match(flightId: Option<string>, confidence: string,
                         registration: Option<string>, operator: Option<string>)

  const Unmatched := Match(None, "unmatched", None, None)

  /** `(x or "").lower()` */
  function LowerOrEmpty(x: Option<string>): string
  {
    if x.Some? then Lower(x.value) else ""
  }

  /** The score of one candidate: 1 for being in the time window, 3 for a
      helicopter or jet whose kind matches the complaint's, 2 for a "prop"
      complaint about a fixed-wing flight, 1 for the same direction, and 2
      when it is the only candidate. */
  function Score(c: Complaint, f: Candidate, count: nat): (s: int)
    ensures 1 <= s <= 7
    ensures count == 1 ==> s >= 3
  {
    var aircraft := LowerOrEmpty(c.aircraftType);
    var category := LowerOrEmpty(f.aircraftCategory);
    var typeBonus :=
      if aircraft == "helicopter" && category == "helicopter" then 3
      else if aircraft == "jet" && category == "jet" then 3
      else if aircraft == "prop" && category == "fixed_wing" then 2
      else 0;
    var directionBonus := if LowerOrEmpty(c.flightDirection) == LowerOrEmpty(f.direction) then 1 else 0;
    var soloBonus := if count == 1 then 2 else 0;
    1 + typeBonus + directionBonus + soloBonus
  }

  /** The scores of all candidates, in order. */
  function Scores(c: Complaint, candidates: seq<Candidate>): (s: seq<int>)
    ensures |s| == |candidates|
  {
    seq(|candidates|, i requires 0 <= i < |candidates| => Score(c, candidates[i], |candidates|))
  }

  /** The position of the first highest score. */
  function BestIndex(scores: seq<int>): (b: nat)
    requires |scores| > 0
    ensures b < |scores|
    ensures forall j :: 0 <= j < |scores| ==> scores[j] <= scores[b]
    ensures forall j :: 0 <= j < b ==> scores[j] < scores[b]
  {
    if |scores| == 1 then 0
    else
      var b := BestIndex(scores[..|scores| - 1]);
      if scores[|scores| - 1] > scores[b] then |scores| - 1 else b
  }

  /** The first highest score after one more score: the new one only when
      it beats the best so far. */
  lemma BestIndexStep(scores: seq<int>, i: nat)
    requires i < |scores|
    ensures i == 0 ==> BestIndex(scores[..1]) == 0
    ensures i > 0 ==>
      BestIndex(scores[..i + 1]) == if scores[i] > scores[BestIndex(scores[..i])] then i else BestIndex(scores[..i])
  {
    assert scores[..i + 1][..i] == scores[..i];
  }

  /** The confidence a winning score earns. */
  function Confidence(score: int): (confidence: string)
    ensures score >= 5 ==> confidence == "high"
    ensures 3 <= score < 5 ==> confidence == "medium"
    ensures 1 <= score < 3 ==> confidence == "low"
    ensures score < 1 ==> confidence == "unmatched"
  {
    if score >= 5 then "high"
    else if score >= 3 then "medium"
    else if score >= 1 then "low"
    else "unmatched"
  }

  /** A winner always earns some confidence, and a lone candidate at least
      "medium". */
  lemma WinnerIsMatched(c: Complaint, candidates: seq<Candidate>)
    requires |candidates| > 0
    ensures Confidence(Scores(c, candidates)[BestIndex(Scores(c, candidates))]) != "unmatched"
    ensures |candidates| == 1 ==> Confidence(Scores(c, candidates)[0]) in {"high", "medium"}
  {
    var s := Scores(c, candidates);
    assert s[BestIndex(s)] >= 1;
  }

  /** Python truthiness of an optional string. */
  predicate Given(x: Option<string>)
  {
    x.Some? && x.value != ""
  }

  /** `match_complaint_to_flight`, with the flights within 15 minutes of
      the complaint passed in: no time or no candidates leaves the complaint
      unmatched; otherwise the first candidate with the highest score wins,
      with the confidence its score earns. */
  method MatchComplaintToFlight(c: Complaint, candidates: seq<Candidate>) returns (m: Match)
    ensures !Given(c.eventDatetimeUtc) || |candidates| == 0 ==> m == Unmatched
    ensures Given(c.eventDatetimeUtc) && |candidates| > 0 ==>
      var scores := Scores(c, candidates);
      var best := candidates[BestIndex(scores)];
      m == Match(best.faFlightId, Confidence(scores[BestIndex(scores)]), best.registration, best.operator)
  {
    if !Given(c.eventDatetimeUtc) {
      return Unmatched;
    }
    if |candidates| == 0 {
      return Unmatched;
    }
    ghost var scores := Scores(c, candidates);
    var bestMatch: Option<Candidate> := None;
    var bestScore := 0;
    ghost var bestIndex := 0;
    for i := 0 to |candidates|
      invariant i == 0 ==> bestMatch.None? && bestScore == 0
      invariant i > 0 ==> bestIndex == BestIndex(scores[..i]) && bestMatch == Some(candidates[bestIndex])
                          && bestScore == scores[bestIndex]
    {
      var score := Score(c, candidates[i], |candidates|);
      assert score == scores[i];
      BestIndexStep(scores, i);
      if score > bestScore {
        bestScore := score;
        bestMatch := Some(candidates[i]);
        bestIndex := i;
      }
    }
    assert scores[..|candidates|] == scores;
    if bestMatch.None? {
      return Unmatched;
    }
    var best := bestMatch.value;
    m := Match(best.faFlightId, Confidence(bestScore), best.registration, best.operator);
  }
}
