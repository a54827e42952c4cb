/** Aircraft classification by ICAO type designator, the curfew-hour rule,
    the weekend test and the operation-time fallback
    (src/analysis/classify.py). */
module Classify {
  import opened Values
  import opened Text
  import opened Calendar
  import opened TypeCodes

  /** The four dashboard categories. */
  datatype Category = Helicopter | Jet | FixedWing | Unknown

  /** The category as it is stored in the `aircraft_category` column. */
  function CategoryName(c: Category): (name: string)
    ensures name in {"helicopter", "jet", "fixed_wing", "unknown"}
  {
    match c
    case Helicopter => "helicopter"
    case Jet => "jet"
    case FixedWing => "fixed_wing"
    case Unknown => "unknown"
  }

  /** Distinct categories are stored under distinct names. */
  lemma CategoryNameInjective(c: Category, d: Category)
    requires CategoryName(c) == CategoryName(d)
    ensures c == d
  {
  }

  /** The normalised lookup code: trimmed and upper-cased. */
  function TypeCode(icaoType: string): string
  {
    Upper(Strip(icaoType))
  }

  /** `classify_aircraft`; a missing type (None) is represented by "". */
  function ClassifyAircraft(icaoType: string): (c: Category)
    ensures icaoType == "" ==> c == Unknown
  {
    if icaoType == "" then Unknown else ClassifyCode(TypeCode(icaoType))
  }

  /** The set lookups on a normalised code. */
  function ClassifyCode(code: string): Category
  {
    if code in HelicopterTypes then Helicopter
    else if code in JetTypes then Jet
    else if code in FixedWingTypes then FixedWing
    else Unknown
  }

  /** Helicopter codes are tried first, then jet codes, then fixed-wing codes;
      a code in none of the three sets is "unknown". */
  lemma ClassifyPrecedence(icaoType: string)
    requires icaoType != ""
    ensures var code := TypeCode(icaoType);
      && (ClassifyAircraft(icaoType) == Helicopter <==> code in HelicopterTypes)
      && (ClassifyAircraft(icaoType) == Jet <==> code !in HelicopterTypes && code in JetTypes)
      && (ClassifyAircraft(icaoType) == FixedWing <==>
            code !in HelicopterTypes && code !in JetTypes && code in FixedWingTypes)
      && (ClassifyAircraft(icaoType) == Unknown <==>
            code !in HelicopterTypes && code !in JetTypes && code !in FixedWingTypes)
  {
  }

  /** The empty code, which a whitespace-only type normalises to, is in none of
      the sets, so it classifies like a missing type. */
  lemma EmptyCodeUnknown()
    ensures TypeCode("") == ""
    ensures "" !in HelicopterTypes && "" !in JetTypes && "" !in FixedWingTypes
  {
  }

  /** A code with no surrounding whitespace and no lower-case letter is its own
      normalised form. */
  lemma NormalisedCode(s: string)
    requires s == [] || (!IsSpace(s[0]) && !IsSpace(s[|s| - 1]))
    requires forall i :: 0 <= i < |s| ==> !IsLowerLetter(s[i])
    ensures TypeCode(s) == s
  {
    StripStripped(s);
  }

  /** The result depends on the normalised code alone: a non-empty type whose
      normalised code is empty classifies like the missing type. */
  lemma ClassifyByCode(s: string, t: string)
    requires TypeCode(s) == TypeCode(t)
    ensures ClassifyAircraft(s) == ClassifyAircraft(t)
  {
    EmptyCodeUnknown();
    assert ClassifyCode("") == Unknown;
  }

  /** Classification ignores letter case. */
  lemma ClassifyCaseInsensitive(s: string)
    ensures ClassifyAircraft(Lower(s)) == ClassifyAircraft(s)
    ensures ClassifyAircraft(Upper(s)) == ClassifyAircraft(s)
  {
    StripLower(s);
    UpperOfLower(Strip(s));
    assert TypeCode(Lower(s)) == TypeCode(s);
    StripLower(Upper(s));
    LowerOfUpper(s);
    UpperOfLower(Strip(Upper(s)));
    assert Upper(Strip(Upper(s))) == Upper(Lower(Strip(Upper(s)))) == Upper(Strip(Lower(Upper(s))));
    assert TypeCode(Upper(s)) == TypeCode(Lower(s));
    ClassifyByCode(Lower(s), s);
    ClassifyByCode(Upper(s), s);
  }

  /** Classification ignores surrounding whitespace. */
  lemma ClassifyIgnoresPadding(s: string)
    ensures ClassifyAircraft(" " + s) == ClassifyAircraft(s)
    ensures ClassifyAircraft(s + " ") == ClassifyAircraft(s)
  {
    PaddedStrip(s);
    ClassifyByCode(" " + s, s);
    ClassifyByCode(s + " ", s);
  }

  /** A space added at either end is stripped away again. */
  lemma PaddedStrip(s: string)
    ensures Strip(" " + s) == Strip(s)
    ensures Strip(s + " ") == Strip(s)
  {
    assert (" " + s)[1..] == s;
    TrimLeftAppendSpace(s);
  }

  /** Appending whitespace and then stripping both ends is the same as
      stripping both ends. */
  lemma {:induction false} TrimLeftAppendSpace(s: string)
    ensures TrimRight(TrimLeft(s + " ")) == TrimRight(TrimLeft(s))
  {
    if |s| > 0 && IsSpace(s[0]) {
      assert (s + " ")[1..] == s[1..] + " ";
      TrimLeftAppendSpace(s[1..]);
    } else if |s| > 0 {
      assert TrimLeft(s + " ") == s + " ";
      assert (s + " ")[..|s|] == s;
    }
  }

  /** `is_curfew_hour`: the voluntary curfew runs from 21:00 to 07:00 Eastern. */
  function IsCurfewHour(hour: int): (curfew: bool)
    ensures curfew <==> !(7 <= hour < 21)
  {
    hour >= 21 || hour < 7
  }

  /** Within a day, the curfew hours are exactly 21, 22, 23 and 0 to 6. */
  lemma CurfewHoursOfDay(hour: int)
    requires 0 <= hour < 24
    ensures IsCurfewHour(hour) <==> hour in {21, 22, 23, 0, 1, 2, 3, 4, 5, 6}
  {
  }

  /** `is_weekend`: the weekday index is 5 (Saturday) or 6 (Sunday). */
  function IsWeekend(day: Day): (weekend: bool)
    ensures weekend <==> WeekdayName(day) in {"Saturday", "Sunday"}
  {
    Weekday(day) >= 5
  }

  /** Weekends recur every seven days. */
  lemma WeekendPeriodic(day: Day)
    ensures IsWeekend(day + 7) == IsWeekend(day)
  {
    WeekdayPeriodic(day);
  }

  /** `get_operation_time`: for an arrival the runway arrival time, otherwise
      the runway departure time, falling back to the scheduled time and then
      to "". */
  function GetOperationTime(flight: Record, direction: string): (t: Value)
    ensures var actual := if direction == "arrival" then "actual_on" else "actual_off";
            var scheduled := if direction == "arrival" then "scheduled_on" else "scheduled_off";
            && (Truthy(Get(flight, actual)) ==> t == Get(flight, actual))
            && (!Truthy(Get(flight, actual)) && Truthy(Get(flight, scheduled)) ==> t == Get(flight, scheduled))
            && (!Truthy(Get(flight, actual)) && !Truthy(Get(flight, scheduled)) ==> t == Str(""))
  {
    if direction == "arrival" then
      Or(Or(Get(flight, "actual_on"), Get(flight, "scheduled_on")), Str(""))
    else
      Or(Or(Get(flight, "actual_off"), Get(flight, "scheduled_off")), Str(""))
  }
}
