/** The offline parts of src/api/weather.py: the time-stamped cache with a
    last-valid fallback, the reduction of air-quality readings, and the
    unit conversions. The clock is a parameter; so is the exponential the
    humidity formula uses. */
module Weather {
  import opened Values
  import opened Rounding

  // ---------------------------------------------------------------------
  // SimpleCache
  // ---------------------------------------------------------------------

  /** A value and the time it was stored. */
  datatype Stamped<V> = Stamped(value: V, stamp: real)

  /** `SimpleCache`: time-stamped entries plus the last value set under
      each key, kept for error recovery. */
  class SimpleCache<V> {
    var cache: map<string, Stamped<V>>
    var lastValid: map<string, V>

    /** Nothing is ever deleted, so the fallback of each key is the value
        its entry holds. */
    ghost predicate Valid()
      reads this
    {
      cache.Keys == lastValid.Keys && forall k :: k in cache ==> lastValid[k] == cache[k].value
    }

    constructor ()
      ensures Valid()
      ensures cache == map[] && lastValid == map[]
    {
      cache := map[];
      lastValid := map[];
    }

    /** `get` at time `now` with the ttl of the call: the stored value
        while it is younger than the ttl, else nothing. */
    function Get(key: string, ttl: int, now: real): (r: Option<V>)
      reads this
      ensures r.Some? <==> key in cache && now - cache[key].stamp < ttl as real
      ensures r.Some? ==> r.value == cache[key].value
    {
      if key in cache && now - cache[key].stamp < ttl as real then Some(cache[key].value) else None
    }

    /** `set` at time `now`: stamps the value and records it as the last
        valid one. */
    method Set(key: string, value: V, now: real)
      requires Valid()
      modifies this
      ensures Valid()
      ensures cache == old(cache)[key := Stamped(value, now)]
      ensures lastValid == old(lastValid)[key := value]
      ensures forall ttl: int :: ttl > 0 ==> Get(key, ttl, now) == Some(value)
      ensures GetFallback(key) == Some(value)
    {
      cache := cache[key := Stamped(value, now)];
      lastValid := lastValid[key := value];
    }

    /** `get_fallback`: the last value set under the key, however old. */
    function GetFallback(key: string): (r: Option<V>)
      reads this
      ensures r.Some? <==> key in lastValid
      ensures r.Some? ==> r.value == lastValid[key]
    {
      if key in lastValid then Some(lastValid[key]) else None
    }

    /** A fresh hit and the fallback agree, and an expired entry still has
        its value as the fallback. */
    lemma FallbackBacksEveryEntry(key: string, ttl: int, now: real)
      requires Valid()
      ensures Get(key, ttl, now).Some? ==> GetFallback(key) == Get(key, ttl, now)
      ensures key in cache ==> GetFallback(key) == Some(cache[key].value)
    {
      if key in cache {
        assert key in lastValid;
      }
    }
  }

  // ---------------------------------------------------------------------
  // Air quality
  // ---------------------------------------------------------------------

  /** One AirNow reading; a field the response lacks is None. */
  datatype Reading = Reading(aqi: Option<int>, categoryName: Option<string>, categoryNumber: Option<int>,
                             parameter: Option<string>, reportingArea: Option<string>, stateCode: Option<string>,
                             dateObserved: Option<string>, hourObserved: Option<int>)

  datatype PollutantInfo = PollutantInfo(aqi: int, category: string, categoryNumber: int)

  datatype AirQuality = AirQuality(overallAqi: int, category: string, categoryNumber: int,
                                   mainPollutant: string, reportingArea: string, state: string,
                                   dateObserved: string, hourObserved: int,
                                   pollutants: map<string, PollutantInfo>)

  function OrElse<T>(o: Option<T>, d: T): T
  {
    if o.Some? then o.value else d
  }

  /** The AQI of a reading, a missing one counting as 0. */
  function AqiOf(r: Reading): int
  {
    OrElse(r.aqi, 0)
  }

  function ParamOf(r: Reading): string
  {
    OrElse(r.parameter, "Unknown")
  }

  function InfoOf(r: Reading): PollutantInfo
  {
    PollutantInfo(AqiOf(r), OrElse(r.categoryName, "Unknown"), OrElse(r.categoryNumber, 0))
  }

  /** `max(raw_data, key=AQI)`: the first reading of maximal AQI. */
  function PrimaryIndex(readings: seq<Reading>): (i: nat)
    requires |readings| > 0
    ensures i < |readings|
    ensures forall j :: 0 <= j < |readings| ==> AqiOf(readings[j]) <= AqiOf(readings[i])
    ensures forall j :: 0 <= j < i ==> AqiOf(readings[j]) < AqiOf(readings[i])
  {
    if |readings| == 1 then 0
    else
      var p := PrimaryIndex(readings[..|readings| - 1]);
      if AqiOf(readings[|readings| - 1]) > AqiOf(readings[p]) then |readings| - 1 else p
  }

  /** The parameter names of the readings. */
  function Params(readings: seq<Reading>): set<string>
  {
    set i | 0 <= i < |readings| :: ParamOf(readings[i])
  }

  /** The pollutant table: one entry per parameter name, the last reading
      of each name winning. */
  function LastByParam(readings: seq<Reading>): (m: map<string, PollutantInfo>)
    ensures m.Keys == Params(readings)
  {
    if |readings| == 0 then map[]
    else
      var init := readings[..|readings| - 1];
      var last := readings[|readings| - 1];
      assert Params(readings) == Params(init) + {ParamOf(last)} by {
        assert forall i :: 0 <= i < |init| ==> init[i] == readings[i];
      }
      LastByParam(init)[ParamOf(last) := InfoOf(last)]
  }

  /** Each entry of the table is the one of the last reading bearing its
      name. */
  lemma {:induction false} LastReadingWins(readings: seq<Reading>, i: nat)
    requires i < |readings|
    requires forall j :: i < j < |readings| ==> ParamOf(readings[j]) != ParamOf(readings[i])
    ensures LastByParam(readings)[ParamOf(readings[i])] == InfoOf(readings[i])
  {
    if i < |readings| - 1 {
      var init := readings[..|readings| - 1];
      assert init[i] == readings[i];
      LastReadingWins(init, i);
    }
  }

  /** Each entry of the table comes from a reading of its name. */
  lemma {:induction false} EntriesFromReadings(readings: seq<Reading>, name: string)
    requires name in LastByParam(readings)
    ensures exists i :: 0 <= i < |readings| && ParamOf(readings[i]) == name && LastByParam(readings)[name] == InfoOf(readings[i])
  {
    var init := readings[..|readings| - 1];
    var last := readings[|readings| - 1];
    if ParamOf(last) != name {
      EntriesFromReadings(init, name);
      var i :| 0 <= i < |init| && ParamOf(init[i]) == name && LastByParam(init)[name] == InfoOf(init[i]);
      assert readings[i] == init[i];
    }
  }

  /** The result built from the primary reading and the pollutant table. */
  function Summary(primary: Reading, pollutants: map<string, PollutantInfo>): AirQuality
  {
    AirQuality(AqiOf(primary), OrElse(primary.categoryName, "Unknown"), OrElse(primary.categoryNumber, 0),
               ParamOf(primary), OrElse(primary.reportingArea, "Unknown"), OrElse(primary.stateCode, ""),
               OrElse(primary.dateObserved, ""), OrElse(primary.hourObserved, 0), pollutants)
  }

  /** The loop filling `pollutants`. */
  method CollectPollutants(readings: seq<Reading>) returns (pollutants: map<string, PollutantInfo>)
    ensures pollutants == LastByParam(readings)
  {
    pollutants := map[];
    for i := 0 to |readings|
      invariant pollutants == LastByParam(readings[..i])
    {
      assert readings[..i + 1][..i] == readings[..i];
      pollutants := pollutants[ParamOf(readings[i]) := InfoOf(readings[i])];
    }
    assert readings[..|readings|] == readings;
  }

  /** `parse_air_quality`: nothing for no readings; otherwise the fields
      of the first reading of maximal AQI and the pollutant table. */
  method ParseAirQuality(readings: seq<Reading>) returns (r: Option<AirQuality>)
    ensures r.None? <==> |readings| == 0
    ensures r.Some? ==> r.value == Summary(readings[PrimaryIndex(readings)], LastByParam(readings))
    ensures r.Some? ==> forall j :: 0 <= j < |readings| ==> AqiOf(readings[j]) <= r.value.overallAqi
  {
    if |readings| == 0 {
      return None;
    }
    var primary := readings[PrimaryIndex(readings)];
    var pollutants := CollectPollutants(readings);
    r := Some(Summary(primary, pollutants));
  }

  /** The main pollutant has an entry in the table, whose AQI is at most
      the overall AQI: a later reading of the same pollutant may have
      replaced the maximal one. */
  lemma MainPollutantListed(readings: seq<Reading>)
    requires |readings| > 0
    ensures var p := PrimaryIndex(readings);
      && ParamOf(readings[p]) in LastByParam(readings)
      && LastByParam(readings)[ParamOf(readings[p])].aqi <= AqiOf(readings[p])
  {
    var p := PrimaryIndex(readings);
    var name := ParamOf(readings[p]);
    assert name in Params(readings);
    EntriesFromReadings(readings, name);
  }

  // ---------------------------------------------------------------------
  // Conversions
  // ---------------------------------------------------------------------

  /** `_c_to_f`: None stays None; otherwise Fahrenheit to a tenth. */
  function CToF(celsius: Option<real>): (f: Option<real>)
    ensures f.None? <==> celsius.None?
    ensures f.Some? ==> IsTenth(f.value)
    ensures f.Some? ==> celsius.value * 9.0 / 5.0 + 32.0 - 0.05 <= f.value <= celsius.value * 9.0 / 5.0 + 32.0 + 0.05
  {
    if celsius.None? then None else Some(RoundTenth(celsius.value * 9.0 / 5.0 + 32.0))
  }

  /** `_kt_to_mph`: None stays None; otherwise miles per hour to a tenth. */
  function KtToMph(knots: Option<real>): (m: Option<real>)
    ensures m.None? <==> knots.None?
    ensures m.Some? ==> IsTenth(m.value)
    ensures m.Some? ==> knots.value * 1.15078 - 0.05 <= m.value <= knots.value * 1.15078 + 0.05
  {
    if knots.None? then None else Some(RoundTenth(knots.value * 1.15078))
  }

  /** Freezing and boiling points land exactly. */
  lemma CToFFixedPoints()
    ensures CToF(Some(0.0)) == Some(32.0)
    ensures CToF(Some(100.0)) == Some(212.0)
    ensures KtToMph(Some(0.0)) == Some(0.0)
  {
    RoundHalfEvenOfInt(320);
    RoundHalfEvenOfInt(2120);
    RoundHalfEvenOfInt(0);
  }

  /** Both conversions keep order. */
  lemma ConversionsMonotone(x: real, y: real)
    requires x <= y
    ensures CToF(Some(x)).value <= CToF(Some(y)).value
    ensures KtToMph(Some(x)).value <= KtToMph(Some(y)).value
  {
    RoundTenthMonotone(x * 9.0 / 5.0 + 32.0, y * 9.0 / 5.0 + 32.0);
    RoundTenthMonotone(x * 1.15078, y * 1.15078);
  }

  /** The Magnus constants. */
  const MagnusA: real := 17.27
  const MagnusB: real := 237.7

  /** The Magnus term of a temperature; undefined (a division by zero)
      at -MagnusB. */
  function Gamma(t: real): (g: real)
    requires MagnusB + t != 0.0
    ensures MagnusB + t > 0.0 ==> (g > 0.0 <==> t > 0.0) && (g == 0.0 <==> t == 0.0) && g < MagnusA
  {
    var g := (MagnusA * t) / (MagnusB + t);
    if MagnusB + t > 0.0 then QuotientScale(MagnusA * t, MagnusB + t, g); g else g
  }

  /** Dividing by a positive number keeps the sign, and the Magnus term
      stays below `MagnusA` because `MagnusB` is positive. */
  lemma QuotientScale(x: real, d: real, q: real)
    requires d > 0.0 && q == x / d
    ensures q * d == x
    ensures q > 0.0 <==> x > 0.0
    ensures q == 0.0 <==> x == 0.0
    ensures x < MagnusA * d ==> q < MagnusA
  {
    assert q * d == x;
    if q <= 0.0 { assert q * d <= 0.0; }
    if q >= MagnusA { assert q * d >= MagnusA * d; }
  }

  /** `min(100, max(0, n))` */
  function Clamp(n: int): (c: int)
    ensures 0 <= c <= 100
    ensures 0 <= n <= 100 ==> c == n
  {
    if n < 0 then 0 else if n > 100 then 100 else n
  }

  /** `_calc_humidity` with the exponential as a parameter: None when a
      reading is missing or a denominator is zero, otherwise the rounded
      Magnus estimate clamped into [0, 100]. */
  function CalcHumidity(exp: real -> real, temp: Option<real>, dewp: Option<real>): (r: Option<int>)
    ensures temp.None? || dewp.None? ==> r.None?
    ensures temp.Some? && dewp.Some? ==> (r.None? <==> MagnusB + temp.value == 0.0 || MagnusB + dewp.value == 0.0)
    ensures r.Some? ==> 0 <= r.value <= 100
  {
    if temp.None? || dewp.None? then None
    else if MagnusB + temp.value == 0.0 || MagnusB + dewp.value == 0.0 then None
    else Some(Clamp(RoundHalfEven(100.0 * exp(Gamma(dewp.value) - Gamma(temp.value)))))
  }

  /** Air at its dewpoint is saturated. */
  lemma SaturatedAir(exp: real -> real, t: real)
    requires exp(0.0) == 1.0
    requires MagnusB + t != 0.0
    ensures CalcHumidity(exp, Some(t), Some(t)) == Some(100)
  {
    RoundHalfEvenOfInt(100);
  }

  /** The Magnus term rises with the temperature above -MagnusB. */
  lemma GammaMonotone(d1: real, d2: real)
    requires -MagnusB < d1 <= d2
    ensures Gamma(d1) <= Gamma(d2)
  {
    var b1, b2 := MagnusB + d1, MagnusB + d2;
    assert 0.0 < b1 <= b2;
    assert d1 * b2 <= d2 * b1 by {
      assert d1 * b2 == d1 * MagnusB + d1 * d2;
      assert d2 * b1 == d2 * MagnusB + d1 * d2;
    }
    assert Gamma(d1) == MagnusA * d1 / b1;
    assert MagnusA * d1 / b1 <= MagnusA * d2 / b2 by {
      assert MagnusA * d1 * b2 <= MagnusA * d2 * b1;
      DivCross(MagnusA * d1, b1, MagnusA * d2, b2);
    }
  }

  lemma DivCross(x: real, a: real, y: real, b: real)
    requires a > 0.0 && b > 0.0
    requires x * b <= y * a
    ensures x / a <= y / b
  {
    var q, r := x / a, y / b;
    assert x == q * a && y == r * b;
    assert q * (a * b) <= r * (a * b) by {
      assert q * a * b == x * b;
      assert r * b * a == y * a;
    }
  }

  /** With an increasing exponential, a higher dewpoint never lowers the
      humidity. */
  lemma HumidityRisesWithDewpoint(exp: real -> real, t: real, d1: real, d2: real)
    requires forall x: real, y: real :: x <= y ==> exp(x) <= exp(y)
    requires MagnusB + t != 0.0
    requires -MagnusB < d1 <= d2
    ensures CalcHumidity(exp, Some(t), Some(d1)).value <= CalcHumidity(exp, Some(t), Some(d2)).value
  {
    GammaMonotone(d1, d2);
    var e1, e2 := exp(Gamma(d1) - Gamma(t)), exp(Gamma(d2) - Gamma(t));
    assert e1 <= e2;
    RoundHalfEvenMonotone(100.0 * e1, 100.0 * e2);
  }
}
