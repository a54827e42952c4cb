/** The ground-noise estimation engine of src/analysis/noise_calculator.py:
    profile resolution, the lateral-attenuation table, the attenuation
    model at one track position, and the aggregation of a whole track over
    the observer locations.

    All quantities are exact reals. Sine, cosine, atan2, square root and
    log10 are not modelled: they reach the model as the functions held by a
    `Transcendentals` value, and a lemma that needs one of their laws takes
    it as a precondition. */
module NoiseCalculator {
  import opened Values
  import opened Text
  import opened Rounding
  import opened CategoryAverages

  // ─── Transcendental functions ──────────────────────────────────────────

  /** The numerical functions the engine calls.
      - `log10` is `math.log10`;
      - `sqrt` is `math.sqrt`;
      - `haversineFt(lat1, lon1, lat2, lon2)` is the great-circle distance of
        `calculate_horizontal_distance_ft`;
      - `bearingRadians(lat1, lon1, lat2, lon2)` is the `math.atan2(y, x)`
        of `calculate_bearing`, before conversion to degrees. */
  datatype Transcendentals = Transcendentals(
    log10: real -> real,
    sqrt: real -> real,
    haversineFt: (real, real, real, real) -> real,
    bearingRadians: (real, real, real, real) -> real)

  /** `math.sqrt` returns the non-negative square root. */
  ghost predicate SqrtLaw(tr: Transcendentals)
  {
    forall x :: x >= 0.0 ==> tr.sqrt(x) >= 0.0 && tr.sqrt(x) * tr.sqrt(x) == x
  }

  /** `math.log10` is non-decreasing on the positive reals. */
  ghost predicate Log10Monotone(tr: Transcendentals)
  {
    forall x, y :: 0.0 < x <= y ==> tr.log10(x) <= tr.log10(y)
  }

  /** A distance on the globe is never negative. */
  ghost predicate HaversineNonNegative(tr: Transcendentals)
  {
    forall lat1, lon1, lat2, lon2 :: tr.haversineFt(lat1, lon1, lat2, lon2) >= 0.0
  }

  /** The float value of `math.pi`. */
  const Pi: real := 3.141592653589793

  // ─── Data ──────────────────────────────────────────────────────────────

  /** `NoiseProfile`: certification data for one aircraft type. */
  datatype NoiseProfile = NoiseProfile(
    icaoType: string,
    manufacturer: Option<string>,
    model: Option<string>,
    category: string,
    takeoffDb: real,
    approachDb: real,
    lateralEpnl: Option<real>,
    flyoverEpnl: Option<real>,
    approachEpnl: Option<real>,
    dataSource: string,
    confidence: string)

  /** `TrackPosition`: one position report of a flight track. */
  datatype TrackPosition = TrackPosition(
    timestamp: string,
    latitude: real,
    longitude: real,
    altitudeFt: int,
    groundspeedKts: Option<int>,
    heading: Option<int>)

  /** `NoiseEstimate`: the level at one observer for one position, with
      the rounded terms it was computed from. */
  datatype NoiseEstimate = NoiseEstimate(
    db: real,
    source: string,
    confidence: string,
    warning: Option<string>,
    slantDistanceFt: Option<int>,
    horizontalDistanceFt: Option<int>,
    geometricAttenuation: Option<real>,
    atmosphericAttenuation: Option<real>,
    lateralAttenuation: Option<real>)

  /** An entry of the observer list. */
  datatype Observer = Observer(id: string, name: string, lat: real, lon: real)

  /** `OBSERVER_LOCATIONS`: the default observers, the primary one first. */
  const ObserverLocations: seq<Observer> := [
    Observer("wainscott-main", "Wainscott Main Street", 40.9445, -72.2337),
    Observer("sagaponack-south", "Sagaponack South", 40.9234, -72.2567),
    Observer("runway-approach", "Runway 28 Approach", 40.9589, -72.2312),
    Observer("runway-departure", "Runway 10 Departure", 40.9591, -72.2720),
    Observer("northwest-residential", "Northwest Residential", 40.9678, -72.2612),
    Observer("georgica-pond", "Georgica Pond Area", 40.9412, -72.2234),
    Observer("daniels-hole-road", "Daniels Hole Road", 40.9512, -72.2445),
    Observer("beach-lane", "Beach Lane", 40.9312, -72.2389)
  ]

  // ─── Profile resolution ────────────────────────────────────────────────

  /** The lookup key of a type code: `(icao_type or "").upper()`; a missing
      type is passed as "". */
  function ProfileKey(icaoType: string): string
  {
    Upper(icaoType)
  }

  /** `get_noise_profile`: the stored profile of the upper-cased code, or a
      category-average estimate. `profiles` is the table `_load_easa_data`
      reads from disk. */
  function GetNoiseProfile(profiles: map<string, NoiseProfile>, icaoType: string, category: string): (p: NoiseProfile)
    ensures ProfileKey(icaoType) in profiles ==> p == profiles[ProfileKey(icaoType)]
    ensures ProfileKey(icaoType) !in profiles ==>
      && p.icaoType == (if icaoType == "" then "UNKN" else ProfileKey(icaoType))
      && p.category == category
      && p.manufacturer.None? && p.model.None?
      && p.takeoffDb == DefaultLevel(category) as real
      && p.approachDb == p.takeoffDb - 4.0
      && p.dataSource == "CATEGORY_ESTIMATE" && p.confidence == "low"
  {
    var key := ProfileKey(icaoType);
    if key in profiles then profiles[key]
    else
      var level := DefaultLevel(category) as real;
      NoiseProfile(if key == "" then "UNKN" else key, None, None, category,
                   level, level - 4.0, None, None, None, "CATEGORY_ESTIMATE", "low")
  }

  /** The lookup ignores the letter case of the type code. */
  lemma ProfileLookupCaseInsensitive(profiles: map<string, NoiseProfile>, icaoType: string, category: string)
    ensures GetNoiseProfile(profiles, Lower(icaoType), category) == GetNoiseProfile(profiles, icaoType, category)
  {
    UpperOfLower(icaoType);
    assert Lower(icaoType) == "" <==> icaoType == "";
  }

  /** Without certification data every category gets an estimate 4 dB
      quieter on approach than on takeoff, between 72 and 88 dB. */
  lemma FallbackLevels(icaoType: string, category: string)
    ensures var p := GetNoiseProfile(map[], icaoType, category);
      && 72.0 <= p.approachDb < p.takeoffDb <= 88.0
      && p.confidence == "low"
  {
  }

  // ─── Geometry ──────────────────────────────────────────────────────────

  /** Python's float `x % m` for `m > 0`: the remainder takes the sign of
      the divisor. */
  function FloorMod(x: real, m: real): (r: real)
    requires m > 0.0
    ensures 0.0 <= r < m
  {
    var v := x / m;
    var q := v.Floor;
    MulBounds(q as real, v, q as real + 1.0, m);
    assert q as real * m <= x by {
      calc {
        q as real * m;
        <= v * m;
        == x;
      }
    }
    assert x < (q as real + 1.0) * m by {
      calc {
        x;
        == v * m;
        < (q as real + 1.0) * m;
      }
    }
    x - q as real * m
  }

  lemma MulBounds(lo: real, v: real, hi: real, m: real)
    requires m > 0.0 && lo <= v < hi
    ensures lo * m <= v * m < hi * m
  {
  }

  /** `calculate_bearing`: the bearing from the first point to the second in
      degrees, in [0, 360) whatever `atan2` returns. */
  function Bearing(tr: Transcendentals, lat1: real, lon1: real, lat2: real, lon2: real): (deg: real)
    ensures 0.0 <= deg < 360.0
  {
    FloorMod(tr.bearingRadians(lat1, lon1, lat2, lon2) * (180.0 / Pi) + 360.0, 360.0)
  }

  function Abs(x: real): (r: real)
    ensures r >= 0.0 && (r == x || r == -x)
  {
    if x < 0.0 then -x else x
  }

  /** The folding in `calculate_lateral_angle`: the angle between the bearing
      to the observer and the heading, folded about 180 and capped at 90. */
  function FoldAngle(bearing: real, heading: real): (angle: real)
    ensures angle <= 90.0
    ensures 0.0 <= bearing < 360.0 && 0.0 <= heading <= 360.0 ==> 0.0 <= angle
    ensures Abs(bearing - heading) <= 90.0 ==> angle == Abs(bearing - heading)
  {
    var diff := Abs(bearing - heading);
    var folded := if diff > 180.0 then 360.0 - diff else diff;
    if folded < 90.0 then folded else 90.0
  }

  /** Folding depends only on the difference, not on which side of the
      heading the observer lies. */
  lemma FoldAngleSymmetric(bearing: real, heading: real)
    ensures FoldAngle(bearing, heading) == FoldAngle(heading, bearing)
  {
  }

  /** `calculate_lateral_angle` */
  function LateralAngle(tr: Transcendentals, observerLat: real, observerLon: real,
                        aircraftLat: real, aircraftLon: real, heading: real): (angle: real)
    ensures 0.0 <= heading <= 360.0 ==> 0.0 <= angle <= 90.0
  {
    FoldAngle(Bearing(tr, aircraftLat, aircraftLon, observerLat, observerLon), heading)
  }

  // ─── Lateral attenuation ───────────────────────────────────────────────

  /** `LATERAL_ATTENUATION_TABLE`: (angle in degrees, attenuation in dB). */
  const LateralTable: seq<(real, real)> := [
    (0.0, 0.0), (10.0, 0.5), (20.0, 1.2), (30.0, 2.5), (40.0, 4.0),
    (50.0, 5.5), (60.0, 7.0), (70.0, 8.5), (80.0, 9.5), (90.0, 10.0)
  ]

  /** The table lies on a 10-degree grid and its attenuations never decrease. */
  lemma LateralTableShape()
    ensures |LateralTable| == 10
    ensures forall i :: 0 <= i < 10 ==> LateralTable[i].0 == 10.0 * i as real
    ensures forall i, j :: 0 <= i <= j < 10 ==> LateralTable[i].1 <= LateralTable[j].1
    ensures LateralTable[0].1 == 0.0 && LateralTable[9].1 == 10.0
  {
  }

  /** `min(90, max(0, abs(angle)))` */
  function ClampAngle(angle: real): (a: real)
    ensures 0.0 <= a <= 90.0
    ensures a == (if Abs(angle) > 90.0 then 90.0 else Abs(angle))
  {
    var m := if Abs(angle) > 0.0 then Abs(angle) else 0.0;
    if m < 90.0 then m else 90.0
  }

  /** The table segment holding a clamped angle: the one starting at the
      largest grid point at or below it, the last segment for 90. */
  function Segment(a: real): (k: int)
    requires 0.0 <= a <= 90.0
    ensures 0 <= k < 9
    ensures 10.0 * k as real <= a <= 10.0 * (k + 1) as real
  {
    var f := (a / 10.0).Floor;
    if f >= 9 then 8 else f
  }

  /** Linear interpolation within segment `k` of the table. */
  function Interpolate(k: int, a: real): real
    requires 0 <= k < 9
  {
    var lower := LateralTable[k];
    var upper := LateralTable[k + 1];
    lower.1 + (a - lower.0) / (upper.0 - lower.0) * (upper.1 - lower.1)
  }

  /** The attenuation `get_lateral_attenuation` returns, by segment. */
  function LateralAttenuation(angle: real): real
  {
    var a := ClampAngle(angle);
    Interpolate(Segment(a), a)
  }

  /** At a grid point the two segments meeting there agree. */
  lemma InterpolateAtJoint(k: int)
    requires 0 <= k < 8
    ensures Interpolate(k, 10.0 * (k + 1) as real) == Interpolate(k + 1, 10.0 * (k + 1) as real)
    ensures Interpolate(k, 10.0 * (k + 1) as real) == LateralTable[k + 1].1
  {
    LateralTableShape();
  }

  /** The first segment whose closed range holds the angle interpolates
      like the segment `Segment` picks. */
  lemma FirstSegment(a: real, i: int)
    requires 0.0 <= a <= 90.0 && 0 <= i < 9
    requires 10.0 * i as real <= a <= 10.0 * (i + 1) as real
    requires i > 0 ==> 10.0 * i as real < a
    ensures Interpolate(i, a) == Interpolate(Segment(a), a)
  {
    if i < 8 && a == 10.0 * (i + 1) as real {
      InterpolateAtJoint(i);
    }
  }

  /** `get_lateral_attenuation`: the search for the first table segment
      holding the clamped angle, then linear interpolation within it. */
  method GetLateralAttenuation(angleDegrees: real) returns (att: real)
    ensures att == LateralAttenuation(angleDegrees)
  {
    LateralTableShape();
    var angle := ClampAngle(angleDegrees);
    var lower := LateralTable[0];
    var upper := LateralTable[|LateralTable| - 1];
    var i := 0;
    while i < |LateralTable| - 1
      invariant 0 <= i <= 9
      invariant 10.0 * i as real <= angle && (i > 0 ==> 10.0 * i as real < angle)
      invariant lower == LateralTable[0] && upper == LateralTable[9]
    {
      if LateralTable[i].0 <= angle <= LateralTable[i + 1].0 {
        lower := LateralTable[i];
        upper := LateralTable[i + 1];
        FirstSegment(angle, i);
        break;
      }
      i := i + 1;
    }
    var width := if upper.0 - lower.0 == 0.0 then 1.0 else upper.0 - lower.0;
    var ratio := (angle - lower.0) / width;
    att := lower.1 + ratio * (upper.1 - lower.1);
    assert att == Interpolate(i, angle) by {
      assert i < 9 && lower == LateralTable[i] && upper == LateralTable[i + 1];
    }
  }

  /** The attenuation reproduces the table at every grid point. */
  lemma LateralAttenuationAtGrid(k: int)
    requires 0 <= k < 10
    ensures LateralAttenuation(10.0 * k as real) == LateralTable[k].1
  {
    var a := 10.0 * k as real;
    assert ClampAngle(a) == a;
    if k == 9 {
      assert Segment(a) == 8;
      assert Interpolate(8, 90.0) == 10.0;
    } else {
      assert a / 10.0 == k as real;
      assert Segment(a) == k;
      GridPoint(k);
    }
  }

  lemma GridPoint(k: int)
    requires 0 <= k < 9
    ensures Interpolate(k, 10.0 * k as real) == LateralTable[k].1
  {
    LateralTableShape();
  }

  /** No attenuation directly below the path, 10 dB at or beyond 90
      degrees, and the sign of the angle does not matter. */
  lemma LateralAttenuationEnds(angle: real)
    ensures LateralAttenuation(0.0) == 0.0
    ensures Abs(angle) >= 90.0 ==> LateralAttenuation(angle) == 10.0
    ensures LateralAttenuation(-angle) == LateralAttenuation(angle)
  {
    LateralAttenuationAtGrid(0);
    LateralAttenuationAtGrid(9);
    assert ClampAngle(-angle) == ClampAngle(angle);
  }

  /** Within one segment the attenuation is non-decreasing. */
  lemma InterpolateMonotone(k: int, a: real, b: real)
    requires 0 <= k < 9
    requires 10.0 * k as real <= a <= b <= 10.0 * (k + 1) as real
    ensures LateralTable[k].1 <= Interpolate(k, a) <= Interpolate(k, b) <= LateralTable[k + 1].1
  {
    LateralTableShape();
    var slope := (LateralTable[k + 1].1 - LateralTable[k].1) / 10.0;
    assert slope >= 0.0;
    assert Interpolate(k, a) == LateralTable[k].1 + (a - 10.0 * k as real) * slope;
    assert Interpolate(k, b) == LateralTable[k].1 + (b - 10.0 * k as real) * slope;
    MulMono(a - 10.0 * k as real, b - 10.0 * k as real, slope);
    MulMono(b - 10.0 * k as real, 10.0, slope);
    MulMono(0.0, a - 10.0 * k as real, slope);
  }

  lemma MulMono(x: real, y: real, c: real)
    requires x <= y && c >= 0.0
    ensures x * c <= y * c
  {
  }

  /** The attenuation grows with the lateral angle and stays within the
      table's range of 0 to 10 dB. */
  lemma LateralAttenuationMonotone(a: real, b: real)
    requires 0.0 <= a <= b
    ensures 0.0 <= LateralAttenuation(a) <= LateralAttenuation(b) <= 10.0
  {
    LateralTableShape();
    var ca, cb := ClampAngle(a), ClampAngle(b);
    var ka, kb := Segment(ca), Segment(cb);
    assert ca <= cb;
    if ka == kb {
      InterpolateMonotone(ka, ca, cb);
    } else {
      assert ka < kb;
      InterpolateMonotone(ka, ca, 10.0 * (ka + 1) as real);
      InterpolateMonotone(kb, 10.0 * kb as real, cb);
      assert LateralTable[ka + 1].1 <= LateralTable[kb].1;
    }
    InterpolateMonotone(ka, 10.0 * ka as real, ca);
    InterpolateMonotone(kb, cb, 10.0 * (kb + 1) as real);
  }

  /** Whatever the angle, the attenuation lies within the table's range. */
  lemma LateralAttenuationRange(angle: real)
    ensures 0.0 <= LateralAttenuation(angle) <= 10.0
  {
    LateralAttenuationEnds(angle);
    LateralAttenuationMonotone(Abs(angle), Abs(angle));
    assert LateralAttenuation(Abs(angle)) == LateralAttenuation(angle);
  }

  // ─── Ground noise at one position ──────────────────────────────────────

  /** The unrounded terms of `calculate_ground_noise`. */
  datatype Attenuation = Attenuation(
    horizontalFt: real,
    slantFt: real,
    effectiveFt: real,
    geometric: real,
    atmospheric: real,
    lateral: real)

  /** The 100 ft floor on the acoustic path length. */
  function EffectiveDistance(slantFt: real): (d: real)
    ensures d >= 100.0 && d >= slantFt
    ensures slantFt >= 100.0 ==> d == slantFt
  {
    if slantFt > 100.0 then slantFt else 100.0
  }

  /** Steps 1 to 5 of `calculate_ground_noise`: horizontal and slant
      distance, inverse-square spreading relative to the 1000 ft reference,
      0.5 dB of absorption per 1000 ft, and lateral attenuation when the
      heading is known. */
  function Attenuations(tr: Transcendentals, altitudeFt: real,
                        observerLat: real, observerLon: real,
                        aircraftLat: real, aircraftLon: real,
                        heading: Option<real>): (t: Attenuation)
    ensures t.effectiveFt == EffectiveDistance(t.slantFt)
    ensures t.atmospheric == t.effectiveFt / 1000.0 * 0.5 && t.atmospheric >= 0.05
    ensures heading.None? ==> t.lateral == 0.0
    ensures heading.Some? ==>
      t.lateral == LateralAttenuation(LateralAngle(tr, observerLat, observerLon, aircraftLat, aircraftLon, heading.value))
    ensures 0.0 <= t.lateral <= 10.0
  {
    var horizontal := tr.haversineFt(observerLat, observerLon, aircraftLat, aircraftLon);
    var slant := tr.sqrt(SumOfSquares(altitudeFt, horizontal));
    var effective := EffectiveDistance(slant);
    var geometric := 20.0 * tr.log10(effective / 1000.0);
    var atmospheric := effective / 1000.0 * 0.5;
    var lateral :=
      if heading.None? then 0.0
      else LateralAttenuation(LateralAngle(tr, observerLat, observerLon, aircraftLat, aircraftLon, heading.value));
    if heading.Some? then
      LateralAttenuationRange(LateralAngle(tr, observerLat, observerLon, aircraftLat, aircraftLon, heading.value));
      Attenuation(horizontal, slant, effective, geometric, atmospheric, lateral)
    else
    Attenuation(horizontal, slant, effective, geometric, atmospheric, lateral)
  }

  /** `max(0, round(ground_db * 10) / 10)` of the level left after the
      attenuations: never negative, the rounded level whenever that level is
      not negative, and 0 whenever it is not positive. */
  function GroundLevel(sourceDb: real, geometric: real, atmospheric: real, lateral: real): (db: real)
    ensures db >= 0.0
    ensures sourceDb - geometric - atmospheric - lateral >= 0.0 ==>
      db == RoundTenth(sourceDb - geometric - atmospheric - lateral)
    ensures sourceDb - geometric - atmospheric - lateral <= 0.0 ==> db == 0.0
  {
    var raw := sourceDb - geometric - atmospheric - lateral;
    var rounded := RoundTenth(raw);
    RoundTenthSign(raw);
    if rounded > 0.0 then rounded else 0.0
  }

  /** A louder source is never heard as quieter, and more attenuation never
      makes it louder. */
  lemma GroundLevelMonotone(s1: real, s2: real, g1: real, g2: real, a1: real, a2: real, l1: real, l2: real)
    requires s1 <= s2 && g2 <= g1 && a2 <= a1 && l2 <= l1
    ensures GroundLevel(s1, g1, a1, l1) <= GroundLevel(s2, g2, a2, l2)
  {
    RoundTenthMonotone(s1 - g1 - a1 - l1, s2 - g2 - a2 - l2);
  }

  /** `calculate_ground_noise` */
  function GroundNoise(tr: Transcendentals, sourceDb: real, altitudeFt: real,
                       observerLat: real, observerLon: real,
                       aircraftLat: real, aircraftLon: real,
                       heading: Option<real>): (e: NoiseEstimate)
    ensures var t := Attenuations(tr, altitudeFt, observerLat, observerLon, aircraftLat, aircraftLon, heading);
      && e.db == GroundLevel(sourceDb, t.geometric, t.atmospheric, t.lateral)
      && e.slantDistanceFt == Some(RoundHalfEven(t.slantFt))
      && e.horizontalDistanceFt == Some(RoundHalfEven(t.horizontalFt))
      && e.geometricAttenuation == Some(RoundTenth(t.geometric))
      && e.atmosphericAttenuation == Some(RoundTenth(t.atmospheric))
      && e.lateralAttenuation == Some(RoundTenth(t.lateral))
    ensures e.source == "CALCULATED" && e.confidence == "high" && e.warning.None?
  {
    var t := Attenuations(tr, altitudeFt, observerLat, observerLon, aircraftLat, aircraftLon, heading);
    NoiseEstimate(
      GroundLevel(sourceDb, t.geometric, t.atmospheric, t.lateral),
      "CALCULATED", "high", None,
      Some(RoundHalfEven(t.slantFt)), Some(RoundHalfEven(t.horizontalFt)),
      Some(RoundTenth(t.geometric)), Some(RoundTenth(t.atmospheric)), Some(RoundTenth(t.lateral)))
  }

  /** With a monotone log10 and a true square root, a position higher above
      the same ground point is never louder. */
  lemma GroundNoiseFallsWithAltitude(tr: Transcendentals, sourceDb: real, alt1: real, alt2: real,
                                     observerLat: real, observerLon: real,
                                     aircraftLat: real, aircraftLon: real, heading: Option<real>)
    requires SqrtLaw(tr) && Log10Monotone(tr)
    requires 0.0 <= alt1 <= alt2
    ensures GroundNoise(tr, sourceDb, alt2, observerLat, observerLon, aircraftLat, aircraftLon, heading).db
         <= GroundNoise(tr, sourceDb, alt1, observerLat, observerLon, aircraftLat, aircraftLon, heading).db
  {
    var t1 := Attenuations(tr, alt1, observerLat, observerLon, aircraftLat, aircraftLon, heading);
    var t2 := Attenuations(tr, alt2, observerLat, observerLon, aircraftLat, aircraftLon, heading);
    var h := tr.haversineFt(observerLat, observerLon, aircraftLat, aircraftLon);
    SumOfSquaresMonotone(alt1, alt2, h);
    SqrtMonotone(tr, SumOfSquares(alt1, h), SumOfSquares(alt2, h));
    EffectiveDistanceMonotone(t1.slantFt, t2.slantFt);
    assert t1.geometric <= t2.geometric;
    GroundLevelMonotone(sourceDb, sourceDb, t2.geometric, t1.geometric, t2.atmospheric, t1.atmospheric, t2.lateral, t1.lateral);
  }

  /** `a ** 2 + b ** 2` */
  function SumOfSquares(a: real, b: real): real
  {
    a * a + b * b
  }

  lemma SumOfSquaresMonotone(a: real, b: real, h: real)
    requires 0.0 <= a <= b
    ensures 0.0 <= SumOfSquares(a, h) <= SumOfSquares(b, h)
  {
    SquareMonotone(a, b);
    SquareNonNegative(a);
    SquareNonNegative(h);
    calc {
      0.0;
      <= a * a + h * h;
      <= b * b + h * h;
    }
  }

  lemma EffectiveDistanceMonotone(s1: real, s2: real)
    requires s1 <= s2
    ensures EffectiveDistance(s1) <= EffectiveDistance(s2)
  {
  }

  lemma SquareNonNegative(x: real)
    ensures x * x >= 0.0
  {
    if x < 0.0 {
      MulStrict(x, 0.0, -x);
    }
  }

  lemma SquareMonotone(a: real, b: real)
    requires 0.0 <= a <= b
    ensures a * a <= b * b
  {
    MulMono(a, b, a);
    MulMono(a, b, b);
  }

  lemma SquareStrict(a: real, b: real)
    requires 0.0 <= a < b
    ensures a * a < b * b
  {
    MulMono(a, b, a);
    MulStrict(a, b, b);
    calc {
      a * a;
      <= b * a;
      == a * b;
      < b * b;
    }
  }

  lemma MulStrict(x: real, y: real, c: real)
    requires x < y && c > 0.0
    ensures x * c < y * c
  {
  }

  /** Under the square-root law a larger argument has a larger root. */
  lemma SqrtMonotone(tr: Transcendentals, x: real, y: real)
    requires SqrtLaw(tr)
    requires 0.0 <= x <= y
    ensures tr.sqrt(x) <= tr.sqrt(y)
  {
    var sx, sy := tr.sqrt(x), tr.sqrt(y);
    assert sx * sx == x && sy * sy == y && sx >= 0.0 && sy >= 0.0;
    if sx > sy {
      SquareStrict(sy, sx);
    }
  }

  // ─── Per-position estimate ─────────────────────────────────────────────

  /** The source level used for a direction: approach for arrivals, takeoff
      for every other direction. */
  function SourceLevel(p: NoiseProfile, direction: string): (db: real)
    ensures direction == "arrival" ==> db == p.approachDb
    ensures direction != "arrival" ==> db == p.takeoffDb
  {
    if direction == "arrival" then p.approachDb else p.takeoffDb
  }

  /** `calculate_noise_at_position`: the ground estimate for the profile's
      source level, relabelled with the profile's source and confidence and
      warned about when the profile is not certified. */
  function NoiseAtPosition(tr: Transcendentals, profiles: map<string, NoiseProfile>, icaoType: string,
                           position: TrackPosition, observerLat: real, observerLon: real,
                           direction: string, category: string): (e: NoiseEstimate)
    ensures var p := GetNoiseProfile(profiles, icaoType, category);
      var g := GroundNoise(tr, SourceLevel(p, direction), position.altitudeFt as real,
                           observerLat, observerLon, position.latitude, position.longitude,
                           HeadingOf(position));
      && e == g.(source := p.dataSource, confidence := p.confidence, warning := e.warning)
      && (e.warning.Some? <==> p.dataSource != "EASA_CERTIFIED")
  {
    var p := GetNoiseProfile(profiles, icaoType, category);
    var estimate := GroundNoise(tr, SourceLevel(p, direction), position.altitudeFt as real,
                                observerLat, observerLon, position.latitude, position.longitude,
                                HeadingOf(position));
    estimate.(source := p.dataSource, confidence := p.confidence,
              warning := if p.dataSource != "EASA_CERTIFIED"
                         then Some("No EASA data for " + icaoType + ". Using " + p.category + " average.")
                         else estimate.warning)
  }

  function HeadingOf(position: TrackPosition): Option<real>
  {
    if position.heading.Some? then Some(position.heading.value as real) else None
  }

  /** `get_simple_noise_estimate`: spreading over the altitude alone, as if
      the aircraft were directly overhead. */
  function SimpleNoiseEstimate(tr: Transcendentals, profiles: map<string, NoiseProfile>, icaoType: string,
                               altitudeFt: real, direction: string, category: string): (e: NoiseEstimate)
    ensures var p := GetNoiseProfile(profiles, icaoType, category);
      && e.db == GroundLevel(SourceLevel(p, direction), 20.0 * tr.log10(EffectiveDistance(altitudeFt) / 1000.0), 0.0, 0.0)
      && e.source == p.dataSource && e.confidence == p.confidence
      && (e.warning.None? <==> p.dataSource == "EASA_CERTIFIED")
  {
    var p := GetNoiseProfile(profiles, icaoType, category);
    var geometric := 20.0 * tr.log10(EffectiveDistance(altitudeFt) / 1000.0);
    NoiseEstimate(GroundLevel(SourceLevel(p, direction), geometric, 0.0, 0.0),
                  p.dataSource, p.confidence,
                  if p.dataSource == "EASA_CERTIFIED" then None
                  else Some("Using category estimate for " + icaoType),
                  None, None, None, None, None)
  }

  /** For an observer directly below the aircraft with no heading known, the
      simple estimate is never below the full one: it leaves out
      atmospheric absorption and is otherwise the same computation. */
  lemma SimpleEstimateBoundsOverhead(tr: Transcendentals, profiles: map<string, NoiseProfile>, icaoType: string,
                                     position: TrackPosition, direction: string, category: string)
    requires SqrtLaw(tr)
    requires tr.haversineFt(position.latitude, position.longitude, position.latitude, position.longitude) == 0.0
    requires position.altitudeFt >= 0 && position.heading.None?
    ensures NoiseAtPosition(tr, profiles, icaoType, position, position.latitude, position.longitude, direction, category).db
         <= SimpleNoiseEstimate(tr, profiles, icaoType, position.altitudeFt as real, direction, category).db
  {
    var alt := position.altitudeFt as real;
    var t := Attenuations(tr, alt, position.latitude, position.longitude, position.latitude, position.longitude, None);
    OverheadSlant(tr, alt, position.latitude, position.longitude);
    var p := GetNoiseProfile(profiles, icaoType, category);
    var g := GroundNoise(tr, SourceLevel(p, direction), alt, position.latitude, position.longitude,
                         position.latitude, position.longitude, None);
    assert HeadingOf(position) == None;
    assert NoiseAtPosition(tr, profiles, icaoType, position, position.latitude, position.longitude, direction, category).db == g.db;
    GroundLevelMonotone(SourceLevel(p, direction), SourceLevel(p, direction),
                        t.geometric, t.geometric, t.atmospheric, 0.0, 0.0, 0.0);
  }

  /** Directly overhead, the acoustic path is the altitude. */
  lemma OverheadSlant(tr: Transcendentals, alt: real, lat: real, lon: real)
    requires SqrtLaw(tr) && alt >= 0.0
    requires tr.haversineFt(lat, lon, lat, lon) == 0.0
    ensures Attenuations(tr, alt, lat, lon, lat, lon, None).slantFt == alt
  {
    SqrtOfSquare(tr, alt);
  }

  lemma SqrtOfSquare(tr: Transcendentals, x: real)
    requires SqrtLaw(tr) && x >= 0.0
    ensures tr.sqrt(SumOfSquares(x, 0.0)) == x
  {
    assert SumOfSquares(x, 0.0) == x * x;
    SquareNonNegative(x);
    var s := tr.sqrt(x * x);
    assert s >= 0.0 && s * s == x * x;
    if s < x {
      SquareStrict(s, x);
    } else if s > x {
      SquareStrict(x, s);
    }
  }

  // ─── Flight impact ─────────────────────────────────────────────────────

  /** The fixed interval between FlightAware position reports, in seconds. */
  const PositionIntervalSeconds: int := 5

  /** What every position estimate of one flight shares. */
  datatype Flight = Flight(
    tr: Transcendentals,
    profiles: map<string, NoiseProfile>,
    icaoType: string,
    direction: string,
    category: string)

  /** The estimate at observer `o` for one track position. */
  function EstimateAt(f: Flight, position: TrackPosition, o: Observer): NoiseEstimate
  {
    NoiseAtPosition(f.tr, f.profiles, f.icaoType, position, o.lat, o.lon, f.direction, f.category)
  }

  /** The per-position estimator for observer `o`. */
  function Estimator(f: Flight, o: Observer): TrackPosition -> NoiseEstimate
  {
    position => EstimateAt(f, position, o)
  }

  /** One estimator per observer, in order. */
  function Estimators(f: Flight, obs: seq<Observer>): (es: seq<TrackPosition -> NoiseEstimate>)
    ensures |es| == |obs|
  {
    seq(|obs|, k requires 0 <= k < |obs| => Estimator(f, obs[k]))
  }

  /** The levels an estimator gives, position by position. */
  function Levels(estimate: TrackPosition -> NoiseEstimate, track: seq<TrackPosition>): (dbs: seq<real>)
    ensures |dbs| == |track|
  {
    seq(|track|, i requires 0 <= i < |track| => estimate(track[i]).db)
  }

  /** `estimate.slant_distance_ft or 0` */
  function SlantOrZero(e: NoiseEstimate): int
  {
    if e.slantDistanceFt.Some? then e.slantDistanceFt.value else 0
  }

  /** The rounded slant distances an estimator gives, position by position. */
  function Slants(estimate: TrackPosition -> NoiseEstimate, track: seq<TrackPosition>): (ds: seq<int>)
    ensures |ds| == |track|
  {
    seq(|track|, i requires 0 <= i < |track| => SlantOrZero(estimate(track[i])))
  }

  /** Every level the engine estimates is at least 0 dB. */
  lemma LevelsNonNegative(f: Flight, o: Observer, track: seq<TrackPosition>)
    ensures forall i :: 0 <= i < |track| ==> Levels(Estimator(f, o), track)[i] >= 0.0
  {
    forall i | 0 <= i < |track|
      ensures Levels(Estimator(f, o), track)[i] >= 0.0
    {
      assert Levels(Estimator(f, o), track)[i] == EstimateAt(f, track[i], o).db;
    }
  }

  /** The largest of `init` and the elements of `s`. */
  function MaxFrom(init: real, s: seq<real>): (m: real)
    ensures m >= init
    ensures forall i :: 0 <= i < |s| ==> s[i] <= m
    ensures m == init || exists i :: 0 <= i < |s| && s[i] == m
  {
    if |s| == 0 then init
    else
      var m := MaxFrom(init, s[..|s| - 1]);
      if s[|s| - 1] > m then s[|s| - 1] else m
  }

  /** Python's `max(s)` of a non-empty list. */
  function Max(s: seq<real>): (m: real)
    requires |s| > 0
    ensures forall i :: 0 <= i < |s| ==> s[i] <= m
    ensures exists i :: 0 <= i < |s| && s[i] == m
  {
    MaxFrom(s[0], s[1..])
  }

  /** Python's `sum(s)`. */
  function Sum(s: seq<real>): real
  {
    if |s| == 0 then 0.0 else Sum(s[..|s| - 1]) + s[|s| - 1]
  }

  /** The smallest element, `None` standing for the `float("inf")` a
      minimum over no elements starts from. */
  function MinOf(s: seq<int>): (m: Option<int>)
    ensures m.None? <==> |s| == 0
    ensures m.Some? ==> forall i :: 0 <= i < |s| ==> m.value <= s[i]
    ensures m.Some? ==> exists i :: 0 <= i < |s| && s[i] == m.value
  {
    if |s| == 0 then None
    else
      var m := MinOf(s[..|s| - 1]);
      if m.None? || s[|s| - 1] < m.value then Some(s[|s| - 1]) else m
  }

  /** The number of levels at or above `threshold`. */
  function CountAtLeast(s: seq<real>, threshold: real): (n: nat)
    ensures n <= |s|
  {
    if |s| == 0 then 0
    else CountAtLeast(s[..|s| - 1], threshold) + (if s[|s| - 1] >= threshold then 1 else 0)
  }

  /** Raising the threshold never counts more levels. */
  lemma {:induction false} CountAtLeastAntitone(s: seq<real>, low: real, high: real)
    requires low <= high
    ensures CountAtLeast(s, high) <= CountAtLeast(s, low)
  {
    if |s| > 0 {
      CountAtLeastAntitone(s[..|s| - 1], low, high);
    }
  }

  /** With non-negative levels, the running peak from 0 is the maximum. */
  lemma PeakIsMax(s: seq<real>)
    requires |s| > 0
    requires forall i :: 0 <= i < |s| ==> s[i] >= 0.0
    ensures MaxFrom(0.0, s) == Max(s)
  {
    var m := MaxFrom(0.0, s);
    assert s[0] <= m;
    assert m == 0.0 ==> s[0] == 0.0;
  }

  /** The mean of a non-empty list never exceeds its maximum. */
  lemma {:induction false} MeanAtMostMax(s: seq<real>)
    requires |s| > 0
    ensures Sum(s) / |s| as real <= Max(s)
  {
    var m := Max(s);
    assert forall i :: 0 <= i < |s| ==> s[i] <= m;
    SumAtMostCountTimesBound(s, m);
    DivideBound(Sum(s), |s| as real, m);
  }

  lemma DivideBound(total: real, n: real, m: real)
    requires n > 0.0 && total <= n * m
    ensures total / n <= m
  {
    calc {
      total / n;
      <= (n * m) / n;
      == m;
    }
  }

  lemma {:induction false} SumAtMostCountTimesBound(s: seq<real>, bound: real)
    requires forall i :: 0 <= i < |s| ==> s[i] <= bound
    ensures Sum(s) <= |s| as real * bound
  {
    if |s| > 0 {
      var p := s[..|s| - 1];
      SumAtMostCountTimesBound(p, bound);
      calc {
        Sum(s);
        == Sum(p) + s[|s| - 1];
        <= |p| as real * bound + bound;
        == (|p| as real + 1.0) * bound;
        == |s| as real * bound;
      }
    }
  }

  /** The summary `calculate_flight_noise_impact` reports for one observer. */
  datatype ObserverImpact = ObserverImpact(
    observerId: string,
    observerName: string,
    maxDb: real,
    closestApproachFt: int,
    timeAbove65Db: int,
    timeAbove75Db: int)

  /** The `noise_profile` entry of the result. */
  datatype ProfileSummary = ProfileSummary(
    manufacturer: Option<string>,
    model: Option<string>,
    takeoffDb: real,
    approachDb: real,
    dataSource: string,
    confidence: string)

  /** The profile of the flight's type as the result reports it: every
      field of `get_noise_profile`'s answer but the type code. */
  function ProfileOf(f: Flight): (s: ProfileSummary)
  {
    var p := GetNoiseProfile(f.profiles, f.icaoType, f.category);
    ProfileSummary(p.manufacturer, p.model, p.takeoffDb, p.approachDb, p.dataSource, p.confidence)
  }

  /** The dict `calculate_flight_noise_impact` returns. */
  datatype FlightImpact = FlightImpact(
    faFlightId: string,
    aircraftType: string,
    direction: string,
    noiseProfile: ProfileSummary,
    maxGroundDb: real,
    avgGroundDb: real,
    exposureSeconds: int,
    trackCount: int,
    observerImpacts: seq<ObserverImpact>)

  /** The inner loop over the track for one observer: peak level (from 0),
      closest rounded slant distance, and seconds at or above 65 and 75 dB. */
  method ScanObserver(estimate: TrackPosition -> NoiseEstimate, track: seq<TrackPosition>)
    returns (peakDb: real, closest: Option<int>, above65: int, above75: int)
    ensures peakDb == MaxFrom(0.0, Levels(estimate, track))
    ensures closest == MinOf(Slants(estimate, track))
    ensures above65 == PositionIntervalSeconds * CountAtLeast(Levels(estimate, track), 65.0)
    ensures above75 == PositionIntervalSeconds * CountAtLeast(Levels(estimate, track), 75.0)
  {
    ghost var dbs := Levels(estimate, track);
    ghost var slants := Slants(estimate, track);
    peakDb, closest, above65, above75 := 0.0, None, 0, 0;
    for i := 0 to |track|
      invariant peakDb == MaxFrom(0.0, dbs[..i])
      invariant closest == MinOf(slants[..i])
      invariant above65 == PositionIntervalSeconds * CountAtLeast(dbs[..i], 65.0)
      invariant above75 == PositionIntervalSeconds * CountAtLeast(dbs[..i], 75.0)
    {
      assert dbs[..i + 1][..i] == dbs[..i];
      assert slants[..i + 1][..i] == slants[..i];
      var e := estimate(track[i]);
      if e.db > peakDb {
        peakDb := e.db;
      }
      var slant := SlantOrZero(e);
      if closest.None? || slant < closest.value {
        closest := Some(slant);
      }
      if e.db >= 65.0 {
        above65 := above65 + PositionIntervalSeconds;
      }
      if e.db >= 75.0 {
        above75 := above75 + PositionIntervalSeconds;
      }
    }
    assert dbs[..|track|] == dbs;
    assert slants[..|track|] == slants;
  }

  /** The loop over the track for the primary observer and the whole-track
      maximum and mean, 0 for an empty track. */
  method TrackLevels(estimate: TrackPosition -> NoiseEstimate, track: seq<TrackPosition>)
    returns (maxDb: real, avgDb: real)
    requires forall i :: 0 <= i < |track| ==> Levels(estimate, track)[i] >= 0.0
    ensures |track| == 0 ==> maxDb == 0.0 && avgDb == 0.0
    ensures |track| > 0 ==> maxDb == Max(Levels(estimate, track))
    ensures |track| > 0 ==> avgDb == Sum(Levels(estimate, track)) / |track| as real
    ensures 0.0 <= avgDb <= maxDb
  {
    var noiseValues: seq<real> := [];
    for i := 0 to |track|
      invariant noiseValues == Levels(estimate, track)[..i]
    {
      var e := estimate(track[i]);
      noiseValues := noiseValues + [e.db];
    }
    assert noiseValues == Levels(estimate, track);
    if |noiseValues| > 0 {
      maxDb := Max(noiseValues);
      avgDb := Sum(noiseValues) / |noiseValues| as real;
      MeanAtMostMax(noiseValues);
      SumNonNegative(noiseValues);
    } else {
      maxDb, avgDb := 0.0, 0.0;
    }
  }

  lemma {:induction false} SumNonNegative(s: seq<real>)
    requires forall i :: 0 <= i < |s| ==> s[i] >= 0.0
    ensures Sum(s) >= 0.0
  {
    if |s| > 0 {
      SumNonNegative(s[..|s| - 1]);
    }
  }

  /** What the result says about observer `o`, an empty track reporting a
      closest approach of 0. */
  ghost predicate DescribesObserver(imp: ObserverImpact, estimate: TrackPosition -> NoiseEstimate, o: Observer,
                                    track: seq<TrackPosition>)
  {
    var dbs := Levels(estimate, track);
    && imp.observerId == o.id && imp.observerName == o.name
    && imp.maxDb == RoundTenth(MaxFrom(0.0, dbs))
    && imp.closestApproachFt == (if |track| == 0 then 0 else MinOf(Slants(estimate, track)).value)
    && imp.timeAbove65Db == PositionIntervalSeconds * CountAtLeast(dbs, 65.0)
    && imp.timeAbove75Db == PositionIntervalSeconds * CountAtLeast(dbs, 75.0)
  }

  /** Every observer summary: the closest approach is attained and nothing
      is closer, and 0 <= time above 75 dB <= time above 65 dB <= the
      exposure time of the whole track. */
  lemma ObserverImpactBounds(imp: ObserverImpact, estimate: TrackPosition -> NoiseEstimate, o: Observer,
                             track: seq<TrackPosition>)
    requires DescribesObserver(imp, estimate, o, track)
    ensures 0 <= imp.timeAbove75Db <= imp.timeAbove65Db <= PositionIntervalSeconds * |track|
    ensures imp.maxDb >= 0.0
    ensures forall i :: 0 <= i < |track| ==> imp.closestApproachFt <= Slants(estimate, track)[i]
    ensures |track| > 0 ==> exists i :: 0 <= i < |track| && imp.closestApproachFt == Slants(estimate, track)[i]
  {
    var dbs := Levels(estimate, track);
    CountAtLeastAntitone(dbs, 65.0, 75.0);
    RoundTenthNonNegative(MaxFrom(0.0, dbs));
  }

  /** What the summary of a flight says: the identifiers it was asked
      for, the peak and mean of the levels at the first observer (0 for an
      empty track), the exposure time, the profile of the flight's type, and
      one summary per observer in the order given. */
  ghost predicate DescribesFlight(r: FlightImpact, f: Flight, faFlightId: string, obs: seq<Observer>,
                                  track: seq<TrackPosition>)
    requires |obs| > 0
  {
    var dbs := Levels(Estimator(f, obs[0]), track);
    && r.faFlightId == faFlightId && r.aircraftType == f.icaoType && r.direction == f.direction
    && r.noiseProfile == ProfileOf(f)
    && r.exposureSeconds == PositionIntervalSeconds * |track| && r.trackCount == |track|
    && r.maxGroundDb == (if |track| == 0 then 0.0 else RoundTenth(Max(dbs)))
    && r.avgGroundDb == (if |track| == 0 then 0.0 else RoundTenth(Sum(dbs) / |track| as real))
    && |r.observerImpacts| == |obs|
    && forall k :: 0 <= k < |obs| ==> DescribesObserver(r.observerImpacts[k], Estimator(f, obs[k]), obs[k], track)
  }

  /** The summary of a flight with the observer list resolved and the
      per-observer summaries computed. */
  function Assemble(f: Flight, faFlightId: string, track: seq<TrackPosition>, maxDb: real, avgDb: real,
                    impacts: seq<ObserverImpact>): (r: FlightImpact)
    ensures r.exposureSeconds == PositionIntervalSeconds * |track| && r.trackCount == |track|
    ensures r.faFlightId == faFlightId && r.aircraftType == f.icaoType && r.direction == f.direction
    ensures r.noiseProfile == ProfileOf(f)
    ensures r.maxGroundDb == RoundTenth(maxDb) && r.avgGroundDb == RoundTenth(avgDb)
    ensures r.observerImpacts == impacts
  {
    FlightImpact(faFlightId, f.icaoType, f.direction, ProfileOf(f),
                 RoundTenth(maxDb), RoundTenth(avgDb),
                 |track| * PositionIntervalSeconds, |track|, impacts)
  }

  /** The assembled summary describes the flight once the levels at the
      first observer and every observer summary are known. */
  lemma AssembleDescribesFlight(f: Flight, faFlightId: string, track: seq<TrackPosition>, obs: seq<Observer>,
                                maxDb: real, avgDb: real, impacts: seq<ObserverImpact>)
    requires |obs| > 0
    requires |track| == 0 ==> maxDb == 0.0 && avgDb == 0.0
    requires |track| > 0 ==> maxDb == Max(Levels(Estimator(f, obs[0]), track))
    requires |track| > 0 ==> avgDb == Sum(Levels(Estimator(f, obs[0]), track)) / |track| as real
    requires |impacts| == |obs|
    requires forall k :: 0 <= k < |obs| ==> DescribesObserver(impacts[k], Estimator(f, obs[k]), obs[k], track)
    ensures DescribesFlight(Assemble(f, faFlightId, track, maxDb, avgDb, impacts), f, faFlightId, obs, track)
  {
    RoundHalfEvenOfInt(0);
  }

  /** `round(closest_ft)` as written: rounding the `float("inf")` left by an
      empty track raises OverflowError. */
  function RoundClosestAsWritten(closest: Option<int>): (r: Result<int>)
    ensures r.Err? <==> closest.None?
  {
    if closest.None? then Err("OverflowError") else Ok(closest.value)
  }

  /** An empty track reaches `round(float("inf"))` for the first observer. */
  lemma EmptyTrackOverflows(f: Flight, o: Observer)
    ensures RoundClosestAsWritten(MinOf(Slants(Estimator(f, o), []))) == Err("OverflowError")
  {
  }

  /** The observer list, the eight default observers standing in for a
      missing one (an empty list is kept as it is). */
  function ResolveObservers(observers: Option<seq<Observer>>): (obs: seq<Observer>)
    ensures observers.Some? ==> obs == observers.value
    ensures observers.None? ==> obs == ObserverLocations && |obs| == 8
  {
    if observers.Some? then observers.value else ObserverLocations
  }

  /** The per-observer loop as written: the first observer's closest
      approach fails to round when the track is empty. */
  method ObserverImpactsAsWritten(estimators: seq<TrackPosition -> NoiseEstimate>, obs: seq<Observer>,
                                  track: seq<TrackPosition>)
    returns (r: Result<seq<ObserverImpact>>)
    requires |obs| > 0 && |estimators| == |obs|
    ensures r.Err? <==> |track| == 0
    ensures r.Err? ==> r.error == "OverflowError"
    ensures r.Ok? ==> |r.value| == |obs|
    ensures r.Ok? ==> forall k :: 0 <= k < |obs| ==> DescribesObserver(r.value[k], estimators[k], obs[k], track)
  {
    var impacts: seq<ObserverImpact> := [];
    for k := 0 to |obs|
      invariant |impacts| == k
      invariant forall j :: 0 <= j < k ==> DescribesObserver(impacts[j], estimators[j], obs[j], track)
      invariant |track| > 0 || k == 0
    {
      var peakDb, closest, above65, above75 := ScanObserver(estimators[k], track);
      var closestFt := RoundClosestAsWritten(closest);
      if closestFt.Err? {
        return Err(closestFt.error);
      }
      var impact := ObserverImpact(obs[k].id, obs[k].name, RoundTenth(peakDb), closestFt.value, above65, above75);
      impacts := impacts + [impact];
    }
    r := Ok(impacts);
  }

  /** `calculate_flight_noise_impact` as written. Indexing the first
      observer fails on an empty observer list, and an empty track fails
      when the first observer's closest approach is rounded, so the
      zero-valued branches for an empty track are never returned. */
  method FlightNoiseImpactAsWritten(f: Flight, faFlightId: string, track: seq<TrackPosition>,
                                    observers: Option<seq<Observer>>)
    returns (r: Result<FlightImpact>)
    ensures var obs := ResolveObservers(observers);
      && (r.Err? <==> |obs| == 0 || |track| == 0)
      && (|obs| == 0 ==> r == Err("IndexError"))
      && (|obs| > 0 && |track| == 0 ==> r == Err("OverflowError"))
      && (r.Ok? ==> |obs| > 0 && DescribesFlight(r.value, f, faFlightId, obs, track))
  {
    var obs := ResolveObservers(observers);
    if |obs| == 0 {
      return Err("IndexError");
    }
    LevelsNonNegative(f, obs[0], track);
    var maxDb, avgDb := TrackLevels(Estimator(f, obs[0]), track);
    var scanned := ObserverImpactsAsWritten(Estimators(f, obs), obs, track);
    if scanned.Err? {
      return Err(scanned.error);
    }
    var impacts := scanned.value;
    var summary := Assemble(f, faFlightId, track, maxDb, avgDb, impacts);
    AssembleDescribesFlight(f, faFlightId, track, obs, maxDb, avgDb, impacts);
    r := Ok(summary);
  }

  /** The closest approach reported for an observer: 0 when the track is
      empty, so that every summary field is a number. */
  function ClosestApproach(closest: Option<int>): (ft: int)
    ensures closest.Some? ==> ft == closest.value
    ensures closest.None? ==> ft == 0
  {
    if closest.Some? then closest.value else 0
  }

  /** The per-observer loop of `calculate_flight_noise_impact`, an empty
      track giving a closest approach of 0. */
  method ObserverImpacts(estimators: seq<TrackPosition -> NoiseEstimate>, obs: seq<Observer>,
                         track: seq<TrackPosition>)
    returns (impacts: seq<ObserverImpact>)
    requires |estimators| == |obs|
    ensures |impacts| == |obs|
    ensures forall k :: 0 <= k < |obs| ==> DescribesObserver(impacts[k], estimators[k], obs[k], track)
  {
    impacts := [];
    for k := 0 to |obs|
      invariant |impacts| == k
      invariant forall j :: 0 <= j < k ==> DescribesObserver(impacts[j], estimators[j], obs[j], track)
    {
      var peakDb, closest, above65, above75 := ScanObserver(estimators[k], track);
      impacts := impacts + [ObserverImpact(obs[k].id, obs[k].name, RoundTenth(peakDb), ClosestApproach(closest), above65, above75)];
    }
  }

  /** `calculate_flight_noise_impact` with an empty track summarised by zero
      values: exactly one summary per observer, in order, and only an empty
      observer list fails. */
  method FlightNoiseImpact(f: Flight, faFlightId: string, track: seq<TrackPosition>,
                           observers: Option<seq<Observer>>)
    returns (r: Result<FlightImpact>)
    ensures var obs := ResolveObservers(observers);
      && (r.Err? <==> |obs| == 0)
      && (r.Err? ==> r.error == "IndexError")
      && (r.Ok? ==> |obs| > 0 && DescribesFlight(r.value, f, faFlightId, obs, track))
  {
    var obs := ResolveObservers(observers);
    if |obs| == 0 {
      return Err("IndexError");
    }
    LevelsNonNegative(f, obs[0], track);
    var maxDb, avgDb := TrackLevels(Estimator(f, obs[0]), track);
    var impacts := ObserverImpacts(Estimators(f, obs), obs, track);
    var summary := Assemble(f, faFlightId, track, maxDb, avgDb, impacts);
    AssembleDescribesFlight(f, faFlightId, track, obs, maxDb, avgDb, impacts);
    r := Ok(summary);
  }
}
