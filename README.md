# JPX dashboard core, modelled in Dafny

This project models the deterministic core of the JPX dashboard. The dashboard collects flight operations at East Hampton airport (KJPX, formerly KHTO), estimates ground noise, and checks and loads its data. The model covers:

- **Ground-noise engine** (`noise_calculator.dfy`, module `NoiseCalculator`):
  - profile lookup with the category-average fallback;
  - bearing folding and the lateral-attenuation table;
  - composition of distance floor, spreading, absorption and lateral attenuation;
  - the per-position estimate;
  - the per-flight aggregation over the track and the observers.
- **Classification** (`classify.dfy`, `type_codes.dfy`, `classify_tests.dfy`):
  - aircraft categories from ICAO type codes;
  - the curfew hour, the weekend rule and the operation time.
- **EASA certification parser** (`parse_easa.dfy`, module `EasaParsing`):
  - column identification and record extraction;
  - category guessing;
  - first-match certification lookup;
  - EPNL to LAmax conversion;
  - the ICAO mapping.
- **Complaint loading** (`load_complaints.dfy`):
  - column lookup;
  - house-number stripping;
  - municipality normalisation;
  - flight matching and its confidence.
- **Data-quality scripts:**
  - the validation rules and their result accumulator (`validate_data.dfy`);
  - the audits (`audit_data.dfy`);
  - the two-store reconciliation (`compare_databases.dfy`);
  - gap finding and backfill cost (`find_gaps.dfy`);
  - backfill planning and its cost-limited loop (`historical_pull.dfy`).
- **Supabase writer** (`supabase_writer.dfy`):
  - record whitelisting and flag coercion;
  - keep-first deduplication and batching;
  - the daily summary;
  - the upsert guard.
- **AeroAPI client** (`aeroapi.dfy`):
  - the TTL and LRU response cache, as a class over an ordered key list and a map;
  - the order-free cache key;
  - endpoint cost and cacheability;
  - the cursor-following page loop.
- **Weather client** (`weather.dfy`):
  - the TTL cache with its last-valid fallback;
  - the air-quality reduction;
  - unit conversions and the Magnus humidity estimate.

The model runs on a few shared modules:

- `Values` holds Python values in a row, truthiness, `dict.get` and `==` between numbers and booleans.
- `Text` holds ASCII case mapping, `strip`, substring search and string order.
- `Rounding` holds `round` with ties to even, to an integer and to a tenth.
- `Calendar` holds day numbers, civil dates and weekdays.
- `CategoryAverages` holds the category-average table. The table appears twice in the source, in noise_calculator.py and in parse_easa_excel.py, with the same defaults.

How the source's inputs appear in the model:

- **Dates** are integer day numbers counted from 1970-01-01.
- **Rows** fetched from SQLite or Supabase are input sequences of records.
- **Clocks** are explicit `now` parameters.
- **Answers from the database, the HTTP API and the page fetcher** are input sequences.
- **Transcendental functions** are function-valued parameters: `log10`, `sqrt`, the haversine distance, `atan2` and `exp`. A lemma that needs a property of one states it as a `requires`, such as a non-negative root or a monotone `log10`.
- **Pure code** is written as functions and lemmas.
- **Code that updates state step by step** is written as methods with loops and invariants, proved against specification functions. This covers the validation result, the caches, the parser's mapping and every accumulating loop.

## Model

| member | source | states |
|---|---|---|
| NoiseCalculator.GetNoiseProfile | jpx-dashboard/src/analysis/noise_calculator.py:163-186 | a stored profile under the upper-cased code is returned unchanged; otherwise the fallback has the category's default as takeoff, 4 dB less on approach, CATEGORY_ESTIMATE/low, no manufacturer or model, and code "UNKN" for an empty type |
| NoiseCalculator.ProfileLookupCaseInsensitive | jpx-dashboard/src/analysis/noise_calculator.py:170-173 | the profile lookup gives the same result for a type code in any letter case |
| NoiseCalculator.FallbackLevels | jpx-dashboard/src/analysis/noise_calculator.py:176-186 | with no certification data, every category gets 72 <= approach < takeoff <= 88 dB and low confidence, from the averages of lines 55-60 |
| CategoryAverages.DefaultLevel | jpx-dashboard/src/analysis/noise_calculator.py:55-60 | a listed category yields its default level and any other category yields the "unknown" row's 80 dB; every default lies in 76..88 (looked up at line 176) |
| NoiseCalculator.FloorMod | jpx-dashboard/src/analysis/noise_calculator.py:230 | Python's float `%` by a positive modulus lies in [0, m) |
| NoiseCalculator.Bearing | jpx-dashboard/src/analysis/noise_calculator.py:221-230 | the bearing lies in [0, 360), whatever `atan2` returns |
| NoiseCalculator.FoldAngle | jpx-dashboard/src/analysis/noise_calculator.py:243-247 | the folded angle is at most 90, is non-negative for a bearing in [0,360) and a heading in [0,360], and equals the plain difference when that is within 90 |
| NoiseCalculator.FoldAngleSymmetric | jpx-dashboard/src/analysis/noise_calculator.py:243-247 | folding gives the same angle with bearing and heading swapped |
| NoiseCalculator.LateralAngle | jpx-dashboard/src/analysis/noise_calculator.py:233-247 | for a heading in [0,360] the lateral angle lies in [0, 90] |
| NoiseCalculator.LateralTableShape | jpx-dashboard/src/analysis/noise_calculator.py:40-51 | the table has 10 rows on a 10-degree grid, its attenuations never decrease, and it runs from 0 to 10 dB |
| NoiseCalculator.ClampAngle | jpx-dashboard/src/analysis/noise_calculator.py:252 | the clamped angle is abs(angle) capped at 90, within [0, 90] |
| NoiseCalculator.Segment | jpx-dashboard/src/analysis/noise_calculator.py:257-261 | the segment chosen for a clamped angle lies among the 9 segments and its grid points bracket the angle |
| NoiseCalculator.GetLateralAttenuation | jpx-dashboard/src/analysis/noise_calculator.py:250-265 | the table search with `break`, followed by the interpolation, returns the attenuation specified by segment |
| NoiseCalculator.InterpolateAtJoint | jpx-dashboard/src/analysis/noise_calculator.py:257-265 | two adjacent segments agree at their shared grid point, on the table value |
| NoiseCalculator.LateralAttenuationAtGrid | jpx-dashboard/src/analysis/noise_calculator.py:250-265 | the attenuation reproduces the table value at every 10-degree grid point of the table at lines 40-51 |
| NoiseCalculator.LateralAttenuationEnds | jpx-dashboard/src/analysis/noise_calculator.py:252-265 | 0 dB at 0 degrees, 10 dB at and beyond 90 degrees, and the sign of the angle does not matter |
| NoiseCalculator.InterpolateMonotone | jpx-dashboard/src/analysis/noise_calculator.py:263-265 | within a segment the interpolation is non-decreasing and stays between the segment's table values |
| NoiseCalculator.LateralAttenuationMonotone | jpx-dashboard/src/analysis/noise_calculator.py:250-265 | for non-negative angles the attenuation is non-decreasing and lies within 0..10 dB |
| NoiseCalculator.LateralAttenuationRange | jpx-dashboard/src/analysis/noise_calculator.py:250-265 | for any angle the attenuation lies within 0..10 dB |
| NoiseCalculator.EffectiveDistance | jpx-dashboard/src/analysis/noise_calculator.py:297 | the acoustic path is at least 100 ft and at least the slant distance, and it is the slant distance from 100 ft on |
| NoiseCalculator.Attenuations | jpx-dashboard/src/analysis/noise_calculator.py:288-315 | the effective distance is floored at 100 ft and absorption is effective/1000 x 0.5 (so at least 0.05 dB); lateral attenuation is 0 with no heading, and with a heading it is the table attenuation of the lateral angle, within 0..10 dB |
| NoiseCalculator.GroundLevel | jpx-dashboard/src/analysis/noise_calculator.py:318-319 | the level is never negative, is source - geometric - atmospheric - lateral rounded to 0.1 when that is not negative, and is 0 when it is not positive |
| NoiseCalculator.GroundLevelMonotone | jpx-dashboard/src/analysis/noise_calculator.py:318-319 | a louder source or less attenuation never gives a lower level |
| NoiseCalculator.GroundNoise | jpx-dashboard/src/analysis/noise_calculator.py:270-330 | the estimate carries the ground level of the attenuations, with slant and horizontal distance rounded to whole feet and the geometric and atmospheric attenuations to tenths; it is labelled CALCULATED/high with no warning |
| NoiseCalculator.GroundNoiseFallsWithAltitude | jpx-dashboard/src/analysis/noise_calculator.py:288-319 | given a true square root and a monotone log10, a higher position above the same ground point is never louder |
| NoiseCalculator.SqrtMonotone | jpx-dashboard/src/analysis/noise_calculator.py:216-218 | under the square-root law, a larger argument has a larger root |
| NoiseCalculator.SourceLevel | jpx-dashboard/src/analysis/noise_calculator.py:345 | the source level is the approach level exactly for "arrival" and the takeoff level for every other direction |
| NoiseCalculator.NoiseAtPosition | jpx-dashboard/src/analysis/noise_calculator.py:333-362 | the estimate is the ground estimate for the profile's source level, relabelled with the profile's source and confidence; a warning is set exactly when the profile is not EASA_CERTIFIED |
| NoiseCalculator.SimpleNoiseEstimate | jpx-dashboard/src/analysis/noise_calculator.py:476-503 | only spreading over the floored altitude is subtracted; source and confidence come from the profile, and there is no warning exactly when the profile is certified |
| NoiseCalculator.SimpleEstimateBoundsOverhead | jpx-dashboard/src/analysis/noise_calculator.py:476-503 | directly overhead with no heading, the simple estimate is never below the full estimate of lines 333-362 |
| NoiseCalculator.OverheadSlant | jpx-dashboard/src/analysis/noise_calculator.py:216-218 | directly overhead the slant distance is the altitude |
| NoiseCalculator.Estimators | jpx-dashboard/src/analysis/noise_calculator.py:417-431 | there is one position estimator per observer, in observer order |
| NoiseCalculator.Levels | jpx-dashboard/src/analysis/noise_calculator.py:390-410 | there is one level per track position |
| NoiseCalculator.Slants | jpx-dashboard/src/analysis/noise_calculator.py:436-438 | there is one rounded slant distance per track position |
| NoiseCalculator.LevelsNonNegative | jpx-dashboard/src/analysis/noise_calculator.py:390-410 | every estimated level is at least 0 dB, by the floor at lines 318-319 |
| NoiseCalculator.MaxFrom | jpx-dashboard/src/analysis/noise_calculator.py:418-434 | the running peak from `init` bounds every level and is either `init` or one of them |
| NoiseCalculator.Max | jpx-dashboard/src/analysis/noise_calculator.py:411 | `max` of a non-empty list bounds every element and is one of them |
| NoiseCalculator.MinOf | jpx-dashboard/src/analysis/noise_calculator.py:419-438 | the minimum is absent exactly for an empty list (the `inf` start), and otherwise bounds every element from below and is one of them |
| NoiseCalculator.CountAtLeast | jpx-dashboard/src/analysis/noise_calculator.py:440-443 | the number of levels at or above a threshold is at most the number of levels |
| NoiseCalculator.CountAtLeastAntitone | jpx-dashboard/src/analysis/noise_calculator.py:440-443 | a higher threshold never counts more positions, so the time above 75 dB is at most the time above 65 dB |
| NoiseCalculator.PeakIsMax | jpx-dashboard/src/analysis/noise_calculator.py:411-434 | with non-negative levels the per-observer peak from 0 equals `max` |
| NoiseCalculator.MeanAtMostMax | jpx-dashboard/src/analysis/noise_calculator.py:411-412 | the mean level never exceeds the maximum |
| NoiseCalculator.SumAtMostCountTimesBound | jpx-dashboard/src/analysis/noise_calculator.py:412 | a sum of values each at most b is at most n x b |
| NoiseCalculator.SumNonNegative | jpx-dashboard/src/analysis/noise_calculator.py:412 | a sum of non-negative levels is non-negative |
| NoiseCalculator.ScanObserver | jpx-dashboard/src/analysis/noise_calculator.py:418-443 | the inner loop yields the peak level from 0, the closest rounded slant (None for an empty track), and 5 s per position at or above 65 and at or above 75 dB |
| NoiseCalculator.TrackLevels | jpx-dashboard/src/analysis/noise_calculator.py:390-412 | max and mean are 0 for an empty track and are otherwise `max` and sum/len of the primary observer's levels, with 0 <= mean <= max |
| NoiseCalculator.ObserverImpactBounds | jpx-dashboard/src/analysis/noise_calculator.py:417-452 | in each observer summary, 0 <= time above 75 <= time above 65 <= 5 x track length; the peak is non-negative; the closest approach is attained and nothing is closer |
| NoiseCalculator.Assemble | jpx-dashboard/src/analysis/noise_calculator.py:454-473 | exposure seconds is 5 x track length and track count is the track length; the ids are echoed; the noise profile is the type's `get_noise_profile` answer; max and avg are rounded to tenths; the observer summaries are passed through |
| NoiseCalculator.AssembleDescribesFlight | jpx-dashboard/src/analysis/noise_calculator.py:384-473 | the assembled summary meets the flight description once the primary levels and every observer summary are known |
| NoiseCalculator.RoundClosestAsWritten | jpx-dashboard/src/analysis/noise_calculator.py:449 | rounding the closest approach fails exactly when no position was seen (`round(inf)`) |
| NoiseCalculator.EmptyTrackOverflows | jpx-dashboard/src/analysis/noise_calculator.py:419-449 | an empty track makes `round(float("inf"))` raise OverflowError |
| NoiseCalculator.ResolveObservers | jpx-dashboard/src/analysis/noise_calculator.py:380-381 | a given observer list is kept, even an empty one; a missing list becomes the eight default observers of lines 64-73 |
| NoiseCalculator.ObserverImpactsAsWritten | jpx-dashboard/src/analysis/noise_calculator.py:416-452 | the observer loop as written fails with OverflowError exactly for an empty track, and otherwise gives one correct summary per observer, in order |
| NoiseCalculator.FlightNoiseImpactAsWritten | jpx-dashboard/src/analysis/noise_calculator.py:367-473 | as written the call fails exactly for an empty observer list (IndexError) or an empty track (OverflowError), and otherwise describes the flight: its ids, its type's noise profile, the primary observer's levels and every observer's summary |
| NoiseCalculator.ClosestApproach | jpx-dashboard/src/analysis/noise_calculator.py:449 | the corrected closest approach is the minimum slant distance, or 0 for an empty track |
| NoiseCalculator.ObserverImpacts | jpx-dashboard/src/analysis/noise_calculator.py:416-452 | the corrected observer loop gives exactly one correct summary per observer, in order |
| NoiseCalculator.FlightNoiseImpact | jpx-dashboard/src/analysis/noise_calculator.py:367-473 | the corrected call fails only for an empty observer list (at `observers[0]`); otherwise it describes the flight (ids, the type's noise profile, levels, observer summaries), with zero max, avg and closest approach for an empty track |
| Classify.CategoryName | jpx-dashboard/src/analysis/classify.py:125-146 | a category is stored as one of "helicopter", "jet", "fixed_wing" or "unknown" |
| Classify.CategoryNameInjective | jpx-dashboard/src/analysis/classify.py:125-146 | distinct categories are stored under distinct names |
| Classify.ClassifyAircraft | jpx-dashboard/src/analysis/classify.py:131-132 | a missing or empty type is "unknown" |
| Classify.ClassifyPrecedence | jpx-dashboard/src/analysis/classify.py:134-146 | the normalised code is looked up in helicopter, then jet, then fixed-wing codes, and is "unknown" when it is in none of them (each outcome as an if-and-only-if) |
| Classify.EmptyCodeUnknown | jpx-dashboard/src/analysis/classify.py:25-122 | the empty code is in none of the three sets, so the lookup at line 134 gives unknown |
| Classify.NormalisedCode | jpx-dashboard/src/analysis/classify.py:134 | a code with no surrounding space and no lower-case letter is its own lookup code |
| Classify.ClassifyByCode | jpx-dashboard/src/analysis/classify.py:131-146 | two types with the same normalised code classify alike, including a whitespace-only type against the missing type |
| Classify.ClassifyCaseInsensitive | jpx-dashboard/src/analysis/classify.py:134 | classification ignores letter case |
| Classify.ClassifyIgnoresPadding | jpx-dashboard/src/analysis/classify.py:134 | classification ignores surrounding whitespace |
| Classify.CurfewHoursOfDay | jpx-dashboard/src/analysis/classify.py:162-167 | within a day, curfew holds exactly for the hours 21-23 and 0-6 |
| Classify.IsCurfewHour | jpx-dashboard/src/analysis/classify.py:162-167 | curfew holds exactly for the hours outside 07:00-20:59 |
| Classify.IsWeekend | jpx-dashboard/src/analysis/classify.py:170-173 | weekend holds exactly for Saturday and Sunday |
| Classify.WeekendPeriodic | jpx-dashboard/src/analysis/classify.py:170-173 | the weekend rule repeats every seven days |
| Classify.GetOperationTime | jpx-dashboard/src/analysis/classify.py:176-186 | an arrival uses actual_on, else scheduled_on, else ""; every other direction uses actual_off, else scheduled_off, else "" |
| ClassifyTests.ClassifyR44Example | jpx-dashboard/tests/test_api.py:23 | R44 is a helicopter |
| ClassifyTests.ClassifyS76Example | jpx-dashboard/tests/test_api.py:24 | S76 is a helicopter |
| ClassifyTests.ClassifyEC35Example | jpx-dashboard/tests/test_api.py:25 | EC35 is a helicopter |
| ClassifyTests.ClassifyB407Example | jpx-dashboard/tests/test_api.py:26 | B407 is a helicopter |
| ClassifyTests.ClassifyMissingExample | jpx-dashboard/tests/test_api.py:32-33 | a missing or empty type is unknown |
| Calendar.Weekday | jpx-dashboard/src/analysis/classify.py:172-173 | the weekday index lies in 0..6, Monday first |
| Calendar.WeekdayPeriodic | jpx-dashboard/src/analysis/classify.py:172-173 | the weekday repeats every seven days |
| Calendar.WeekdayName | jpx-dashboard/src/db/supabase_writer.py:260 | the name is one of the seven English weekday names, and Saturday or Sunday exactly for weekday index 5 or 6 |
| Calendar.AnchorStart | jpx-dashboard/scripts/backfill/historical_pull.py:57 | 2022-05-01 is day 19113 |
| Calendar.AnchorStartBack | jpx-dashboard/scripts/backfill/historical_pull.py:57 | day 19113 is 2022-05-01 |
| Rounding.RoundHalfEven | jpx-dashboard/src/analysis/noise_calculator.py:325-326 | `round` gives an integer within 0.5 of its argument, and on a tie (fraction exactly 0.5) the even one |
| Rounding.RoundTenth | jpx-dashboard/src/analysis/noise_calculator.py:319 | `round(x, 1)` gives a whole number of tenths within 0.05 of x, with an even number of tenths on a tie |
| Rounding.RoundHalfEvenUnique | jpx-dashboard/src/analysis/noise_calculator.py:325-326 | any integer within 0.5 of x that is even on a tie is `round(x)`: the contract determines the rounding |
| Rounding.RoundTenthUnique | jpx-dashboard/src/analysis/noise_calculator.py:319 | any whole number of tenths within 0.05 of x that is even on a tie is `round(x, 1)`: the contract determines the rounding |
| Rounding.RoundTenthMonotone | jpx-dashboard/src/analysis/noise_calculator.py:319 | rounding to a tenth never reverses an order |
| Rounding.RoundTenthSign | jpx-dashboard/src/analysis/noise_calculator.py:319 | rounding to a tenth keeps the sign |
| EasaParsing.ColumnPatternKeysDistinct | jpx-dashboard/scripts/easa/parse_easa_excel.py:331-342 | each field of the column table is listed once |
| EasaParsing.FirstColumn | jpx-dashboard/scripts/easa/parse_easa_excel.py:345-349 | the chosen column is the first, in the given order, whose lower-cased name contains one of the field's terms; None means no column does |
| EasaParsing.FindColumns | jpx-dashboard/scripts/easa/parse_easa_excel.py:344-351 | the outer loop maps each field to its first matching column, and maps nothing else |
| EasaParsing.ScanColumns | jpx-dashboard/scripts/easa/parse_easa_excel.py:345-349 | the inner loop stops at the first column whose lower-cased name contains one of the terms, and runs off the end exactly when no column does |
| EasaParsing.IdentifyColumns | jpx-dashboard/scripts/easa/parse_easa_excel.py:327-351 | the same holds for the parser's own ten-field table |
| EasaParsing.TenthOrNone | jpx-dashboard/scripts/easa/parse_easa_excel.py:391-394 | a level is kept exactly when it is present and non-zero, as a whole number of tenths within 0.05 of it |
| EasaParsing.NoiseLevels | jpx-dashboard/scripts/easa/parse_easa_excel.py:370-375 | given levels are kept; when lateral, fly-over and approach are all missing or zero, a non-zero noise level n gives n, n-2 and n+1 |
| EasaParsing.ExtractRecord | jpx-dashboard/scripts/easa/parse_easa_excel.py:353-401 | the record is rejected exactly for an empty manufacturer or model or a "nan" manufacturer; otherwise its fields are copied as the source copies them: engine type and chapter texts with "nan" to None, MTOM truncated by `int`, the three EPNLs rounded to tenths from the fallback chain, category decided, source EASA |
| EasaParsing.NoiseLevelFallback | jpx-dashboard/scripts/easa/parse_easa_excel.py:370-393 | a row with only a noise level n gets lateral n, fly-over n-2 and approach n+1, each to a tenth |
| EasaParsing.GivenLevelsKept | jpx-dashboard/scripts/easa/parse_easa_excel.py:364-393 | a lateral, fly-over or approach level given in the row is kept, to a tenth |
| EasaParsing.DetermineCategory | jpx-dashboard/scripts/easa/parse_easa_excel.py:412-429 | a helicopter keyword wins; otherwise a jet keyword gives "jet"; otherwise the default, matched on the lower-cased "manufacturer model" |
| EasaParsing.DetermineCategoryCaseInsensitive | jpx-dashboard/scripts/easa/parse_easa_excel.py:415 | the keyword match ignores the case of manufacturer and model |
| EasaParsing.GuessCategory | jpx-dashboard/scripts/easa/parse_easa_excel.py:495-513 | helicopter prefixes are tried first, then jet, then fixed-wing, else "unknown" |
| EasaParsing.GuessedCategoryHasAverage | jpx-dashboard/scripts/easa/parse_easa_excel.py:454-464 | every guessed category has a row in the averages, so the fallback lookup never fails |
| EasaParsing.FirstMatchIndex | jpx-dashboard/scripts/easa/parse_easa_excel.py:475-482 | the match is the first certification, in list order, whose "manufacturer model" contains a pattern ignoring case; None means none does |
| EasaParsing.EpnlToLamax | jpx-dashboard/scripts/easa/parse_easa_excel.py:484-493 | None stays None; otherwise a whole number of tenths within 0.05 of EPNL - 13 |
| EasaParsing.EpnlToLamaxMonotone | jpx-dashboard/scripts/easa/parse_easa_excel.py:493 | a louder certification never converts to a quieter LAmax |
| EasaParsing.OrLevel | jpx-dashboard/scripts/easa/parse_easa_excel.py:447 | `a or b` on levels picks a when it is present and non-zero, else b |
| EasaParsing.EntryFor | jpx-dashboard/scripts/easa/parse_easa_excel.py:438-467 | a matched code is EASA_CERTIFIED/high with the certified record's category, model and three EPNLs, LAmax from takeoff (else fly-over) and approach EPNL; an unmatched code is CATEGORY_ESTIMATE/low with no model and no EPNLs, the guessed category's default, and approach 4 dB below it |
| EasaParsing.MappingKeys | jpx-dashboard/scripts/easa/parse_easa_excel.py:435-467 | every code of the pattern table gets an entry, and nothing else does |
| EasaParsing.MappingEntries | jpx-dashboard/scripts/easa/parse_easa_excel.py:438-467 | every entry is certified/high or an estimate/low with approach = takeoff - 4 = category default - 4 |
| EasaParsing.MappingEntryOf | jpx-dashboard/scripts/easa/parse_easa_excel.py:435-467 | a code's entry is built from its first matching certification, and is certified exactly when one matches |
| EasaParsing.EasaParser.constructor | jpx-dashboard/scripts/easa/parse_easa_excel.py:231-236 | a new parser holds no certifications and no mapping |
| EasaParsing.EasaParser.SetCertifications | jpx-dashboard/scripts/easa/parse_easa_excel.py:294 | the parsed records are stored in order; the mapping is untouched |
| EasaParsing.EasaParser.FindBestMatch | jpx-dashboard/scripts/easa/parse_easa_excel.py:472-482 | the scan with early return yields the first matching certification |
| EasaParsing.EasaParser.BuildMapping | jpx-dashboard/scripts/easa/parse_easa_excel.py:433-470 | the loop builds the mapping of the table, stores it in the parser and returns it |
| EasaParsing.EasaParser.BuildIcaoMapping | jpx-dashboard/scripts/easa/parse_easa_excel.py:431-470 | the same holds over the ICAO pattern table |
| Complaints.CandidateNames | jpx-dashboard/scripts/load_complaints.py:69-87 | a mapped field's names are its listed ones, and an unmapped field's only name is its own |
| Complaints.FirstPresent | jpx-dashboard/scripts/load_complaints.py:88-91 | the result is the first name, in order, among the headers; None means no name is among them |
| Complaints.FindColumn | jpx-dashboard/scripts/load_complaints.py:85-91 | the found column is a header and a candidate; None means no candidate is a header |
| Complaints.UnmappedFieldByOwnName | jpx-dashboard/scripts/load_complaints.py:87 | an unmapped field is found exactly when its own name is a header |
| Complaints.HouseNumberEnd | jpx-dashboard/scripts/load_complaints.py:110 | the matcher for `^\d+[-\d]*[A-Za-z]?\s+` matches only text starting with a digit, and the match ends after all of the whitespace run |
| Complaints.HouseNumberEndIsMatch | jpx-dashboard/scripts/load_complaints.py:110 | the matcher answers exactly when `Matches` (digits, then digits and dashes, an optional letter, then whitespace, ending at `e`) holds for some `e`; every match ends no later than its answer; its answer is the one match not followed by whitespace |
| Complaints.MatchWithin | jpx-dashboard/scripts/load_complaints.py:110 | any regex match makes the matcher answer, at or after the match's end |
| Complaints.EndMatches | jpx-dashboard/scripts/load_complaints.py:110 | the matcher's answer is itself a regex match not followed by whitespace |
| Complaints.StripHouseNumber | jpx-dashboard/scripts/load_complaints.py:96-111 | an empty address gives "", and the result is never longer than the address |
| Complaints.StripHouseNumberRemovesToken | jpx-dashboard/scripts/load_complaints.py:105-111 | when the stripped address has a regex match ending at `e` with no whitespace after it, the result is the stripped address from `e` on; when nothing matches, the result is the stripped address; the result never starts with whitespace |
| Complaints.NumberedStreetKept | jpx-dashboard/scripts/load_complaints.py:96-111 | a house number of digits, an optional letter and one space in front of a street name with no surrounding whitespace are removed, leaving the street name |
| Complaints.StreetNameKept | jpx-dashboard/scripts/load_complaints.py:110-111 | an address not starting with a digit only loses its surrounding whitespace |
| Complaints.StripHouseNumberPlain | jpx-dashboard/scripts/load_complaints.py:101 | "123 Main Street" becomes "Main Street" |
| Complaints.StripHouseNumberSuffix | jpx-dashboard/scripts/load_complaints.py:102 | "45A Ocean Ave" becomes "Ocean Ave" |
| Complaints.StripHouseNumberNone | jpx-dashboard/scripts/load_complaints.py:103 | "Main Street" is unchanged |
| Complaints.Title | jpx-dashboard/scripts/load_complaints.py:138 | title case keeps the length and the whitespace positions |
| Complaints.TitleOfUpper | jpx-dashboard/scripts/load_complaints.py:138 | title case does not depend on the input's case |
| Complaints.TitleIdempotent | jpx-dashboard/scripts/load_complaints.py:138 | title-casing twice equals title-casing once |
| Complaints.NormalizeMunicipality | jpx-dashboard/scripts/load_complaints.py:114-139 | an empty name gives ""; otherwise the stripped, title-cased name, replaced by its standard spelling when it is a listed variant |
| Complaints.NormalizeIgnoresCase | jpx-dashboard/scripts/load_complaints.py:138-139 | names differing only in case normalise alike |
| Complaints.Score | jpx-dashboard/scripts/load_complaints.py:313-336 | every score lies in 1..7, and a lone candidate scores at least 3 |
| Complaints.Scores | jpx-dashboard/scripts/load_complaints.py:313-336 | there is one score per candidate |
| Complaints.BestIndex | jpx-dashboard/scripts/load_complaints.py:338-340 | the winner has the highest score and every earlier candidate scores strictly less, so ties keep the earliest |
| Complaints.Confidence | jpx-dashboard/scripts/load_complaints.py:346-353 | >=5 is high, 3-4 medium, 1-2 low, below 1 unmatched |
| Complaints.WinnerIsMatched | jpx-dashboard/scripts/load_complaints.py:335-353 | a non-empty candidate list never yields "unmatched", and a lone candidate yields high or medium |
| Complaints.MatchComplaintToFlight | jpx-dashboard/scripts/load_complaints.py:289-360 | no event time or no candidates gives (None, unmatched, None, None); otherwise the first highest-scoring candidate's id, registration and operator, with the confidence of its score |
| Validation.CountField | jpx-dashboard/scripts/validate/validate_data.py:62-71 | the number of issues about a field is at most the number of issues |
| Validation.CountFieldAppend | jpx-dashboard/scripts/validate/validate_data.py:55-71 | appending an issue adds one to its field's count only |
| Validation.ErrorKey | jpx-dashboard/scripts/validate/validate_data.py:62 | the counter name is "error_" followed by the field, so distinct fields have distinct counters |
| Validation.WarningKey | jpx-dashboard/scripts/validate/validate_data.py:71 | the counter name is "warning_" followed by the field |
| Validation.ValidationResult.constructor | jpx-dashboard/scripts/validate/validate_data.py:50-53 | a new result is empty and its counters are consistent |
| Validation.ValidationResult.Error | jpx-dashboard/scripts/validate/validate_data.py:55-62 | it appends one error, raises "error_<field>" by exactly 1, and keeps every counter equal to its issue count |
| Validation.ValidationResult.Warning | jpx-dashboard/scripts/validate/validate_data.py:64-71 | it appends one warning, raises "warning_<field>" by exactly 1, and keeps the counters consistent |
| Validation.ValidationResult.ToDict | jpx-dashboard/scripts/validate/validate_data.py:73-80 | the totals are the full list lengths, while the lists are their first 100 entries |
| Validation.Missing | jpx-dashboard/scripts/validate/validate_data.py:156-162 | the missing fields are exactly the listed fields whose value is falsy |
| Validation.IssuesFor | jpx-dashboard/scripts/validate/validate_data.py:158-162 | there is one issue per field, in order |
| Validation.MidnightHourLooksMissing | jpx-dashboard/scripts/validate/validate_data.py:160-162 | hour 0 is falsy and draws a missing-field warning, the hour being a recommended field (line 42) |
| Validation.ReportMissingErrors | jpx-dashboard/scripts/validate/validate_data.py:156-158 | one error per falsy field, in order |
| Validation.ReportMissingWarnings | jpx-dashboard/scripts/validate/validate_data.py:160-162 | one warning per falsy field, in order |
| Validation.ValidateRequiredFields | jpx-dashboard/scripts/validate/validate_data.py:152-162 | one error per falsy required field and one warning per falsy recommended field |
| Validation.ValidateDirection | jpx-dashboard/scripts/validate/validate_data.py:165-171 | one error exactly when the direction is truthy and not arrival or departure |
| Validation.CheckCategory | jpx-dashboard/scripts/validate/validate_data.py:180-189 | for a given classifier: an error for an invalid truthy category, and a warning when a type is present and the stored value differs from its class |
| Validation.ValidateCategory | jpx-dashboard/scripts/validate/validate_data.py:174-189 | the same holds with `classify_aircraft` |
| Validation.ConsistentCategoryPasses | jpx-dashboard/scripts/validate/validate_data.py:180-189 | a stored category equal to the classification draws nothing |
| Validation.ValidateHour | jpx-dashboard/scripts/validate/validate_data.py:196-200 | one error exactly when the hour is present and is not an int in 0..23 |
| Validation.HoursOfDayValid | jpx-dashboard/scripts/validate/validate_data.py:198-200 | an integer hour passes exactly in 0..23, and a string hour never passes |
| Validation.NormalizeFlag | jpx-dashboard/scripts/validate/validate_data.py:230-231 | an integer flag becomes its truth value, and anything else is unchanged |
| Validation.ValidateCurfewFlag | jpx-dashboard/scripts/validate/validate_data.py:222-238 | one warning exactly when hour and flag are present and the normalised flag differs from the curfew rule |
| Validation.IntegerFlagsLikeBooleans | jpx-dashboard/scripts/validate/validate_data.py:230-234 | a flag of 1 or 0 is judged like True or False |
| Validation.Tally | jpx-dashboard/scripts/validate/validate_data.py:258-274 | one more flight raises the total by 1, adds at most one direction and one category, and counts its curfew flag when truthy |
| Validation.DateOrder | jpx-dashboard/scripts/validate/validate_data.py:253-277 | the dates are distinct and truthy, in order of first appearance |
| Validation.CountsBounded | jpx-dashboard/scripts/validate/validate_data.py:253-274 | a date's recount total is its flight count, and no sub-count exceeds it |
| Validation.UndatedFlightIgnored | jpx-dashboard/scripts/validate/validate_data.py:254-256 | a flight without a date changes no recount |
| Validation.DatedFlightListed | jpx-dashboard/scripts/validate/validate_data.py:253-258 | every date carried by a flight is compared |
| Validation.Checks | jpx-dashboard/scripts/validate/validate_data.py:285-293 | seven fields are checked |
| Validation.Mismatched | jpx-dashboard/scripts/validate/validate_data.py:295-301 | at most one issue per check |
| Validation.MatchingSummaryPasses | jpx-dashboard/scripts/validate/validate_data.py:295-301 | a summary holding the recount draws no warning |
| Validation.AbsentFieldIsZero | jpx-dashboard/scripts/validate/validate_data.py:296 | a field missing from the summary is compared as 0 |
| Validation.DateIssues | jpx-dashboard/scripts/validate/validate_data.py:277-301 | a missing or empty summary gives exactly one "daily_summary" warning; otherwise at most seven field warnings |
| Validation.MismatchedFieldsPrefixed | jpx-dashboard/scripts/validate/validate_data.py:299 | field warnings are never confused with the missing-summary warning |
| Validation.SummaryIssuesBounded | jpx-dashboard/scripts/validate/validate_data.py:277-301 | there are at most seven warnings per date |
| Validation.ReportMismatches | jpx-dashboard/scripts/validate/validate_data.py:295-301 | one warning per mismatched field, in order |
| Validation.ReportDate | jpx-dashboard/scripts/validate/validate_data.py:278-301 | the warnings for one date are exactly its date issues |
| Validation.RecountByDate | jpx-dashboard/scripts/validate/validate_data.py:248-274 | the per-date map holds exactly the dates in first-seen order, each with its recount |
| Validation.NeverSeenCountsNothing | jpx-dashboard/scripts/validate/validate_data.py:248-258 | a date no flight carries has an empty recount |
| Validation.ReportDates | jpx-dashboard/scripts/validate/validate_data.py:277-301 | the comparison loop appends each date's issues in order |
| Validation.ReportDateAt | jpx-dashboard/scripts/validate/validate_data.py:278-301 | one date's comparison appends exactly that date's issues, keeps the errors, and keeps every counter equal to the issues it counts |
| Validation.ValidateSummaryConsistency | jpx-dashboard/scripts/validate/validate_data.py:241-301 | the warnings are the date issues of every dated flight date, in first-seen order; no errors |
| Audit.ClassMismatches | jpx-dashboard/scripts/audit/audit_data.py:103-112 | the mismatches number at most the rows |
| Audit.TallyCoversType | jpx-dashboard/scripts/audit/audit_data.py:105-115 | per type, correct + wrong equals the rows of that type |
| Audit.UnseenTypeUntallied | jpx-dashboard/scripts/audit/audit_data.py:89-115 | a type absent from the rows has an empty tally |
| Audit.TallyStep | jpx-dashboard/scripts/audit/audit_data.py:103-115 | one more row extends the mismatches and the tallies as the loop does |
| Audit.AuditRow | jpx-dashboard/scripts/audit/audit_data.py:91-115 | one iteration keeps the audit state in step with the rows read |
| Audit.AuditClassificationsWith | jpx-dashboard/scripts/audit/audit_data.py:88-122 | for a given classifier: the full mismatch count, the first 100 mismatches, and a correct/wrong tally per type seen |
| Audit.AuditClassifications | jpx-dashboard/scripts/audit/audit_data.py:67-122 | the same holds with `classify_aircraft` |
| Audit.StoredFlag | jpx-dashboard/scripts/audit/audit_data.py:150-155 | SQLite flags go through `bool()`, and Supabase flags are taken as they are |
| Audit.CurfewMismatches | jpx-dashboard/scripts/audit/audit_data.py:157-167 | the mismatches number at most the rows |
| Audit.AtBoundary | jpx-dashboard/scripts/audit/audit_data.py:169-171 | the boundary issues are exactly the mismatches at hours 6, 7, 20 and 21, in order |
| Audit.BooleanFlagMismatch | jpx-dashboard/scripts/audit/audit_data.py:157-159 | a boolean flag mismatches exactly when it differs from the rule |
| Audit.SqliteIntegerFlag | jpx-dashboard/scripts/audit/audit_data.py:152 | a SQLite 1/0 flag is judged as a boolean |
| Audit.CurfewStep | jpx-dashboard/scripts/audit/audit_data.py:149-171 | one more row extends the mismatches |
| Audit.AtBoundaryAppend | jpx-dashboard/scripts/audit/audit_data.py:169-171 | one more mismatch is a boundary issue exactly at a boundary hour |
| Audit.AuditCurfewFlags | jpx-dashboard/scripts/audit/audit_data.py:125-178 | the full mismatch count, every boundary mismatch, and the first 50 mismatches |
| Audit.EntriesFor | jpx-dashboard/scripts/audit/audit_data.py:257-260 | one entry per missing field, in order |
| Audit.MissingRequiredBounded | jpx-dashboard/scripts/audit/audit_data.py:253-260 | there is at most one entry per required field per flight |
| Audit.MissingRequired | jpx-dashboard/scripts/audit/audit_data.py:253-260 | every missing-field entry names a required field |
| Audit.FlightsMissing | jpx-dashboard/scripts/audit/audit_data.py:261-263 | the miss count is at most the number of flights |
| Audit.FieldAuditStep | jpx-dashboard/scripts/audit/audit_data.py:253-263 | one more flight extends the entries and the counts |
| Audit.AppendMissing | jpx-dashboard/scripts/audit/audit_data.py:255-260 | one flight's falsy required fields are appended in order |
| Audit.CountMissing | jpx-dashboard/scripts/audit/audit_data.py:261-263 | one flight's falsy recommended fields are counted once each |
| Audit.AuditFieldsWith | jpx-dashboard/scripts/audit/audit_data.py:247-286 | for given field lists: the full required-miss count, its first 20 entries, and a count for exactly the recommended fields missed at least once |
| Audit.AuditRequiredFields | jpx-dashboard/scripts/audit/audit_data.py:238-286 | the same holds for the audit's own field lists |
| Reconcile.Normalize | jpx-dashboard/scripts/audit/compare_databases.py:124-128 | booleans become 1/0, and everything else is unchanged |
| Reconcile.BoolMatchesInteger | jpx-dashboard/scripts/audit/compare_databases.py:125-130 | a stored True against a stored 1 is not a difference |
| Reconcile.FieldDiffs | jpx-dashboard/scripts/audit/compare_databases.py:119-131 | the diff holds exactly the differing checked fields, with both normalised values |
| Reconcile.AgreeingRowsNoDiffs | jpx-dashboard/scripts/audit/compare_databases.py:119-131 | rows agreeing on every checked field have no diff |
| Reconcile.CompareOne | jpx-dashboard/scripts/audit/compare_databases.py:115-137 | one shared id is listed exactly when some field differs |
| Reconcile.CompareFlights | jpx-dashboard/scripts/audit/compare_databases.py:98-144 | only_sqlite = S - P, only_supabase = P - S, in_both = S ∩ P; differences list exactly the shared ids with a differing field, once each, with exactly those fields |
| Reconcile.PartitionSizes | jpx-dashboard/scripts/audit/compare_databases.py:103-105 | the three groups partition S ∪ P and their sizes add up |
| Gaps.SumDaysAppend | jpx-dashboard/scripts/audit/find_gaps.py:109-125 | the total days grows by the appended gap's days |
| Gaps.StepMissing | jpx-dashboard/scripts/audit/find_gaps.py:102-104 | a missing date opens or extends the open run |
| Gaps.ClosingKeepsRuns | jpx-dashboard/scripts/audit/find_gaps.py:105-114 | a run closed by a date with data is maximal and has its inclusive length |
| Gaps.ClosingKeepsCover | jpx-dashboard/scripts/audit/find_gaps.py:105-114 | closing a run keeps every missing date covered |
| Gaps.StepCloses | jpx-dashboard/scripts/audit/find_gaps.py:105-114 | a date with data after a run keeps the loop state |
| Gaps.StepStaysClosed | jpx-dashboard/scripts/audit/find_gaps.py:105-116 | a date with data and no run keeps the loop state |
| Gaps.ScanDay | jpx-dashboard/scripts/audit/find_gaps.py:99-116 | one day of the loop keeps the loop state |
| Gaps.FinishScan | jpx-dashboard/scripts/audit/find_gaps.py:118-125 | the trailing run, if any, completes the gaps |
| Gaps.FindGaps | jpx-dashboard/scripts/audit/find_gaps.py:90-127 | no gaps when start > end; otherwise exactly the maximal runs of missing dates, ascending, with inclusive `days` summing to the number of missing dates |
| Gaps.NoneMissingNoDays | jpx-dashboard/scripts/audit/find_gaps.py:102 | with data on every date nothing is missing |
| Gaps.AllMissing | jpx-dashboard/scripts/audit/find_gaps.py:102 | with no data every date is missing |
| Gaps.CoverageExtremes | jpx-dashboard/scripts/audit/find_gaps.py:90-127 | a fully covered range has 0 gap days, and an empty data set has the whole range |
| Gaps.SeasonsPartition | jpx-dashboard/scripts/audit/find_gaps.py:137-144 | summer and winter partition the dates and the flights |
| Gaps.SeasonOf | jpx-dashboard/scripts/audit/find_gaps.py:137-144 | a season has no more dates than the items, and has all of them only when every item lies in it |
| Gaps.AveragePerDay | jpx-dashboard/scripts/audit/find_gaps.py:149-150 | the average is flights / max(1, dates) |
| Gaps.AnalyzeSeasonalCoverage | jpx-dashboard/scripts/audit/find_gaps.py:130-151 | the loop yields each season's dates and flights and its average |
| Gaps.PagesPerDay | jpx-dashboard/scripts/audit/find_gaps.py:175-179 | every day costs at least one page, and floor(avg/15)+1 pages for a non-negative average |
| Gaps.AddDay | jpx-dashboard/scripts/audit/find_gaps.py:170-180 | each date adds one day and at least one page |
| Gaps.RangeTally | jpx-dashboard/scripts/audit/find_gaps.py:169-180 | the pages are at least the days |
| Gaps.RangeTallyDays | jpx-dashboard/scripts/audit/find_gaps.py:169-180 | a range tallies one day per date |
| Gaps.GapsTally | jpx-dashboard/scripts/audit/find_gaps.py:165-180 | the pages are at least the days |
| Gaps.GapsTallyDays | jpx-dashboard/scripts/audit/find_gaps.py:165-180 | the days counted are the gaps' total length |
| Gaps.RunLengthsAreDays | jpx-dashboard/scripts/audit/find_gaps.py:108-120 | for the reported runs, `days` is the inclusive length |
| Gaps.TallyRange | jpx-dashboard/scripts/audit/find_gaps.py:169-180 | the inner loop tallies a gap's dates, both ends included |
| Gaps.GapsTallyStep | jpx-dashboard/scripts/audit/find_gaps.py:165 | one more gap adds its tally |
| Gaps.EstimateBackfillCost | jpx-dashboard/scripts/audit/find_gaps.py:154-188 | total missing days = summer + winter = the sum of gap lengths; pages >= days; cost = pages x 0.01 |
| Gaps.EstimateCountsMissingDates | jpx-dashboard/scripts/audit/find_gaps.py:90-188 | applied to the gaps found, the estimate counts exactly the missing dates |
| Values.Take | jpx-dashboard/scripts/validate/validate_data.py:77-78 | Python's `[:n]` (also the 100-row and 20-row caps of the audit reports, audit_data.py:120) is the prefix of the list whose length is n, or the whole list when it is shorter |
| Text.StrLessTrichotomy | jpx-dashboard/scripts/backfill/historical_pull.py:65 | exactly one of a < b, a == b, b < a holds for Python's string order |
| Text.StrLessTransitive | jpx-dashboard/scripts/backfill/historical_pull.py:65 | Python's string order is transitive |
| Backfill.AirportCode | jpx-dashboard/scripts/backfill/historical_pull.py:57-65 | "KJPX" exactly when the date string is not before "2022-05-01", else "KHTO" |
| Backfill.AirportCodeSwitch | jpx-dashboard/scripts/backfill/historical_pull.py:57-65 | 2022-05-01 is KJPX and 2022-04-30 is KHTO |
| Backfill.EstimateDailyCost | jpx-dashboard/scripts/backfill/historical_pull.py:151-161 | 0.07 exactly for May to September, and 0.02 otherwise |
| Backfill.GenerateDateRange | jpx-dashboard/scripts/backfill/historical_pull.py:241-252 | every day from start to end, ascending; empty when start > end |
| Backfill.DateRangeShape | jpx-dashboard/scripts/backfill/historical_pull.py:241-252 | a generated range is strictly ascending and holds exactly the days between its ends |
| Backfill.DryRunPull | jpx-dashboard/scripts/backfill/historical_pull.py:179-189 | the dry run reports status dry_run, no flights, the date's estimate and airport |
| Backfill.DatesToPull | jpx-dashboard/scripts/backfill/historical_pull.py:306 | the dates to pull are exactly the range dates not stored, never more than the range |
| Backfill.DatesToPullAscending | jpx-dashboard/scripts/backfill/historical_pull.py:306 | a strictly ascending date range gives a strictly ascending list of dates to pull |
| Backfill.NothingStoredPullsAll | jpx-dashboard/scripts/backfill/historical_pull.py:299-306 | with nothing stored every date is pulled |
| Backfill.BackfillLoop | jpx-dashboard/scripts/backfill/historical_pull.py:347-367 | dates are pulled while the running cost is below the limit; the loop stops at the first date where it is not; results, completed dates (successes only), flights and cost are accumulated |
| Backfill.CompletedAreSuccesses | jpx-dashboard/scripts/backfill/historical_pull.py:361-363 | only pulled, successful dates are recorded |
| Writer.Whitelist | jpx-dashboard/src/db/supabase_writer.py:221-227 | the keys are exactly the listed fields present; values are copied, and the two flags become booleans |
| Writer.FlightRecordOf | jpx-dashboard/src/db/supabase_writer.py:206-233 | the keys are the whitelisted fields present, plus raw_json exactly when it is truthy; values are copied and flags become booleans |
| Writer.CoerceFlag | jpx-dashboard/src/db/supabase_writer.py:224-227 | the keys are unchanged, and a present flag becomes its truth value |
| Writer.CopyFields | jpx-dashboard/src/db/supabase_writer.py:221-227 | the comprehension followed by the in-place coercion is the whitelist |
| Writer.PrepareFlightRecord | jpx-dashboard/src/db/supabase_writer.py:206-233 | the prepared record is the flight record described above |
| Writer.PrepareComplaintRecord | jpx-dashboard/src/db/supabase_writer.py:402-424 | only the whitelisted complaint fields that are present are kept, with flags as booleans |
| Writer.WhitelistIdempotent | jpx-dashboard/src/db/supabase_writer.py:221-227 | preparing twice equals preparing once |
| Writer.KeepFirst | jpx-dashboard/src/db/supabase_writer.py:105-111 | dedup never lengthens the list |
| Writer.KeepFirstDistinct | jpx-dashboard/src/db/supabase_writer.py:105-111 | the kept records have truthy, distinct ids and come from the input |
| Writer.KeepFirstComplete | jpx-dashboard/src/db/supabase_writer.py:105-111 | every truthy id of the input is kept, and no other id is |
| Writer.KeepFirstOrder | jpx-dashboard/src/db/supabase_writer.py:105-111 | the kept records are the input records at strictly increasing positions, each at the first position where its id occurs |
| Writer.Deduplicate | jpx-dashboard/src/db/supabase_writer.py:105-111 | the loop with `seen_ids` computes the keep-first list |
| Writer.Batches | jpx-dashboard/src/db/supabase_writer.py:117-118 | every batch is non-empty and at most batch_size long |
| Writer.BatchesConcat | jpx-dashboard/src/db/supabase_writer.py:117-118 | the batches put back together are the list |
| Writer.SendBatches | jpx-dashboard/src/db/supabase_writer.py:117-130 | the batches are sent in order, and the count adds the rows of the batches that did not fail |
| Writer.PreparedFlights | jpx-dashboard/src/db/supabase_writer.py:101 | one prepared record per flight |
| Writer.PrepareAll | jpx-dashboard/src/db/supabase_writer.py:101 | the loop prepares each flight in turn |
| Writer.BatchInsertFlights | jpx-dashboard/src/db/supabase_writer.py:87-133 | the batches sent are the consecutive batch_size slices of the keep-first deduplication of the prepared flights, in order, so they concatenate back to it; each batch has 1..batch_size records, and the count is the sum over successful batches |
| Writer.CountEq | jpx-dashboard/src/db/supabase_writer.py:249-254 | a count is at most the number of flights |
| Writer.CountTruthy | jpx-dashboard/src/db/supabase_writer.py:255 | a count is at most the number of flights |
| Writer.CountEqDisjoint | jpx-dashboard/src/db/supabase_writer.py:249-250 | arrivals + departures <= total |
| Writer.CountEqDisjoint4 | jpx-dashboard/src/db/supabase_writer.py:251-254 | the four category counts add up to at most the total |
| Writer.RegistrationsBounded | jpx-dashboard/src/db/supabase_writer.py:256 | distinct registrations number at most the flights |
| Writer.CalculateDailySummary | jpx-dashboard/src/db/supabase_writer.py:235-273 | None exactly for no flights; otherwise total = number of flights, arrivals + departures <= total, categories <= total, curfew <= total, unique aircraft = distinct truthy registrations <= total, and the weekday name of the date |
| Writer.UpsertDailySummary | jpx-dashboard/src/db/supabase_writer.py:135-169 | a missing or empty summary is not written and gives False; otherwise the summary is sent with its date and time stamp, and success means at least one row came back |
| AeroApi.Insert | jpx-dashboard/src/api/aeroapi.py:63 | insertion keeps the list sorted and adds exactly the item |
| AeroApi.SortItems | jpx-dashboard/src/api/aeroapi.py:63 | `sorted(params.items())` is sorted by name and is a permutation of the items |
| AeroApi.SortedUnique | jpx-dashboard/src/api/aeroapi.py:63 | two sorted lists with the same items are equal |
| AeroApi.MakeKey | jpx-dashboard/src/api/aeroapi.py:61-64 | the key holds the endpoint and the parameters sorted by name, with absent parameters as none |
| AeroApi.MakeKeyOrderFree | jpx-dashboard/src/api/aeroapi.py:61-64 | two requests share a key exactly when endpoint and parameter multiset agree, whatever the order |
| AeroApi.Without | jpx-dashboard/src/api/aeroapi.py:73-77 | removing a key keeps the others, in order, and keeps them distinct |
| AeroApi.PopKeeps | jpx-dashboard/src/api/aeroapi.py:87 | popping the oldest keeps order and store in step |
| AeroApi.EvictOldest | jpx-dashboard/src/api/aeroapi.py:86-87 | the eviction loop drops exactly the oldest keys beyond maxsize, and raises exactly for a negative maxsize |
| AeroApi.Evicted | jpx-dashboard/src/api/aeroapi.py:86-87 | the number evicted is at most the size |
| AeroApi.LRUCache.constructor | jpx-dashboard/src/api/aeroapi.py:56-59 | a new cache is empty, with the given capacity and ttl |
| AeroApi.LRUCache.Get | jpx-dashboard/src/api/aeroapi.py:66-78 | a fresh hit (now - stamp < ttl) is returned and moved to most recent; an expired hit is deleted and gives None; a miss changes nothing |
| AeroApi.LRUCache.Set | jpx-dashboard/src/api/aeroapi.py:80-87 | the value is stored with `now` as most recent; the oldest keys beyond maxsize are evicted; it raises exactly for a negative maxsize |
| AeroApi.LRUCache.Clear | jpx-dashboard/src/api/aeroapi.py:89-91 | the cache is left empty |
| AeroApi.LRUCache.Len | jpx-dashboard/src/api/aeroapi.py:93-94 | the length is the number of keys |
| AeroApi.SetBounds | jpx-dashboard/src/api/aeroapi.py:80-87 | after `set` with maxsize >= 0 the size is at most maxsize; with maxsize > 0 the new key is kept and is most recent |
| AeroApi.FirstMatch | jpx-dashboard/src/api/aeroapi.py:162-164 | the match is the first listed fragment, in declared order, occurring in the endpoint; None means none occurs |
| AeroApi.EstimateCost | jpx-dashboard/src/api/aeroapi.py:160-165 | the cost is the first matching fragment's cost in the table of lines 43-49 times pages, else 0.005 times pages |
| AeroApi.ShouldCache | jpx-dashboard/src/api/aeroapi.py:158-177 | caching happens exactly when it is enabled and the endpoint contains "/aircraft" or "/airports/" |
| AeroApi.CacheableHasListedCost | jpx-dashboard/src/api/aeroapi.py:158 | every cacheable endpoint has a listed cost in the table of lines 43-49, never the default |
| AeroApi.EmptyCacheNeverFilled | jpx-dashboard/src/api/aeroapi.py:185-206 | as written, a cache that starts empty stays empty whatever is requested |
| AeroApi.CacheFilledByCacheable | jpx-dashboard/src/api/aeroapi.py:185-206 | with the intended gate, the cache is filled exactly when a cacheable endpoint was requested |
| AeroApi.FilledAfter | jpx-dashboard/src/api/aeroapi.py:205-206 | a cache that already holds something still does after any run of requests |
| AeroApi.UsesCacheAsWritten | jpx-dashboard/src/api/aeroapi.py:185 | as written, the gate is the intended gate except that it also refuses an empty cache |
| AeroApi.UsesCache | jpx-dashboard/src/api/aeroapi.py:185 | the intended gate uses the cache only when caching is asked for and the endpoint is cacheable, and uses an existing empty cache |
| AeroApi.SepEndFrom | jpx-dashboard/src/api/aeroapi.py:418 | the scan ends after the last separator, or at its start when there is none |
| AeroApi.AfterLast | jpx-dashboard/src/api/aeroapi.py:418 | `split(sep)[-1]` is a suffix without the separator, preceded by it when present, and the whole text otherwise |
| AeroApi.BeforeAmpersand | jpx-dashboard/src/api/aeroapi.py:418 | `split("&")[0]` is the prefix before the first '&' |
| AeroApi.NextCursor | jpx-dashboard/src/api/aeroapi.py:415-418 | a cursor exists exactly when links.next is non-empty and holds "cursor="; it is the text after the last "cursor=" up to the first "&" |
| AeroApi.Detect | jpx-dashboard/src/api/aeroapi.py:405-409 | the detected key is the first candidate present in the page; None means none is present |
| AeroApi.PagesRead | jpx-dashboard/src/api/aeroapi.py:401-418 | at most max_pages are read, every page but the last has a next cursor, and reading stops early only after a page without one |
| AeroApi.PageStep | jpx-dashboard/src/api/aeroapi.py:402-412 | one more page extends the result key and the records |
| AeroApi.CursorsFollowStep | jpx-dashboard/src/api/aeroapi.py:418 | sending the next cursor keeps the cursors in step with the pages |
| AeroApi.FetchAllPagesAsWritten | jpx-dashboard/src/api/aeroapi.py:381-421 | as written, it fails exactly when max_pages <= 0; otherwise it reads the pages above, sends the given and then each next cursor, and returns the records gathered |
| AeroApi.FetchAllPages | jpx-dashboard/src/api/aeroapi.py:381-421 | the corrected loop returns [] with no request for max_pages <= 0, and behaves like the loop as written otherwise |
| AeroApi.PageLoop | jpx-dashboard/src/api/aeroapi.py:401-418 | the page loop reads exactly the pages above, gathers their records and sends the cursors in step |
| AeroApi.StopsAt | jpx-dashboard/src/api/aeroapi.py:416-417 | once a page has no next cursor, no later page is read |
| Weather.SimpleCache.constructor | jpx-dashboard/src/api/weather.py:60-62 | a new cache is empty |
| Weather.SimpleCache.Get | jpx-dashboard/src/api/weather.py:64-70 | a value is returned exactly when the key is stored and younger than the ttl of the call |
| Weather.SimpleCache.Set | jpx-dashboard/src/api/weather.py:72-76 | the value is stamped with `now` and recorded as last valid; it is then returned by `get` for any positive ttl and by `get_fallback` |
| Weather.SimpleCache.GetFallback | jpx-dashboard/src/api/weather.py:78-80 | the last value set under the key is returned, however old, or None |
| Weather.SimpleCache.FallbackBacksEveryEntry | jpx-dashboard/src/api/weather.py:64-80 | a fresh hit equals the fallback, and an expired entry's value is still the fallback |
| Weather.PrimaryIndex | jpx-dashboard/src/api/weather.py:367 | the primary reading is the first of maximal AQI, a missing AQI counting as 0 |
| Weather.LastByParam | jpx-dashboard/src/api/weather.py:370-377 | the table has one entry per parameter name |
| Weather.LastReadingWins | jpx-dashboard/src/api/weather.py:371-377 | each entry is the one of the last reading bearing its name |
| Weather.EntriesFromReadings | jpx-dashboard/src/api/weather.py:371-377 | every entry comes from a reading of its name |
| Weather.CollectPollutants | jpx-dashboard/src/api/weather.py:370-377 | the loop builds the last-wins table |
| Weather.ParseAirQuality | jpx-dashboard/src/api/weather.py:356-389 | no readings gives {}; otherwise the fields come from the primary reading with the pollutant table, and the overall AQI bounds every reading |
| Weather.MainPollutantListed | jpx-dashboard/src/api/weather.py:378-389 | the main pollutant has an entry in the table |
| Weather.CToF | jpx-dashboard/src/api/weather.py:394-398 | None stays None; otherwise a whole number of tenths within 0.05 of c x 9/5 + 32 |
| Weather.KtToMph | jpx-dashboard/src/api/weather.py:401-405 | None stays None; otherwise a whole number of tenths within 0.05 of kt x 1.15078 |
| Weather.CToFFixedPoints | jpx-dashboard/src/api/weather.py:394-405 | 0 C is 32 F, 100 C is 212 F, and 0 kt is 0 mph |
| Weather.ConversionsMonotone | jpx-dashboard/src/api/weather.py:394-405 | both conversions keep order |
| Weather.Clamp | jpx-dashboard/src/api/weather.py:426 | the clamped value lies in 0..100 and is unchanged inside that range |
| Weather.CalcHumidity | jpx-dashboard/src/api/weather.py:408-428 | None when an input is None or a denominator is zero; otherwise within 0..100 |
| Weather.SaturatedAir | jpx-dashboard/src/api/weather.py:421-426 | air at its dewpoint is 100 % humid |
| Weather.GammaMonotone | jpx-dashboard/src/api/weather.py:421-422 | the Magnus term rises with temperature above -237.7 |
| Weather.Gamma | jpx-dashboard/src/api/weather.py:417-422 | above -237.7 the Magnus term has the sign of the temperature, is zero only at 0, and stays below 17.27 |
| Weather.HumidityRisesWithDewpoint | jpx-dashboard/src/api/weather.py:421-426 | with an increasing exp, a higher dewpoint never lowers the humidity |

## Left out

**Outside the computation**
- Text.Strip, Text.IsSpace, Text.IsDigit, Text.Upper, Text.Lower: ASCII only. Python's `str.strip`, `isspace` and `isdigit` also accept other Unicode whitespace and digits (for example U+00A0 is stripped), and `upper` maps some letters to several (`"ß".upper()` is `"SS"`). Every member built on them inherits this: Classify.ClassifyAircraft, EasaParsing.ExtractRecord and EasaParsing.TextAt, EasaParsing.DetermineCategory, Complaints.HouseNumberEnd, Complaints.NormalizeMunicipality, NoiseCalculator.GetNoiseProfile, and Validation.CategoryMismatch through Classify.ClassifyAircraft.
- Backfill.DatesToPull: its own ensures give membership and the length bound; the range order it keeps is stated by Backfill.DatesToPullAscending.
- Complaints.HouseNumberEnd: its own ensures give soundness only; that every text the regex matches gets an answer, and which match it is, is stated by Complaints.HouseNumberEndIsMatch.
- Writer.KeepFirst: its own ensures give only the length bound; its order, first occurrences and ids are stated by Writer.KeepFirstOrder, Writer.KeepFirstDistinct and Writer.KeepFirstComplete.
- Complaints.StripHouseNumber: its own ensures give only the empty case and the length bound; what it removes is stated by Complaints.StripHouseNumberRemovesToken, Complaints.HouseNumberEndIsMatch and Complaints.StreetNameKept.
- Network, databases, files and logging: HTTP requests, retries and sleeps in `AeroAPIClient._get`, the Supabase and SQLite clients, pandas and Excel reading, JSON files, `print` and logging. Their results are inputs: pages, answers, rows, parsed cells and the profile table.
- Time-zone conversion and date parsing (`utc_to_eastern`, `strptime`, `fromisoformat`, `parse_event_datetime`, `parse_submission_date`): dates are day numbers, and ET hours are inputs. The ISO-format checks of `validate_timestamps` (validate_data.py:202-219) are not modelled; only its hour check is.
- Clocks: `time.time()` and `datetime.now()` are the `now` parameters.
- The md5 digest in `_make_key`: the key is its preimage (endpoint and sorted parameters), so distinct requests never collide.
- Floating point: reals are exact. `round` rounds ties to even on exact values, so representation error is not modelled.
- Transcendental functions (log10, sqrt, sin, cos, atan2, haversine, exp) are parameters. The geometry and the humidity formula are therefore proved only relative to them.
- `exp` overflow in `_calc_humidity`: an OverflowError is not caught by the source, and it is not modelled.
- Concurrency: the LRU cache is modelled sequentially.
- `insert_flight`, `get_complaints`, `geocode_address`, `load_csv`, `process_row`, `main` and the report printers are left out: they are I/O wrappers around the modelled functions.

**Modelling choices**
- Python dict key equality (True == 1 == 1.0 as keys) is not modelled. Row values are compared with `PyEq` only where the source compares values.
- Set iteration order: `compare_flights` iterates a set, so its differences are specified without an order.
- NoiseCalculator.Bearing: the bearing is computed from an abstract `atan2` result, and haversine symmetry is not proved.
- ClassifyTests: the examples that need a code to be absent from a large set (GLF5, C560, C172, SR22, PA28, ZZZZ) are not stated. Proving a literal absent from the type sets is too costly for the solver. The precedence lemma states the rule in general.
- AeroApi.FetchAllPages: the values under a result key are taken to be lists. `links` is read as an optional string. `params` is not echoed back.
- AeroApi.AfterLast: it equals `split("cursor=")[-1]` because "cursor=" cannot overlap itself.
- AeroApi.MakeKey: parameter names are required distinct, as dictionary keys are.
- AeroApi.EstimateCost: the literal cost of a particular endpoint is not stated as an example.
- Validation.ValidateCategory: requires a truthy `aircraft_type` to be a string. The source raises AttributeError from `.strip()` otherwise.
- Validation.ValidateCurfewFlag: requires the hour to be None or a number. The source raises TypeError from the comparison otherwise.
- Validation.ValidationResult.Error: messages are not formatted. An issue records the flight id, the field and the severity.
- Writer.BatchInsertFlights: requires a positive batch size. `range` raises ValueError for 0, and a negative size sends nothing.
- Writer.UpsertDailySummary: the recalculated summary is an input.
- Complaints.MatchComplaintToFlight: a candidate is a record with the fields used. An empty candidate row, which Python would treat as falsy at load_complaints.py:342, is not modelled.
- Complaints.Title: `str.title` is modelled on ASCII letters.
- EasaParsing.ExtractRecord: a cell carries its text and its parsed number. The parsing itself (`_parse_float`) is left out, and so are exceptions raised inside a row.
- `run_validation`, `create_fallback_data` and the EASA `save_outputs` are orchestration or static data and are left out.

## Findings

| source | as written | input that shows it | evidently intended | confidence | as-written member | corrected member |
|---|---|---|---|---|---|---|
| jpx-dashboard/src/analysis/noise_calculator.py:419, 449 | `closest_ft` starts at `float("inf")` and is only lowered inside the track loop, then passed to `round` | an empty track (`track=[]`) with the default observers: `round(float("inf"))` raises OverflowError, so the zero max/avg branches at lines 411-412 are never returned | an empty track is summarised with zero values | high (not executed) | NoiseCalculator.FlightNoiseImpactAsWritten, NoiseCalculator.EmptyTrackOverflows | NoiseCalculator.FlightNoiseImpact |
| jpx-dashboard/src/api/aeroapi.py:185, 205-206 | the cache is read and written only `if use_cache and self._should_cache(endpoint) and self._cache`, and LRUCache defines `__len__` but no `__bool__` | a new client with caching enabled: the empty cache is falsy, so `set` is never reached and the cache stays empty for ever | test `self._cache is not None` | high (not executed) | AeroApi.EmptyCacheNeverFilled | AeroApi.CacheFilledByCacheable |
| jpx-dashboard/src/api/aeroapi.py:401, 420 | `page_num` is only bound inside `for page_num in range(max_pages)` and is read at the log line after the loop | `fetch_all_pages(endpoint, max_pages=0)`: UnboundLocalError | return an empty list | high (not executed) | AeroApi.FetchAllPagesAsWritten | AeroApi.FetchAllPages |
