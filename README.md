# GeoRisk scoring engine — a Dafny model

This project models the scoring and certificate engine of the GeoRisk
service (`app/services/risk_analysis.py`). The engine turns a point into a
multi-hazard certificate. Four analyzers score the point:

- landslide: weighted slope, fault-distance and rainfall factors;
- flood: a weighted counter over three bands;
- fire: a historical-fire flag plus an environmental counter;
- climate: frequent temperatures and least-squares warming trends.

A fifth analyzer (volcanic) is computed, but the certificate never reads it.
`generar_certificado` turns the results into three indicators (soil, water,
fire) with penalties 40/15/0, 50/20/0 and 20/0. It then computes the score
`max(0, 100 − Σ)`, a seal at the 80/50 cut-offs and a colour.

What the remote backend answers (band values, fault distance, the catalogue
rows, volcano counts, per-year temperature statistics) is an input datatype
per analyzer. Each band is one of three things:

- `Absent`: the key is missing from the dictionary;
- `Null`: the key is present with `None`;
- `Value(v)`: a number.

That distinction decides between a `dict.get` default and a comparison
that raises.

Modules, one per concern of the source file:

- `Readings`: band values.
- `Numerals`: digit strings, `str.strip`, `str.upper`.
- `Rounding`: Python's `round`, ties to even.
- `Landslide`, `Flood`, `Dms` (the `dms_to_decimal` parser), `Fire`,
  `Volcanic`.
- `Regression`: the exact least-squares slope, as an independent reference
  for `np.polyfit`.
- `Climate`.
- `Certificate`.

`AnalyzeFlood`, `AnalyzeFire`, `AnalyzeClimate` and `GenerateCertificate`
are methods that update their counters, dictionary and indicator list step
by step, as the source does. Each is proved equal to a specification
function, and the properties are proved about those functions.

Behaviour of `app/services/risk_analysis.py` that the model keeps as written:

- Lines 49-50: the landslide score is the weighted sum of the three factors,
  multiplied by 10. Line 56: a failed landslide analysis returns -1 with the
  label "Error".
- Lines 101-106: the fire index is the historical flag plus a counter over
  mean precipitation (< 5), land-surface temperature (> 303.15 K) and NDVI
  (< 0.3), so it ranges over 0..4. Line 107: a failed fire analysis
  returns -1.
- Line 139: a trend slope below -0.1 gives -1, and a slope in [-0.1, 0)
  gives -2.
- Lines 45-50 and 173-181: with the default weights a successful landslide
  analysis scores at least 2.5, so the soil indicator always takes at least
  15 points (`Certificate.SuccessfulLandslideNeverStable`). A point with
  slope 5°, precipitation 10 mm and no other hazard scores 85
  (`Certificate.GentleDryScenario`).
- Lines 90-91: the fire catalogue's geometry is built from the full
  converted columns, while the frame keeps only the rows that survive
  `dropna`. A single unconvertible coordinate cell therefore makes the whole
  fire analysis return -1; the row is not simply dropped.

## Model

| member | source | states |
|---|---|---|
| Landslide.SlopeFactor | app/services/risk_analysis.py:45 | slope factor in [0.25, 1], 1 exactly from the critical slope on |
| Landslide.FaultFactor | app/services/risk_analysis.py:46 | fault factor in [0.3, 1]; an empty fault catalogue (infinite distance) gives 0.3 |
| Landslide.RainFactor | app/services/risk_analysis.py:47 | rain factor in [0.2, 1], 1 exactly above the high rainfall threshold |
| Landslide.RiskLabel | app/services/risk_analysis.py:51 | each of the four labels holds exactly on its score band (≥7.5, [5,7.5), [2.5,5), <2.5) |
| Landslide.AnalyzeLandslide | app/services/risk_analysis.py:35-56 | the error result (-1, "Error") exactly when the query fails or a band is None; otherwise the score rounded to one decimal and the label of the weighted risk |
| Landslide.WeightedRiskMonotone | app/services/risk_analysis.py:17-26 | for any cut-offs and non-negative weights the weighted risk rises with slope and rainfall and falls as the fault moves away |
| Landslide.WeightedRiskBounds | app/services/risk_analysis.py:49-50 | for any cut-offs and non-negative weights the weighted risk lies between 10·(0.25·w_slope + 0.3·w_fault + 0.2·w_rain) and 10·(w_slope + w_fault + w_rain); with the default weights, in [2.5, 10] |
| Landslide.LandslideMonotone | app/services/risk_analysis.py:45-53 | the reported (rounded) score is monotone in the measurements |
| Landslide.DefaultRiskGrid | app/services/risk_analysis.py:17-26 | with the default configuration the weighted risk lies in [2.5, 10] and has at most one decimal |
| Landslide.DefaultLandslideBounds | app/services/risk_analysis.py:45-53 | a successful default analysis reports a score in [2.5, 10], never "Bajo", and its label agrees with the reported score |
| Rounding.RoundHalfEven | app/services/risk_analysis.py:53 | `round`: within 0.5 of the argument, and even on a tie |
| Rounding.Round1 | app/services/risk_analysis.py:53 | `round(x, 1)` is within 0.05 of x and has at most one decimal |
| Rounding.Round1Monotone | app/services/risk_analysis.py:53 | `round(x, 1)` preserves order |
| Rounding.Round1Exact | app/services/risk_analysis.py:53 | `round(x, 1)` leaves a one-decimal value unchanged |
| Flood.TriggerCount | app/services/risk_analysis.py:68-71 | the counter is in [0, 4]; it is 0 iff no condition fired, and ≥3 iff water fired together with rain or cover |
| Flood.FloodCategory | app/services/risk_analysis.py:72-75 | -1 iff the query failed; 2, 1 and 0 each iff their trigger combination holds |
| Flood.AnalyzeFlood | app/services/risk_analysis.py:58-75 | the imperative counter returns `FloodCategory` |
| Flood.MissingBandNeverCounts | app/services/risk_analysis.py:69-71 | a missing or None band gives the same category as a band measured at 0 |
| Numerals.StripAround | app/services/risk_analysis.py:81 | `strip()` removes leading whitespace and keeps a body that ends in a non-space character |
| Dms.MatchDms | app/services/risk_analysis.py:81-83 | a match yields well-formed groups whose rendering is a prefix of the text |
| Dms.MatchDmsComplete | app/services/risk_analysis.py:81-83 | a rendering followed by any text matches with exactly its groups |
| Dms.FloatValue | app/services/risk_analysis.py:84 | `float()` of a non-empty run of digits reads its decimal value |
| Dms.FloatValueDecimal | app/services/risk_analysis.py:84 | `float()` of digits, one dot and digits (either side may be empty, not both) reads the whole part plus the fraction |
| Dms.FloatValueDefined | app/services/risk_analysis.py:84 | `float()` of a digits-and-dots group is defined iff it has at most one dot and at least one digit |
| Dms.SecondsRaise | app/services/risk_analysis.py:84 | a non-empty seconds group makes `float()` raise iff it has two or more dots or is a lone dot |
| Dms.DmsToDecimal | app/services/risk_analysis.py:79-85 | no match iff the cell is not text or the stripped text does not match the pattern; raises iff it matches with a seconds group of two or more dots or a lone dot |
| Dms.DmsRoundTrip | app/services/risk_analysis.py:79-85 | a rendered D°M'S" X, padded with leading whitespace and followed by any text, converts back to ±(D + M/60 + S/3600), negative exactly for S, O and W |
| Dms.DmsDecimalRoundTrip | app/services/risk_analysis.py:79-85 | the same round trip with decimal seconds S.F: the seconds read as S plus the fraction F, so the cell converts back to ±(D + M/60 + (S + 0.F)/3600) |
| Dms.MalformedSecondsRaise | app/services/risk_analysis.py:84 | a seconds group with two or more dots matches but makes `float()` raise |
| Fire.ApplyColumn | app/services/risk_analysis.py:90 | the column raises iff some cell raises; otherwise it holds each cell's value or None |
| Fire.Catalogue | app/services/risk_analysis.py:88-91 | a catalogue exists iff every coordinate converts, and then holds each row's decimal point and burned area in order |
| Fire.CountLargeNearbyPositive | app/services/risk_analysis.py:94 | the count is positive iff some catalogued fire is both near and larger than 200 |
| Fire.HistoricalFlag | app/services/risk_analysis.py:94 | the flag is 1 iff such a fire exists, and 0 otherwise |
| Fire.EnvironmentalCount | app/services/risk_analysis.py:101-105 | at most 3, and the sum of the dry, hot and sparse conditions; the defaults (10 and 0) never fire a condition |
| Fire.IndexOf | app/services/risk_analysis.py:94-106 | in [-1, 4]; -1 iff there is no catalogue or the precipitation or temperature band is None; otherwise the historical flag plus the environmental count |
| Fire.FireIndex | app/services/risk_analysis.py:77-107 | in [-1, 4]; -1 iff something failed; otherwise the historical flag plus the environmental count |
| Fire.AnalyzeFire | app/services/risk_analysis.py:77-107 | the analyzer returns `FireIndex` |
| Fire.CombineIndex | app/services/risk_analysis.py:94-106 | the imperative counter returns `IndexOf` of the catalogue and the bands |
| Fire.UnconvertibleCellFails | app/services/risk_analysis.py:90-91 | one coordinate cell that does not convert makes the index -1 |
| Volcanic.VolcanicLevel | app/services/risk_analysis.py:115-117 | -1 iff the query failed; 0, 1 and 2 each iff the count is 0, 1..4 and ≥5 |
| Volcanic.VolcanicLevelMonotone | app/services/risk_analysis.py:116 | more volcanoes never lower the level |
| Regression.SpreadPositive | app/services/risk_analysis.py:138 | with at least two values the least-squares denominator is positive, so the slope is defined |
| Regression.NormalEquations | app/services/risk_analysis.py:138 | the least-squares slope with the intercept that zeroes the residual sum also satisfies the second normal equation Σ i·y_i = a·Σi + b·Σi² |
| Regression.Slope | app/services/risk_analysis.py:138 | the fitted slope b satisfies both normal equations of the degree-1 fit over positions 0..n-1 |
| Regression.AddLineSlope | app/services/risk_analysis.py:138 | adding the line a + b·i to the data adds b to the fitted slope |
| Regression.LineSlope | app/services/risk_analysis.py:138 | data on the line a + b·i has slope b |
| Regression.ConstantSlope | app/services/risk_analysis.py:138 | constant data has slope 0 |
| Climate.TrendLevel | app/services/risk_analysis.py:139 | each of the five levels holds exactly on its slope band, with the negative side as written |
| Climate.TrendLevelSign | app/services/risk_analysis.py:139 | on the warming side the level is monotone; a negative slope gives a negative level |
| Climate.Present | app/services/risk_analysis.py:136 | exactly the values that are present are kept, and the result is no longer than the input |
| Climate.PresentAppend | app/services/risk_analysis.py:136 | filtering distributes over concatenation |
| Climate.GetTrend | app/services/risk_analysis.py:135-139 | in [-2, 2]; 0 with fewer than two present values; otherwise the level of the least-squares slope |
| Climate.SkippedYearsIgnored | app/services/risk_analysis.py:136 | years without a value before or after the data leave the trend unchanged |
| Climate.LinearSeriesTrend | app/services/risk_analysis.py:135-139 | data on a line of slope b gives the level of b |
| Climate.ConstantSeriesTrend | app/services/risk_analysis.py:135-139 | constant data gives level 0 |
| Climate.AnalyzeClimate | app/services/risk_analysis.py:119-144 | an empty dictionary on failure; otherwise exactly the five keys, holding the two modes and the three trends |
| Climate.TrendMaxOf | app/services/risk_analysis.py:214 | a missing `Tendencia_Max` reads as 0 |
| Climate.ClimateTrendMax | app/services/risk_analysis.py:214 | the trend the certificate reads is in [-2, 2], and 0 when the climate analysis failed |
| Certificate.SoilAssessment | app/services/risk_analysis.py:172-181 | penalty 40/15/0 each iff the score is ≥5, in [2.5,5), <2.5; colour red/yellow/green iff the matching penalty |
| Certificate.WaterAssessment | app/services/risk_analysis.py:192-201 | penalty 50/20/0 each iff the category is ≥2, ==1, ≤0; colour red/yellow/green iff the matching penalty |
| Certificate.FireAssessment | app/services/risk_analysis.py:212-219 | penalty 20 iff index > 0 or trend ≥ 2, else 0; yellow iff 20 |
| Certificate.TotalPenalty | app/services/risk_analysis.py:170-217 | the sum of the three section penalties, at most 110 |
| Certificate.ClampScore | app/services/risk_analysis.py:230 | in [0, 100] for a non-negative penalty; 0 iff the penalty is ≥100; otherwise score + penalty = 100 |
| Certificate.Seal | app/services/risk_analysis.py:231-236 | each of the three seals iff the score is ≥80, in [50,80), <50 |
| Certificate.GlobalColor | app/services/risk_analysis.py:252 | green/orange/red each iff the score is ≥80, in [50,80), <50 |
| Certificate.CertificateId | app/services/risk_analysis.py:240 | "GR-" followed by the first eight characters of the identifier, upper-cased |
| Certificate.FireSummary | app/services/risk_analysis.py:224 | the fire summary is the index label, the index, the trend label and the trend, each piece found again at its position |
| Certificate.FireSummaryReadable | app/services/risk_analysis.py:224 | two summaries are equal only when both the index and the trend are equal |
| Certificate.Assemble | app/services/risk_analysis.py:169-259 | three indicators in the order suelo, agua, fuego, each with the score, state and colour of its section; a score in [0, 100] equal to the clamped total penalty; the seal and colour of that score; the identifier, date, version and property fields |
| Certificate.GenerateCertificate | app/services/risk_analysis.py:146-260 | the certificate is the assembly of the four analyzers' results, and the volcanic result is not among them |
| Certificate.Certify | app/services/risk_analysis.py:146-260 | the score is the clamped total penalty of the landslide score, flood category, fire index and warming trend of the measurements, which the three indicators report; the property fields are the arguments |
| Certificate.ScoreAnalyses | app/services/risk_analysis.py:169-259 | the imperative section-by-section build yields `Assemble` of the four results |
| Certificate.VolcanicIgnored | app/services/risk_analysis.py:153 | changing the volcanic measurements never changes the certificate |
| Certificate.SentinelsAddNoPenalty | app/services/risk_analysis.py:173-219 | the -1 failure results of the landslide, flood and fire analyzers take no points; the fire indicator then depends only on the trend |
| Certificate.AllFailuresScoreFull | app/services/risk_analysis.py:54-56 | when every analysis fails the certificate reads 100, the best seal and green |
| Certificate.SuccessfulLandslideNeverStable | app/services/risk_analysis.py:173-181 | a successful default landslide analysis always takes at least 15 points, so the score is at most 85 |
| Certificate.ScoreAntitone | app/services/risk_analysis.py:170-230 | worse results never lower the penalty nor raise the score |
| Certificate.SteepWetFloodedScenario | app/services/risk_analysis.py:146-252 | slope 35°, rain 200 mm, flood 2, fire 1 give score 0, the worst seal and red |
| Certificate.GentleDryScenario | app/services/risk_analysis.py:146-252 | slope 5°, rain 10 mm, flood 0, fire 0, no steep warming give score 85, the best seal and green |

## Left out

- The Earth Engine, geemap and geopandas calls, the CSV reads and `getInfo()` are outside the model. Their answers are the inputs of each analyzer. Any exception they raise is the analyzer's failure case.
- The spatial tests (within 50 km of the point, nearest fault distance, volcanoes within 100 km with category ≥ 3) are not computed. They are a predicate parameter, an input distance and an input count.
- The histogram mode of `get_frequent_temp` (50 bins, modal-bin midpoint) is not computed. The two modes are inputs (None when there were no samples).
- Climate.GetTrend: the slope is the exact least-squares slope over real numbers. The floating-point rounding of `np.polyfit` is not modelled, so a slope that is zero only up to rounding noise may be classified differently.
- The year range 2010..2022 is not enforced on the per-year statistics sequence.
- `uuid.uuid4()` and `datetime.now()` are not modelled. Their texts are parameters of `GenerateCertificate`.
- Logging is not modelled.
- Numerals.ToUpper upper-cases ASCII letters only. `\d` in the pattern accepts ASCII digits only. A `uuid4` text is lower-case hexadecimal, so the identifier is unaffected.
- Landslide.AnalyzeLandslide computes the `factores` block, but the certificate never reads it. The rendering of the integer -1 versus the float -1.0 in the error dictionary is not distinguished.
- The `.get('riesgo_final', 0)` default on line 173 is never taken: both result shapes carry the key.
- Columns of the fire file other than the two coordinates and `SUPERFICIE` are not modelled. The header whitespace `str.strip()` is not modelled either.
- The `row` dictionary of line 157 is not modelled beyond `Tendencia_Max`. The certificate reads only that key.
- Concurrency is not modelled: the source runs the analyzers one after another.
