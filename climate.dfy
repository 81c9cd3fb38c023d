/** The climate analyzer: the most frequent day and night surface
    temperatures and three warming-trend levels, collected in a dictionary
    that is empty when anything fails. */
module Climate {
  import opened Readings
  import Regression

  /** One year's reduced statistics: each of the three keys may be missing
      or None. */
  datatype YearStats = YearStats(max: Reading, mean: Reading, min: Reading)

  /** The two histogram modes (None when a band had no temperatures) and the
      per-year statistics for 2010..2022; or a failure of any remote query. */
  datatype ClimateQuery =
    | ClimateQueryFailed
    | ClimateMeasured(frequentDay: Option<real>, frequentNight: Option<real>, years: seq<YearStats>)

  /** A value of the result dictionary: a temperature or a trend level. */
  datatype ClimateValue = Temperature(celsius: Option<real>) | Trend(level: int)

  const FrequentDayKey := "Temp_Max_Frec_Dia"
  const FrequentNightKey := "Temp_Max_Frec_Noche"
  const TrendMaxKey := "Tendencia_Max"
  const TrendMeanKey := "Tendencia_Media"
  const TrendMinKey := "Tendencia_Min"

  const SteepSlope: real := 0.1

  /** The five-level classification of a fitted slope. On the cooling side
      the levels are swapped with respect to the warming side: a slope below
      -0.1 is -1 and a slope in [-0.1, 0) is -2. */
  function TrendLevel(slope: real): (level: int)
    ensures level == 2 <==> slope > SteepSlope
    ensures level == 1 <==> 0.0 < slope <= SteepSlope
    ensures level == 0 <==> slope == 0.0
    ensures level == -2 <==> -SteepSlope <= slope < 0.0
    ensures level == -1 <==> slope < -SteepSlope
  {
    if slope > SteepSlope then 2
    else if slope > 0.0 then 1
    else if slope < -SteepSlope then -1
    else if slope < 0.0 then -2
    else 0
  }

  /** The level keeps the sign of the slope, and on the warming side it never
      decreases as the slope grows. */
  lemma TrendLevelSign(s1: real, s2: real)
    requires 0.0 <= s1 <= s2
    ensures TrendLevel(s1) <= TrendLevel(s2)
    ensures TrendLevel(-s2) < 0 <==> s2 > 0.0
  {
  }

  /** The values of the readings that carry one, in order; missing keys and
      None values are skipped. */
  function Present(rs: seq<Reading>): (vs: seq<real>)
    ensures |vs| <= |rs|
    ensures forall x :: x in vs <==> Value(x) in rs
  {
    if rs == [] then []
    else
      var rest := Present(rs[1..]);
      assert forall r :: r in rs <==> r == rs[0] || r in rs[1..];
      if rs[0].Value? then [rs[0].v] + rest else rest
  }

  /** Skipped entries anywhere leave the fitted series unchanged. */
  lemma {:induction false} PresentAppend(rs: seq<Reading>, ts: seq<Reading>)
    ensures Present(rs + ts) == Present(rs) + Present(ts)
  {
    if rs != [] {
      assert (rs + ts)[1..] == rs[1..] + ts;
      PresentAppend(rs[1..], ts);
    } else {
      assert rs + ts == ts;
    }
  }

  /** `get_trend`: 0 with fewer than two values, otherwise the level of the
      least-squares slope over the positions of the remaining values. */
  function GetTrend(rs: seq<Reading>): (level: int)
    ensures -2 <= level <= 2
    ensures |Present(rs)| < 2 ==> level == 0
    ensures |Present(rs)| >= 2 ==> level == TrendLevel(Regression.Slope(Present(rs)))
  {
    var data := Present(rs);
    if |data| < 2 then 0 else TrendLevel(Regression.Slope(data))
  }

  /** Years whose value is missing do not change the trend. */
  lemma SkippedYearsIgnored(rs: seq<Reading>, ts: seq<Reading>)
    requires forall i :: 0 <= i < |ts| ==> !ts[i].Value?
    ensures GetTrend(rs + ts) == GetTrend(rs)
    ensures GetTrend(ts + rs) == GetTrend(rs)
  {
    PresentAppend(rs, ts);
    PresentAppend(ts, rs);
    NoneSkipped(ts);
    assert Present(rs) + [] == Present(rs);
    assert [] + Present(rs) == Present(rs);
  }

  lemma {:induction false} NoneSkipped(ts: seq<Reading>)
    requires forall i :: 0 <= i < |ts| ==> !ts[i].Value?
    ensures Present(ts) == []
  {
    if ts != [] {
      NoneSkipped(ts[1..]);
    }
  }

  /** Values lying on the line a + b·i give the level of b. */
  lemma LinearSeriesTrend(rs: seq<Reading>, a: real, b: real)
    requires |Present(rs)| >= 2
    requires Present(rs) == seq(|Present(rs)|, i => a + b * i as real)
    ensures GetTrend(rs) == TrendLevel(b)
  {
    Regression.LineSlope(|Present(rs)|, a, b);
  }

  /** Values that stay the same give level 0. */
  lemma ConstantSeriesTrend(rs: seq<Reading>, c: real)
    requires Present(rs) == seq(|Present(rs)|, i => c)
    ensures GetTrend(rs) == 0
  {
    if |Present(rs)| >= 2 {
      Regression.ConstantSlope(|Present(rs)|, c);
    }
  }

  function Maxima(years: seq<YearStats>): seq<Reading> { seq(|years|, i requires 0 <= i < |years| => years[i].max) }
  function Means(years: seq<YearStats>): seq<Reading> { seq(|years|, i requires 0 <= i < |years| => years[i].mean) }
  function Minima(years: seq<YearStats>): seq<Reading> { seq(|years|, i requires 0 <= i < |years| => years[i].min) }

  /** `analizar_clima_temperaturas`: the dictionary is filled key by key; a
      failure anywhere leaves it empty. */
  method AnalyzeClimate(q: ClimateQuery) returns (resultados: map<string, ClimateValue>)
    ensures q.ClimateQueryFailed? ==> resultados == map[]
    ensures q.ClimateMeasured? ==>
              resultados.Keys == {FrequentDayKey, FrequentNightKey, TrendMaxKey, TrendMeanKey, TrendMinKey}
    ensures q.ClimateMeasured? ==>
              && resultados[FrequentDayKey] == Temperature(q.frequentDay)
              && resultados[FrequentNightKey] == Temperature(q.frequentNight)
              && resultados[TrendMaxKey] == Trend(GetTrend(Maxima(q.years)))
              && resultados[TrendMeanKey] == Trend(GetTrend(Means(q.years)))
              && resultados[TrendMinKey] == Trend(GetTrend(Minima(q.years)))
  {
    if q.ClimateQueryFailed? {
      return map[];
    }
    resultados := map[];
    resultados := resultados[FrequentDayKey := Temperature(q.frequentDay)];
    resultados := resultados[FrequentNightKey := Temperature(q.frequentNight)];
    resultados := resultados[TrendMaxKey := Trend(GetTrend(Maxima(q.years)))];
    resultados := resultados[TrendMeanKey := Trend(GetTrend(Means(q.years)))];
    resultados := resultados[TrendMinKey := Trend(GetTrend(Minima(q.years)))];
  }

  /** `row.get('Tendencia_Max', 0)` on the dictionary merged into the row: a
      missing key reads as 0. */
  function TrendMaxOf(clima: map<string, ClimateValue>): (t: int)
    ensures TrendMaxKey !in clima ==> t == 0
  {
    if TrendMaxKey in clima && clima[TrendMaxKey].Trend? then clima[TrendMaxKey].level else 0
  }

  /** The warming-trend level the certificate reads for a query. */
  function ClimateTrendMax(q: ClimateQuery): (t: int)
    ensures -2 <= t <= 2
    ensures q.ClimateQueryFailed? ==> t == 0
  {
    if q.ClimateQueryFailed? then 0 else GetTrend(Maxima(q.years))
  }
}
