/** The flood analyzer: a weighted counter over three bands (maximum
    precipitation, land-cover class, surface-water occurrence) mapped to a
    category 0/1/2, or -1 when the query fails. */
module Flood {
  import opened Readings

  const PrecipThreshold: real := 30.0
  const WaterOccurrenceThreshold: real := 10.0

  /** The land-cover classes counted as flood-prone (`[50, 60]`). */
  predicate FloodProneCover(code: real) { code == 50.0 || code == 60.0 }

  datatype FloodQuery =
    | FloodQueryFailed
    | FloodMeasured(precipitation: Reading, landCover: Reading, waterOccurrence: Reading)

  /** Each condition fires only on a band that carries a value. */
  predicate RainTriggers(q: FloodQuery)
  {
    q.FloodMeasured? && q.precipitation.Value? && q.precipitation.v > PrecipThreshold
  }

  predicate CoverTriggers(q: FloodQuery)
  {
    q.FloodMeasured? && q.landCover.Value? && FloodProneCover(q.landCover.v)
  }

  predicate WaterTriggers(q: FloodQuery)
  {
    q.FloodMeasured? && q.waterOccurrence.Value? && q.waterOccurrence.v > WaterOccurrenceThreshold
  }

  /** The counter `riesgo` the analyzer accumulates: one point for rain, one
      for land cover, two for water occurrence. */
  function TriggerCount(q: FloodQuery): (n: nat)
    ensures n <= 4
    ensures n == 0 <==> !RainTriggers(q) && !CoverTriggers(q) && !WaterTriggers(q)
    ensures n >= 3 <==> WaterTriggers(q) && (RainTriggers(q) || CoverTriggers(q))
  {
    (if RainTriggers(q) then 1 else 0)
    + (if CoverTriggers(q) then 1 else 0)
    + (if WaterTriggers(q) then 2 else 0)
  }

  /** The category the analyzer returns: 2 from three points on, 1 from one
      point on, 0 when nothing fired, -1 when the query failed. */
  function FloodCategory(q: FloodQuery): (c: int)
    ensures c == -1 <==> q.FloodQueryFailed?
    ensures c == 2 <==> WaterTriggers(q) && (RainTriggers(q) || CoverTriggers(q))
    ensures c == 1 <==> (RainTriggers(q) || CoverTriggers(q) || WaterTriggers(q))
                        && !(WaterTriggers(q) && (RainTriggers(q) || CoverTriggers(q)))
    ensures c == 0 <==> q.FloodMeasured? && !RainTriggers(q) && !CoverTriggers(q) && !WaterTriggers(q)
  {
    if q.FloodQueryFailed? then -1
    else
      var n := TriggerCount(q);
      if n >= 3 then 2 else if n >= 1 then 1 else 0
  }

  /** `analizar_riesgo_inundacion_robusto`: the counter is built one band at a
      time, a None band being skipped. */
  method AnalyzeFlood(q: FloodQuery) returns (category: int)
    ensures category == FloodCategory(q)
  {
    if q.FloodQueryFailed? {
      return -1;
    }
    var precip, cover, occurrence := Get(q.precipitation), Get(q.landCover), Get(q.waterOccurrence);
    var riesgo := 0;
    if precip.Some? && precip.value > PrecipThreshold {
      riesgo := riesgo + 1;
    }
    if cover.Some? && FloodProneCover(cover.value) {
      riesgo := riesgo + 1;
    }
    if occurrence.Some? && occurrence.value > WaterOccurrenceThreshold {
      riesgo := riesgo + 2;
    }
    assert riesgo == TriggerCount(q);
    category := if riesgo >= 3 then 2 else if riesgo >= 1 then 1 else 0;
  }

  /** A band that is missing or None never raises the category: it is
      classified as if it had been measured below every threshold. */
  lemma {:induction false} MissingBandNeverCounts(q: FloodQuery, low: FloodQuery)
    requires q.FloodMeasured? && low.FloodMeasured?
    requires !q.precipitation.Value? ==> low.precipitation == Value(0.0)
    requires q.precipitation.Value? ==> low.precipitation == q.precipitation
    requires !q.landCover.Value? ==> low.landCover == Value(0.0)
    requires q.landCover.Value? ==> low.landCover == q.landCover
    requires !q.waterOccurrence.Value? ==> low.waterOccurrence == Value(0.0)
    requires q.waterOccurrence.Value? ==> low.waterOccurrence == q.waterOccurrence
    ensures FloodCategory(q) == FloodCategory(low)
  {
    assert RainTriggers(q) == RainTriggers(low);
    assert CoverTriggers(q) == CoverTriggers(low);
    assert WaterTriggers(q) == WaterTriggers(low);
  }
}
