/** The landslide analyzer: three step factors (slope, distance to the nearest
    catalogued fault, maximum precipitation) weighted, scaled to 0..10 and labelled. */
module Landslide {
  import opened Readings
  import Rounding

  /** Cut-offs of the three factors (`UmbralesRiesgo`). */
  datatype Thresholds = Thresholds(
    slopeCritical: real, slopeHigh: real, slopeModerate: real,
    faultCritical: real, faultModerate: real,
    rainHigh: real, rainModerate: real)

  const DefaultThresholds := Thresholds(30.0, 20.0, 10.0, 5000.0, 10000.0, 150.0, 100.0)

  /** Weights of the three factors (`PesosFactores`). */
  datatype Weights = Weights(slope: real, fault: real, rain: real)

  const DefaultWeights := Weights(0.40, 0.30, 0.30)

  predicate NonNegative(w: Weights) { w.slope >= 0.0 && w.fault >= 0.0 && w.rain >= 0.0 }

  /** Distance in metres to the nearest catalogued fault; an empty catalogue
      gives `float('inf')`. */
  datatype FaultDistance = NoFaults | Nearest(meters: real)

  /** `a <= b`, reading NoFaults as infinity. */
  predicate NoFarther(a: FaultDistance, b: FaultDistance)
  {
    b.NoFaults? || (a.Nearest? && a.meters <= b.meters)
  }

  /** What the backend answered: slope and precipitation bands and the fault
      distance, or a failure of any of the remote or file queries. */
  datatype LandslideQuery =
    | LandslideQueryFailed
    | LandslideMeasured(slope: Reading, precipitation: Reading, fault: FaultDistance)

  /** The `factores` block: rounded slope, rounded fault distance (None for 'N/A'),
      rounded precipitation. */
  datatype Factors = Factors(slopeDegrees: real, faultDistanceM: Option<int>, maxPrecipitationMm: int)

  datatype LandslideResult = LandslideResult(riesgoFinal: real, etiqueta: string, factores: Option<Factors>)

  const ErrorResult := LandslideResult(-1.0, "Error", None)

  function SlopeFactor(slope: real, th: Thresholds): (f: real)
    ensures 0.25 <= f <= 1.0
    ensures f == 1.0 <==> slope >= th.slopeCritical
  {
    if slope >= th.slopeCritical then 1.0
    else if slope >= th.slopeHigh then 0.75
    else if slope >= th.slopeModerate then 0.5
    else 0.25
  }

  function FaultFactor(d: FaultDistance, th: Thresholds): (f: real)
    ensures 0.3 <= f <= 1.0
    ensures d.NoFaults? ==> f == 0.3
  {
    match d
    case NoFaults => 0.3
    case Nearest(m) =>
      if m < th.faultCritical then 1.0
      else if m < th.faultModerate then 0.6
      else 0.3
  }

  function RainFactor(precip: real, th: Thresholds): (f: real)
    ensures 0.2 <= f <= 1.0
    ensures f == 1.0 <==> precip > th.rainHigh
  {
    if precip > th.rainHigh then 1.0
    else if precip > th.rainModerate then 0.6
    else 0.2
  }

  /** `riesgo_final` before rounding: the weighted factor sum scaled by 10. */
  function WeightedRisk(slope: real, fault: FaultDistance, precip: real, th: Thresholds, w: Weights): real
  {
    (SlopeFactor(slope, th) * w.slope + FaultFactor(fault, th) * w.fault + RainFactor(precip, th) * w.rain) * 10.0
  }

  /** With non-negative weights the weighted risk lies between the weighted
      lowest factors and ten times the weight total, whatever the cut-offs;
      the default weights give [2.5, 10]. */
  lemma WeightedRiskBounds(slope: real, fault: FaultDistance, precip: real, th: Thresholds, w: Weights)
    requires NonNegative(w)
    ensures var r := WeightedRisk(slope, fault, precip, th, w);
      (0.25 * w.slope + 0.3 * w.fault + 0.2 * w.rain) * 10.0 <= r <= (w.slope + w.fault + w.rain) * 10.0
    ensures w == DefaultWeights ==> 2.5 <= WeightedRisk(slope, fault, precip, th, w) <= 10.0
  {
    WeightedSumBounds(SlopeFactor(slope, th), FaultFactor(fault, th), RainFactor(precip, th), w);
  }

  /** The weighted sum of factors in their ranges, bounded by the extreme factors. */
  lemma WeightedSumBounds(a: real, b: real, c: real, w: Weights)
    requires 0.25 <= a <= 1.0 && 0.3 <= b <= 1.0 && 0.2 <= c <= 1.0
    requires NonNegative(w)
    ensures (0.25 * w.slope + 0.3 * w.fault + 0.2 * w.rain) * 10.0
            <= (a * w.slope + b * w.fault + c * w.rain) * 10.0
            <= (w.slope + w.fault + w.rain) * 10.0
  {
    WeightedSumMonotone(0.25, 0.3, 0.2, a, b, c, w);
    WeightedSumMonotone(a, b, c, 1.0, 1.0, 1.0, w);
  }

  function RiskLabel(score: real): (tag: string)
    ensures tag == "Muy Alto" <==> score >= 7.5
    ensures tag == "Alto" <==> 5.0 <= score < 7.5
    ensures tag == "Moderado" <==> 2.5 <= score < 5.0
    ensures tag == "Bajo" <==> score < 2.5
  {
    if score >= 7.5 then "Muy Alto"
    else if score >= 5.0 then "Alto"
    else if score >= 2.5 then "Moderado"
    else "Bajo"
  }

  /** A reading the factors can use: a missing band defaults to 0, a None band
      makes the comparison raise. */
  predicate Usable(r: Reading) { !r.Null? }

  function ValueOrZero(r: Reading): real
  {
    if r.Value? then r.v else 0.0
  }

  /** `analizar_riesgo_deslizamiento_final` on the backend's answer. */
  function AnalyzeLandslide(q: LandslideQuery, th: Thresholds, w: Weights): (r: LandslideResult)
    ensures r == ErrorResult <==> q.LandslideQueryFailed? || !Usable(q.slope) || !Usable(q.precipitation)
    ensures r != ErrorResult ==>
      r.riesgoFinal == Rounding.Round1(WeightedRisk(ValueOrZero(q.slope), q.fault, ValueOrZero(q.precipitation), th, w))
      && r.etiqueta == RiskLabel(WeightedRisk(ValueOrZero(q.slope), q.fault, ValueOrZero(q.precipitation), th, w))
  {
    match q
    case LandslideQueryFailed => ErrorResult
    case LandslideMeasured(slope, precipitation, fault) =>
      if slope.Null? || precipitation.Null? then ErrorResult
      else
        var s, p := ValueOrZero(slope), ValueOrZero(precipitation);
        var risk := WeightedRisk(s, fault, p, th, w);
        var factores := Factors(
          Rounding.Round1(s),
          if fault.NoFaults? then None else Some(Rounding.RoundHalfEven(fault.meters)),
          Rounding.RoundHalfEven(p));
        LandslideResult(Rounding.Round1(risk), RiskLabel(risk), Some(factores))
  }

  lemma ScaledFactorProducts(a: real, b: real, wgt: real)
    requires a <= b && wgt >= 0.0
    ensures a * wgt <= b * wgt
  {
  }

  lemma SlopeFactorMonotone(s1: real, s2: real, th: Thresholds)
    requires s1 <= s2
    ensures SlopeFactor(s1, th) <= SlopeFactor(s2, th)
  {
  }

  lemma FaultFactorAntitone(d1: FaultDistance, d2: FaultDistance, th: Thresholds)
    requires NoFarther(d2, d1)
    ensures FaultFactor(d1, th) <= FaultFactor(d2, th)
  {
  }

  lemma RainFactorMonotone(p1: real, p2: real, th: Thresholds)
    requires p1 <= p2
    ensures RainFactor(p1, th) <= RainFactor(p2, th)
  {
  }

  /** The weighted risk rises with slope and precipitation and falls as the
      nearest fault moves away, for any cut-offs and non-negative weights. */
  lemma WeightedRiskMonotone(
    s1: real, d1: FaultDistance, p1: real,
    s2: real, d2: FaultDistance, p2: real,
    th: Thresholds, w: Weights)
    requires NonNegative(w)
    requires s1 <= s2 && p1 <= p2 && NoFarther(d2, d1)
    ensures WeightedRisk(s1, d1, p1, th, w) <= WeightedRisk(s2, d2, p2, th, w)
  {
    var a1, a2 := SlopeFactor(s1, th), SlopeFactor(s2, th);
    var b1, b2 := FaultFactor(d1, th), FaultFactor(d2, th);
    var c1, c2 := RainFactor(p1, th), RainFactor(p2, th);
    SlopeFactorMonotone(s1, s2, th);
    FaultFactorAntitone(d1, d2, th);
    RainFactorMonotone(p1, p2, th);
    WeightedSumMonotone(a1, b1, c1, a2, b2, c2, w);
  }

  lemma WeightedSumMonotone(a1: real, b1: real, c1: real, a2: real, b2: real, c2: real, w: Weights)
    requires NonNegative(w) && a1 <= a2 && b1 <= b2 && c1 <= c2
    ensures (a1 * w.slope + b1 * w.fault + c1 * w.rain) * 10.0 <= (a2 * w.slope + b2 * w.fault + c2 * w.rain) * 10.0
  {
    ScaledFactorProducts(a1, a2, w.slope);
    ScaledFactorProducts(b1, b2, w.fault);
    ScaledFactorProducts(c1, c2, w.rain);
  }

  /** The reported score is monotone in the measurements as well: steeper or
      wetter never lowers it, a farther fault never raises it. */
  lemma LandslideMonotone(q1: LandslideQuery, q2: LandslideQuery, th: Thresholds, w: Weights)
    requires NonNegative(w)
    requires q1.LandslideMeasured? && q2.LandslideMeasured?
    requires Usable(q1.slope) && Usable(q1.precipitation) && Usable(q2.slope) && Usable(q2.precipitation)
    requires ValueOrZero(q1.slope) <= ValueOrZero(q2.slope)
    requires ValueOrZero(q1.precipitation) <= ValueOrZero(q2.precipitation)
    requires NoFarther(q2.fault, q1.fault)
    ensures AnalyzeLandslide(q1, th, w).riesgoFinal <= AnalyzeLandslide(q2, th, w).riesgoFinal
  {
    var x1 := WeightedRisk(ValueOrZero(q1.slope), q1.fault, ValueOrZero(q1.precipitation), th, w);
    var x2 := WeightedRisk(ValueOrZero(q2.slope), q2.fault, ValueOrZero(q2.precipitation), th, w);
    WeightedRiskMonotone(ValueOrZero(q1.slope), q1.fault, ValueOrZero(q1.precipitation),
                         ValueOrZero(q2.slope), q2.fault, ValueOrZero(q2.precipitation), th, w);
    Rounding.Round1Monotone(x1, x2);
  }

  /** With the default weights every factor combination gives a score between
      2.5 and 10 with at most one decimal place. */
  lemma DefaultRiskGrid(slope: real, fault: FaultDistance, precip: real)
    ensures 2.5 <= WeightedRisk(slope, fault, precip, DefaultThresholds, DefaultWeights) <= 10.0
    ensures var x := WeightedRisk(slope, fault, precip, DefaultThresholds, DefaultWeights);
            (x * 10.0).Floor as real == x * 10.0
  {
    var a := SlopeFactor(slope, DefaultThresholds);
    var b := FaultFactor(fault, DefaultThresholds);
    var c := RainFactor(precip, DefaultThresholds);
    assert a == 1.0 || a == 0.75 || a == 0.5 || a == 0.25;
    assert b == 1.0 || b == 0.6 || b == 0.3;
    assert c == 1.0 || c == 0.6 || c == 0.2;
    var x := WeightedRisk(slope, fault, precip, DefaultThresholds, DefaultWeights);
    var k: int := (a * 40.0).Floor + (b * 30.0).Floor + (c * 30.0).Floor;
    assert a * 40.0 == (a * 40.0).Floor as real;
    assert b * 30.0 == (b * 30.0).Floor as real;
    assert c * 30.0 == (c * 30.0).Floor as real;
    assert x * 10.0 == k as real;
  }

  /** With the default configuration a successful analysis reports a score in
      [2.5, 10] that rounding left untouched, and never the label "Bajo". */
  lemma DefaultLandslideBounds(q: LandslideQuery)
    requires AnalyzeLandslide(q, DefaultThresholds, DefaultWeights) != ErrorResult
    ensures var r := AnalyzeLandslide(q, DefaultThresholds, DefaultWeights);
            2.5 <= r.riesgoFinal <= 10.0 && r.etiqueta != "Bajo"
            && r.etiqueta == RiskLabel(r.riesgoFinal)
  {
    var x := WeightedRisk(ValueOrZero(q.slope), q.fault, ValueOrZero(q.precipitation), DefaultThresholds, DefaultWeights);
    DefaultRiskGrid(ValueOrZero(q.slope), q.fault, ValueOrZero(q.precipitation));
    Rounding.Round1Exact(x);
  }
}
