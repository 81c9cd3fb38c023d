/** The certificate: three indicators (soil, water, fire and climate), each
    with a penalty, a composite score of 100 minus the penalties, a seal and
    a colour, plus identification, property and legal blocks. */
module Certificate {
  import Numerals
  import Landslide
  import Flood
  import Fire
  import Volcanic
  import Climate
  import Rounding
  import Readings

  /** The colours of the indicators and of the summary. */
  datatype Color = Green | Yellow | Orange | Red

  function ColorName(c: Color): (name: string)
    ensures name in {"green", "yellow", "orange", "red"}
  {
    match c
    case Green => "green"
    case Yellow => "yellow"
    case Orange => "orange"
    case Red => "red"
  }

  /** The state an indicator is in: its colour, its label and the message
      shown to the client. */
  datatype Status = Status(color: Color, texto: string, mensaje: string)

  const SoilHigh := Status(Red, "Riesgo Alto", "Pendiente crítica inestable.")
  const SoilModerate := Status(Yellow, "Riesgo Moderado", "Requiere mecánica de suelos específica.")
  const SoilStable := Status(Green, "Estable", "Sin riesgos evidentes de remoción.")
  const WaterFlooded := Status(Red, "Zona Inundable", "Cuerpos de agua permanentes detectados.")
  const WaterCaution := Status(Yellow, "Precaución", "Saturación hídrica en eventos extremos.")
  const WaterSafe := Status(Green, "Seguro", "Zona fuera de cauces principales.")
  const FireAlert := Status(Yellow, "Alerta Ambiental", "Tendencia de calentamiento o sequedad detectada.")
  const FireLow := Status(Green, "Bajo Riesgo", "Humedad de vegetación (NDVI) saludable.")

  /** A status together with the points it takes off the score. */
  datatype Assessment = Assessment(status: Status, penalty: nat)

  /** Section A: the landslide score `riesgo_final`. */
  function SoilAssessment(v: real): (a: Assessment)
    ensures a.penalty == 40 <==> v >= 5.0
    ensures a.penalty == 15 <==> 2.5 <= v < 5.0
    ensures a.penalty == 0 <==> v < 2.5
    ensures a.status.color == Red <==> a.penalty == 40
    ensures a.status.color == Yellow <==> a.penalty == 15
    ensures a.status.color == Green <==> a.penalty == 0
  {
    if v >= 5.0 then Assessment(SoilHigh, 40)
    else if v >= 2.5 then Assessment(SoilModerate, 15)
    else Assessment(SoilStable, 0)
  }

  /** Section B: the flood category. */
  function WaterAssessment(c: int): (a: Assessment)
    ensures a.penalty == 50 <==> c >= 2
    ensures a.penalty == 20 <==> c == 1
    ensures a.penalty == 0 <==> c <= 0
    ensures a.status.color == Red <==> a.penalty == 50
    ensures a.status.color == Yellow <==> a.penalty == 20
    ensures a.status.color == Green <==> a.penalty == 0
  {
    if c >= 2 then Assessment(WaterFlooded, 50)
    else if c == 1 then Assessment(WaterCaution, 20)
    else Assessment(WaterSafe, 0)
  }

  /** Section C: the fire index and the maximum-temperature trend. */
  function FireAssessment(i: int, t: int): (a: Assessment)
    ensures a.penalty == 20 <==> i > 0 || t >= 2
    ensures a.penalty == 0 <==> i <= 0 && t < 2
    ensures a.status.color == Yellow <==> a.penalty == 20
    ensures a.status.color == Green <==> a.penalty == 0
  {
    if i > 0 || t >= 2 then Assessment(FireAlert, 20) else Assessment(FireLow, 0)
  }

  /** `score_tecnico`: a number, an integer category or a summary text. */
  datatype TechnicalScore = Numeric(score: real) | Level(level: int) | Described(text: string)

  datatype Indicator = Indicator(
    id: string, titulo: string, scoreTecnico: TechnicalScore,
    estado: string, colorUi: Color, mensajeCliente: string)

  function MakeIndicator(id: string, titulo: string, score: TechnicalScore, s: Status): (ind: Indicator)
    ensures ind.id == id && ind.titulo == titulo && ind.scoreTecnico == score
    ensures ind.estado == s.texto && ind.colorUi == s.color && ind.mensajeCliente == s.mensaje
  {
    Indicator(id, titulo, score, s.texto, s.color, s.mensaje)
  }

  const IndexLabel := "Index: "
  const TrendLabel := " | Trend: "

  /** The summary text of the fire indicator, `Index: <i> | Trend: <t>`. */
  function FireSummary(i: int, t: int): (text: string)
    ensures |text| == |IndexLabel| + |Numerals.IntToString(i)| + |TrendLabel| + |Numerals.IntToString(t)|
    ensures text[..|IndexLabel|] == IndexLabel
    ensures text[|IndexLabel|..|IndexLabel| + |Numerals.IntToString(i)|] == Numerals.IntToString(i)
    ensures text[|IndexLabel| + |Numerals.IntToString(i)|..] == TrendLabel + Numerals.IntToString(t)
  {
    var a, b := Numerals.IntToString(i), TrendLabel + Numerals.IntToString(t);
    ThreeParts(IndexLabel, a, b);
    IndexLabel + a + b
  }

  /** The three pieces of a concatenation are found again by slicing. */
  lemma ThreeParts(x: string, y: string, z: string)
    ensures (x + y + z)[..|x|] == x
    ensures (x + y + z)[|x|..|x| + |y|] == y
    ensures (x + y + z)[|x| + |y|..] == z
  {
    var w := x + y + z;
    assert w[..|x|] == x;
    assert w[|x|..|x| + |y|] == y;
    assert w[|x| + |y|..] == z;
  }

  /** The summary text can be read back: it determines both the fire index
      and the trend it was written from. */
  lemma FireSummaryReadable(i: int, t: int, i2: int, t2: int)
    requires FireSummary(i, t) == FireSummary(i2, t2)
    ensures i == i2 && t == t2
  {
    var text := FireSummary(i, t);
    var a, a2 := Numerals.IntToString(i), Numerals.IntToString(i2);
    var n := |IndexLabel|;
    Numerals.IntToStringNoBlank(i);
    Numerals.IntToStringNoBlank(i2);
    assert text[n + |a|..][0] == ' ';
    assert text[n + |a2|..][0] == ' ';
    assert forall k :: 0 <= k < |a| ==> text[n + k] == text[n..n + |a|][k] == a[k];
    assert forall k :: 0 <= k < |a2| ==> text[n + k] == text[n..n + |a2|][k] == a2[k];
    assert text[n + |a|] == ' ' && text[n + |a2|] == ' ';
    assert |a| == |a2|;
    Numerals.IntToStringInjective(i, i2);
    assert TrendLabel + Numerals.IntToString(t) == TrendLabel + Numerals.IntToString(t2);
    assert Numerals.IntToString(t) == (TrendLabel + Numerals.IntToString(t))[|TrendLabel|..];
    assert Numerals.IntToString(t2) == (TrendLabel + Numerals.IntToString(t2))[|TrendLabel|..];
    Numerals.IntToStringInjective(t, t2);
  }

  const SoilId := "suelo"
  const SoilTitle := "Estabilidad de Suelo"
  const WaterId := "agua"
  const WaterTitle := "Riesgo de Inundación"
  const FireId := "fuego"
  const FireTitle := "Incendio y Clima"

  function SoilIndicator(v: real): Indicator
  {
    MakeIndicator(SoilId, SoilTitle, Numeric(v), SoilAssessment(v).status)
  }

  function WaterIndicator(c: int): Indicator
  {
    MakeIndicator(WaterId, WaterTitle, Level(c), WaterAssessment(c).status)
  }

  function FireIndicator(i: int, t: int): Indicator
  {
    MakeIndicator(FireId, FireTitle, Described(FireSummary(i, t)), FireAssessment(i, t).status)
  }

  /** The sum of the three penalties. */
  function TotalPenalty(v: real, c: int, i: int, t: int): (p: nat)
    ensures p <= 110
    ensures p == SoilAssessment(v).penalty + WaterAssessment(c).penalty + FireAssessment(i, t).penalty
  {
    SoilAssessment(v).penalty + WaterAssessment(c).penalty + FireAssessment(i, t).penalty
  }

  /** `max(0, 100 - penalizacion_score)`. */
  function ClampScore(penalty: int): (score: int)
    ensures penalty >= 0 ==> 0 <= score <= 100
    ensures score == 0 <==> penalty >= 100
    ensures penalty < 100 ==> score + penalty == 100
  {
    if 100 - penalty > 0 then 100 - penalty else 0
  }

  const SealInvest := "APTO PARA INVERSIÓN"
  const SealMitigate := "APTO CON MITIGACIÓN"
  const SealReject := "NO RECOMENDADO / RIESGO CRÍTICO"

  /** `sello_garantia`. */
  function Seal(score: int): (sello: string)
    ensures sello == SealInvest <==> score >= 80
    ensures sello == SealMitigate <==> 50 <= score < 80
    ensures sello == SealReject <==> score < 50
  {
    if score >= 80 then SealInvest
    else if score >= 50 then SealMitigate
    else SealReject
  }

  /** `color_global`. */
  function GlobalColor(score: int): (c: Color)
    ensures c == Green <==> score >= 80
    ensures c == Orange <==> 50 <= score < 80
    ensures c == Red <==> score < 50
  {
    if score >= 80 then Green else if score >= 50 then Orange else Red
  }

  const EngineVersion := "v11.2-Autofact-API"
  const DefaultName := "Ubicación Solicitada"
  const Disclaimer :=
    "Informe generado por GeoRisk AI basado en datos satelitales NASA/ESA. No reemplaza estudios de ingeniería in-situ."
  const Sources := ["USGS SRTM", "Sentinel-2", "MODIS", "CHIRPS"]

  /** `GR-` followed by the first eight characters of the identifier text,
      upper-cased. */
  function CertificateId(uuidText: string): (id: string)
    ensures |id| == 3 + (if |uuidText| < 8 then |uuidText| else 8)
    ensures id[..3] == "GR-"
    ensures forall k :: 3 <= k < |id| ==> id[k] == Numerals.UpperChar(uuidText[k - 3])
  {
    var prefix := if |uuidText| < 8 then uuidText else uuidText[..8];
    "GR-" + Numerals.ToUpper(prefix)
  }

  datatype Meta = Meta(certificadoId: string, fechaEmision: string, versionMotor: string)
  datatype Property = Property(nombre: string, latitud: real, longitud: real)
  datatype ExecutiveSummary = ExecutiveSummary(scoreGlobal: int, selloGarantia: string, colorGlobal: Color)
  datatype Legal = Legal(disclaimer: string, fuentes: seq<string>)

  datatype CertificateDoc = CertificateDoc(
    meta: Meta, propiedad: Property, resumenEjecutivo: ExecutiveSummary,
    detalleIndicadores: seq<Indicator>, legal: Legal)

  /** What the backend answered for the five analyses of a point. */
  datatype Measurements = Measurements(
    landslide: Landslide.LandslideQuery, flood: Flood.FloodQuery, fire: Fire.FireQuery,
    volcanic: Volcanic.VolcanicQuery, climate: Climate.ClimateQuery)

  /** `riesgo_final` of the landslide analysis with the default configuration. */
  function LandslideScore(m: Measurements): real
  {
    Landslide.AnalyzeLandslide(m.landslide, Landslide.DefaultThresholds, Landslide.DefaultWeights).riesgoFinal
  }

  /** The certificate for the results of the analyses: the landslide score
      `v`, the flood category `c`, the fire index `i` and the trend `t`. */
  function Assemble(v: real, c: int, i: int, t: int, lat: real, lon: real, nombre: string,
                    uuidText: string, issuedAt: string): (cert: CertificateDoc)
    ensures |cert.detalleIndicadores| == 3
    ensures cert.detalleIndicadores[0].id == SoilId
    ensures cert.detalleIndicadores[1].id == WaterId
    ensures cert.detalleIndicadores[2].id == FireId
    ensures 0 <= cert.resumenEjecutivo.scoreGlobal <= 100
    ensures cert.resumenEjecutivo.scoreGlobal == ClampScore(TotalPenalty(v, c, i, t))
    ensures cert.resumenEjecutivo.selloGarantia == Seal(cert.resumenEjecutivo.scoreGlobal)
    ensures cert.resumenEjecutivo.colorGlobal == GlobalColor(cert.resumenEjecutivo.scoreGlobal)
    ensures cert.detalleIndicadores[0].scoreTecnico == Numeric(v)
    ensures cert.detalleIndicadores[0].colorUi == SoilAssessment(v).status.color
    ensures cert.detalleIndicadores[0].estado == SoilAssessment(v).status.texto
    ensures cert.detalleIndicadores[1].scoreTecnico == Level(c)
    ensures cert.detalleIndicadores[1].colorUi == WaterAssessment(c).status.color
    ensures cert.detalleIndicadores[1].estado == WaterAssessment(c).status.texto
    ensures cert.detalleIndicadores[2].scoreTecnico == Described(FireSummary(i, t))
    ensures cert.detalleIndicadores[2].colorUi == FireAssessment(i, t).status.color
    ensures cert.detalleIndicadores[2].estado == FireAssessment(i, t).status.texto
    ensures cert.meta == Meta(CertificateId(uuidText), issuedAt, EngineVersion)
    ensures cert.propiedad == Property(nombre, lat, lon)
  {
    var score := ClampScore(TotalPenalty(v, c, i, t));
    CertificateDoc(
      Meta(CertificateId(uuidText), issuedAt, EngineVersion),
      Property(nombre, lat, lon),
      ExecutiveSummary(score, Seal(score), GlobalColor(score)),
      [SoilIndicator(v), WaterIndicator(c), FireIndicator(i, t)],
      Legal(Disclaimer, Sources))
  }

  /** The certificate the engine issues for a point: the indicators carry the
      landslide score, the flood category and the fire summary, and the score
      is taken from the penalties of those results and the warming trend. */
  function Certify(lat: real, lon: real, nombre: string, m: Measurements, uuidText: string, issuedAt: string)
    : (cert: CertificateDoc)
    ensures cert.resumenEjecutivo.scoreGlobal
            == ClampScore(TotalPenalty(LandslideScore(m), Flood.FloodCategory(m.flood),
                                       Fire.FireIndex(m.fire), Climate.ClimateTrendMax(m.climate)))
    ensures |cert.detalleIndicadores| == 3
    ensures cert.detalleIndicadores[0].scoreTecnico == Numeric(LandslideScore(m))
    ensures cert.detalleIndicadores[1].scoreTecnico == Level(Flood.FloodCategory(m.flood))
    ensures cert.detalleIndicadores[2].scoreTecnico
            == Described(FireSummary(Fire.FireIndex(m.fire), Climate.ClimateTrendMax(m.climate)))
    ensures cert.propiedad == Property(nombre, lat, lon)
  {
    Assemble(LandslideScore(m), Flood.FloodCategory(m.flood), Fire.FireIndex(m.fire),
             Climate.ClimateTrendMax(m.climate), lat, lon, nombre, uuidText, issuedAt)
  }

  /** `generar_certificado`: runs the five analyses, then scores their
      results. The identifier text and the issue time are what `uuid4()` and
      `datetime.now()` would have produced. */
  method GenerateCertificate(lat: real, lon: real, m: Measurements, uuidText: string, issuedAt: string,
                             nombre: string := DefaultName)
    returns (cert: CertificateDoc)
    ensures cert == Certify(lat, lon, nombre, m, uuidText, issuedAt)
  {
    var riesgoDeslizamiento := Landslide.AnalyzeLandslide(m.landslide, Landslide.DefaultThresholds, Landslide.DefaultWeights);
    var riesgoInundacion := Flood.AnalyzeFlood(m.flood);
    var riesgoIncendio := Fire.AnalyzeFire(m.fire);
    var riesgoVolcanico := Volcanic.VolcanicLevel(m.volcanic);
    var clima := Climate.AnalyzeClimate(m.climate);
    var tendenciaTemp := Climate.TrendMaxOf(clima);
    cert := ScoreAnalyses(riesgoDeslizamiento.riesgoFinal, riesgoInundacion, riesgoIncendio, tendenciaTemp,
                          lat, lon, nombre, uuidText, issuedAt);
  }

  /** The scoring part of `generar_certificado`: the indicator list is built
      and the penalty accumulated section by section. */
  method ScoreAnalyses(valDeslizamiento: real, valInundacion: int, valIncendio: int, tendenciaTemp: int,
                       lat: real, lon: real, nombre: string, uuidText: string, issuedAt: string)
    returns (cert: CertificateDoc)
    ensures cert == Assemble(valDeslizamiento, valInundacion, valIncendio, tendenciaTemp,
                             lat, lon, nombre, uuidText, issuedAt)
  {
    var indicadores: seq<Indicator> := [];
    var penalizacionScore := 0;

    // A. Soil
    var estadoSuelo: Status;
    if valDeslizamiento >= 5.0 {
      estadoSuelo := SoilHigh;
      penalizacionScore := penalizacionScore + 40;
    } else if valDeslizamiento >= 2.5 {
      estadoSuelo := SoilModerate;
      penalizacionScore := penalizacionScore + 15;
    } else {
      estadoSuelo := SoilStable;
    }
    indicadores := indicadores + [MakeIndicator(SoilId, SoilTitle, Numeric(valDeslizamiento), estadoSuelo)];
    assert indicadores == [SoilIndicator(valDeslizamiento)];
    assert penalizacionScore == SoilAssessment(valDeslizamiento).penalty;

    // B. Water
    var estadoAgua: Status;
    if valInundacion >= 2 {
      estadoAgua := WaterFlooded;
      penalizacionScore := penalizacionScore + 50;
    } else if valInundacion == 1 {
      estadoAgua := WaterCaution;
      penalizacionScore := penalizacionScore + 20;
    } else {
      estadoAgua := WaterSafe;
    }
    indicadores := indicadores + [MakeIndicator(WaterId, WaterTitle, Level(valInundacion), estadoAgua)];
    assert indicadores == [SoilIndicator(valDeslizamiento), WaterIndicator(valInundacion)];
    assert penalizacionScore == SoilAssessment(valDeslizamiento).penalty + WaterAssessment(valInundacion).penalty;

    // C. Fire and climate
    var estadoFuego: Status;
    if valIncendio > 0 || tendenciaTemp >= 2 {
      estadoFuego := FireAlert;
      penalizacionScore := penalizacionScore + 20;
    } else {
      estadoFuego := FireLow;
    }
    indicadores := indicadores + [MakeIndicator(FireId, FireTitle,
                                                Described(FireSummary(valIncendio, tendenciaTemp)), estadoFuego)];
    assert indicadores == [SoilIndicator(valDeslizamiento), WaterIndicator(valInundacion),
                           FireIndicator(valIncendio, tendenciaTemp)];
    assert penalizacionScore == TotalPenalty(valDeslizamiento, valInundacion, valIncendio, tendenciaTemp);

    var scoreFinal := if 100 - penalizacionScore > 0 then 100 - penalizacionScore else 0;
    assert scoreFinal == ClampScore(penalizacionScore);
    var sello: string;
    if scoreFinal >= 80 {
      sello := SealInvest;
    } else if scoreFinal >= 50 {
      sello := SealMitigate;
    } else {
      sello := SealReject;
    }
    var colorGlobal := if scoreFinal >= 80 then Green else if scoreFinal >= 50 then Orange else Red;

    cert := CertificateDoc(
      Meta(CertificateId(uuidText), issuedAt, EngineVersion),
      Property(nombre, lat, lon),
      ExecutiveSummary(scoreFinal, sello, colorGlobal),
      indicadores,
      Legal(Disclaimer, Sources));
  }

  /** The volcanic level is computed but never read: two sets of
      measurements that differ only there give the same certificate. */
  lemma VolcanicIgnored(lat: real, lon: real, nombre: string, m: Measurements,
                        other: Volcanic.VolcanicQuery, uuidText: string, issuedAt: string)
    ensures Certify(lat, lon, nombre, m.(volcanic := other), uuidText, issuedAt)
            == Certify(lat, lon, nombre, m, uuidText, issuedAt)
  {
  }

  /** The failure sentinels of the analyzers (-1 for the landslide score,
      the flood category and the fire index) take nothing off the score;
      the fire indicator is then decided by the trend alone. */
  lemma SentinelsAddNoPenalty(t: int)
    ensures SoilAssessment(-1.0).penalty == 0
    ensures WaterAssessment(-1).penalty == 0
    ensures FireAssessment(-1, t).penalty == (if t >= 2 then 20 else 0)
  {
  }

  /** When every analysis fails the certificate reads 100, the best seal
      and green. */
  lemma AllFailuresScoreFull(lat: real, lon: real, nombre: string, m: Measurements,
                             uuidText: string, issuedAt: string)
    requires m.landslide.LandslideQueryFailed? && m.flood.FloodQueryFailed?
    requires m.fire.FireQueryFailed? && m.climate.ClimateQueryFailed?
    ensures var r := Certify(lat, lon, nombre, m, uuidText, issuedAt).resumenEjecutivo;
            r.scoreGlobal == 100 && r.selloGarantia == SealInvest && r.colorGlobal == Green
  {
    assert LandslideScore(m) == -1.0;
    assert Flood.FloodCategory(m.flood) == -1;
    assert Fire.FireIndex(m.fire) == -1;
    assert Climate.ClimateTrendMax(m.climate) == 0;
  }

  /** With the default configuration a landslide analysis that succeeds
      always scores at least 2.5, so the soil indicator is never green and
      the certificate never reads more than 85. */
  lemma SuccessfulLandslideNeverStable(m: Measurements)
    requires Landslide.AnalyzeLandslide(m.landslide, Landslide.DefaultThresholds, Landslide.DefaultWeights)
             != Landslide.ErrorResult
    ensures SoilAssessment(LandslideScore(m)).penalty >= 15
    ensures SoilAssessment(LandslideScore(m)).status != SoilStable
    ensures ClampScore(TotalPenalty(LandslideScore(m), Flood.FloodCategory(m.flood),
                                    Fire.FireIndex(m.fire), Climate.ClimateTrendMax(m.climate))) <= 85
  {
    Landslide.DefaultLandslideBounds(m.landslide);
  }

  /** Penalties never decrease as the results get worse, so the score never
      increases. */
  lemma ScoreAntitone(v1: real, c1: int, i1: int, t1: int, v2: real, c2: int, i2: int, t2: int)
    requires v1 <= v2 && c1 <= c2 && i1 <= i2 && t1 <= t2
    ensures TotalPenalty(v1, c1, i1, t1) <= TotalPenalty(v2, c2, i2, t2)
    ensures ClampScore(TotalPenalty(v2, c2, i2, t2)) <= ClampScore(TotalPenalty(v1, c1, i1, t1))
  {
  }

  /** A slope of 35 degrees and a 200 mm precipitation maximum score at
      least 5 whatever the distance to the nearest fault. */
  lemma SteepWetLandslide(m: Measurements)
    requires m.landslide.LandslideMeasured?
    requires m.landslide.slope == Readings.Value(35.0) && m.landslide.precipitation == Readings.Value(200.0)
    ensures LandslideScore(m) >= 5.0
  {
    var x := Landslide.WeightedRisk(35.0, m.landslide.fault, 200.0, Landslide.DefaultThresholds, Landslide.DefaultWeights);
    assert x >= 7.9;
    Landslide.DefaultRiskGrid(35.0, m.landslide.fault, 200.0);
    Rounding.Round1Exact(x);
  }

  /** A slope of 5 degrees and a 10 mm precipitation maximum score between
      2.5 and 5 whatever the distance to the nearest fault. */
  lemma GentleDryLandslide(m: Measurements)
    requires m.landslide.LandslideMeasured?
    requires m.landslide.slope == Readings.Value(5.0) && m.landslide.precipitation == Readings.Value(10.0)
    ensures 2.5 <= LandslideScore(m) < 5.0
  {
    var x := Landslide.WeightedRisk(5.0, m.landslide.fault, 10.0, Landslide.DefaultThresholds, Landslide.DefaultWeights);
    assert 2.5 <= x < 5.0;
    Landslide.DefaultRiskGrid(5.0, m.landslide.fault, 10.0);
    Rounding.Round1Exact(x);
  }

  /** A steep, wet point with a flood category of 2 and a fire index of 1
      scores 0, with the worst seal and the colour red. */
  lemma SteepWetFloodedScenario(lat: real, lon: real, nombre: string, m: Measurements,
                                uuidText: string, issuedAt: string)
    requires m.landslide.LandslideMeasured?
    requires m.landslide.slope == Readings.Value(35.0) && m.landslide.precipitation == Readings.Value(200.0)
    requires Flood.FloodCategory(m.flood) == 2 && Fire.FireIndex(m.fire) == 1
    ensures var r := Certify(lat, lon, nombre, m, uuidText, issuedAt).resumenEjecutivo;
            r.scoreGlobal == 0 && r.selloGarantia == SealReject && r.colorGlobal == Red
  {
    SteepWetLandslide(m);
    assert TotalPenalty(LandslideScore(m), 2, 1, Climate.ClimateTrendMax(m.climate)) == 110;
  }

  /** A gentle, dry point with flood category 0, fire index 0 and no warming
      trend scores 85, because the soil indicator takes 15 points; the seal
      is the best one and the colour green. */
  lemma GentleDryScenario(lat: real, lon: real, nombre: string, m: Measurements,
                          uuidText: string, issuedAt: string)
    requires m.landslide.LandslideMeasured?
    requires m.landslide.slope == Readings.Value(5.0) && m.landslide.precipitation == Readings.Value(10.0)
    requires Flood.FloodCategory(m.flood) == 0 && Fire.FireIndex(m.fire) == 0
    requires Climate.ClimateTrendMax(m.climate) < 2
    ensures var r := Certify(lat, lon, nombre, m, uuidText, issuedAt).resumenEjecutivo;
            r.scoreGlobal == 85 && r.selloGarantia == SealInvest && r.colorGlobal == Green
  {
    GentleDryLandslide(m);
    assert TotalPenalty(LandslideScore(m), 0, 0, Climate.ClimateTrendMax(m.climate)) == 15;
  }
}
