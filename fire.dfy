/** The fire analyzer: a historical flag (a large past fire within 50 km in
    the fire catalogue) plus an environmental counter over mean precipitation,
    land-surface temperature and vegetation index, or -1 on any failure. */
module Fire {
  import opened Readings
  import Dms

  /** One row of the fire catalogue after `dropna()`: the two coordinate
      cells and the burned area `SUPERFICIE`. */
  datatype FireRow = FireRow(latitud: Dms.Cell, longitud: Dms.Cell, superficie: real)

  /** A catalogue entry once its coordinates are decimal degrees. */
  datatype FirePoint = FirePoint(lat: real, lon: real, superficie: real)

  /** The catalogue rows, the geometric test "within 50 km of the point"
      (the buffer that the backend evaluates), and the three bands; or a
      failure of any remote or file query. */
  datatype FireQuery =
    | FireQueryFailed
    | FireMeasured(rows: seq<FireRow>, within50km: (real, real) -> bool,
                   precipitation: Reading, lst: Reading, ndvi: Reading)

  const LargeFireArea: real := 200.0
  const DryPrecipitation: real := 5.0
  const HotSurfaceKelvin: real := 303.15
  const SparseNdvi: real := 0.3

  function AsOption(c: Dms.Conversion): Option<real>
  {
    if c.Decimal? then Some(c.degrees) else None
  }

  /** A converted column, or the ValueError one of its cells raised. */
  datatype Column = ColumnRaised | Converted(values: seq<Option<real>>)

  /** `Series.apply(dms_to_decimal)`, given what each call yields in turn: the
      first call that raises aborts the whole column. */
  function ApplyColumn(calls: seq<Dms.Conversion>): (r: Column)
    ensures r.ColumnRaised? <==> exists i :: 0 <= i < |calls| && calls[i].Raises?
    ensures r.Converted? ==> |r.values| == |calls|
    ensures r.Converted? ==> forall i :: 0 <= i < |calls| ==> r.values[i] == AsOption(calls[i])
  {
    if calls == [] then Converted([])
    else if calls[0].Raises? then ColumnRaised
    else
      match ApplyColumn(calls[1..])
      case ColumnRaised =>
        assert forall i :: 1 <= i < |calls| ==> calls[1..][i - 1] == calls[i];
        ColumnRaised
      case Converted(rest) =>
        assert forall i :: 1 <= i < |calls| ==> calls[1..][i - 1] == calls[i];
        Converted([AsOption(calls[0])] + rest)
  }

  /** The conversion of the `latitud` column, row by row. */
  function Latitudes(rows: seq<FireRow>): (calls: seq<Dms.Conversion>)
    ensures |calls| == |rows|
  {
    if rows == [] then [] else [Dms.DmsToDecimal(rows[0].latitud)] + Latitudes(rows[1..])
  }

  /** The conversion of the `longitud` column, row by row. */
  function Longitudes(rows: seq<FireRow>): (calls: seq<Dms.Conversion>)
    ensures |calls| == |rows|
  {
    if rows == [] then [] else [Dms.DmsToDecimal(rows[0].longitud)] + Longitudes(rows[1..])
  }

  /** Each entry of the latitude conversion is the conversion of that row's cell. */
  lemma {:induction false} LatitudesAt(rows: seq<FireRow>, i: int)
    requires 0 <= i < |rows|
    ensures Latitudes(rows)[i] == Dms.DmsToDecimal(rows[i].latitud)
  {
    if i > 0 {
      LatitudesAt(rows[1..], i - 1);
      assert rows[1..][i - 1] == rows[i];
      assert Latitudes(rows)[i] == Latitudes(rows[1..])[i - 1];
    }
  }

  /** Each entry of the longitude conversion is the conversion of that row's cell. */
  lemma {:induction false} LongitudesAt(rows: seq<FireRow>, i: int)
    requires 0 <= i < |rows|
    ensures Longitudes(rows)[i] == Dms.DmsToDecimal(rows[i].longitud)
  {
    if i > 0 {
      LongitudesAt(rows[1..], i - 1);
      assert rows[1..][i - 1] == rows[i];
      assert Longitudes(rows)[i] == Longitudes(rows[1..])[i - 1];
    }
  }

  /** The catalogue uploaded to the backend, given what the two column
      conversions yield row by row. Rows whose coordinates convert to None are
      dropped from the frame, but the geometry is still built from the full
      columns, so a single such row makes the frame construction raise; a row
      whose seconds field raises aborts earlier. Either way the catalogue
      exists only when every coordinate converts. */
  function Catalogue(lat: seq<Dms.Conversion>, lon: seq<Dms.Conversion>, rows: seq<FireRow>): (r: Option<seq<FirePoint>>)
    requires |lat| == |lon| == |rows|
    ensures r.Some? <==> forall i :: 0 <= i < |rows| ==> lat[i].Decimal? && lon[i].Decimal?
    ensures r.Some? ==> |r.value| == |rows|
    ensures r.Some? ==> forall i :: 0 <= i < |rows| ==>
              r.value[i] == FirePoint(lat[i].degrees, lon[i].degrees, rows[i].superficie)
  {
    var lats, lons := ApplyColumn(lat), ApplyColumn(lon);
    if lats.ColumnRaised? || lons.ColumnRaised? then None
    else if exists i :: 0 <= i < |rows| && (lats.values[i].None? || lons.values[i].None?) then None
    else
      Some(seq(|rows|, i requires 0 <= i < |rows| =>
        FirePoint(lats.values[i].value, lons.values[i].value, rows[i].superficie)))
  }

  /** The catalogue built from the rows of the fire file. */
  function BuildCatalogue(rows: seq<FireRow>): Option<seq<FirePoint>>
  {
    Catalogue(Latitudes(rows), Longitudes(rows), rows)
  }

  predicate LargeAndNear(p: FirePoint, within50km: (real, real) -> bool)
  {
    within50km(p.lat, p.lon) && p.superficie > LargeFireArea
  }

  /** The count the backend returns for `filterBounds(buffer(50000))` and
      `SUPERFICIE > 200`. */
  function CountLargeNearby(points: seq<FirePoint>, within50km: (real, real) -> bool): (n: nat)
    ensures n <= |points|
  {
    if points == [] then 0
    else (if LargeAndNear(points[0], within50km) then 1 else 0) + CountLargeNearby(points[1..], within50km)
  }

  /** The count is positive exactly when some catalogued fire is large and near. */
  lemma {:induction false} CountLargeNearbyPositive(points: seq<FirePoint>, within50km: (real, real) -> bool)
    ensures CountLargeNearby(points, within50km) > 0 <==> exists i :: 0 <= i < |points| && LargeAndNear(points[i], within50km)
  {
    if points != [] {
      CountLargeNearbyPositive(points[1..], within50km);
      if exists i :: 0 <= i < |points| && LargeAndNear(points[i], within50km) {
        var i :| 0 <= i < |points| && LargeAndNear(points[i], within50km);
        if i > 0 {
          assert points[1..][i - 1] == points[i];
        }
      }
      assert forall i :: 1 <= i < |points| ==> points[1..][i - 1] == points[i];
    }
  }

  /** `riesgo_historico`. */
  function HistoricalFlag(points: seq<FirePoint>, within50km: (real, real) -> bool): (flag: int)
    ensures flag == 1 <==> exists i :: 0 <= i < |points| && LargeAndNear(points[i], within50km)
    ensures flag == 0 <==> !exists i :: 0 <= i < |points| && LargeAndNear(points[i], within50km)
  {
    CountLargeNearbyPositive(points, within50km);
    if CountLargeNearby(points, within50km) > 0 then 1 else 0
  }

  /** The three environmental conditions, each on a band that carries a value. */
  predicate Dry(precipitation: Reading) { precipitation.Value? && precipitation.v < DryPrecipitation }
  predicate Hot(lst: Reading) { lst.Value? && lst.v > HotSurfaceKelvin }
  predicate Sparse(ndvi: Reading) { ndvi.Value? && ndvi.v < SparseNdvi }

  /** `riesgo_ambiental`, with the dictionary defaults of the source (10 for
      precipitation, 0 for temperature, NDVI skipped when None); a None
      precipitation or temperature makes the comparison raise and is excluded.
      The defaults never fire a condition. */
  function EnvironmentalCount(precipitation: Reading, lst: Reading, ndvi: Reading): (n: nat)
    requires !precipitation.Null? && !lst.Null?
    ensures n <= 3
    ensures n == (if Dry(precipitation) then 1 else 0) + (if Hot(lst) then 1 else 0) + (if Sparse(ndvi) then 1 else 0)
  {
    var p, t, v := GetOr(precipitation, 10.0), GetOr(lst, 0.0), Get(ndvi);
    (if p.value < DryPrecipitation then 1 else 0)
    + (if t.value > HotSurfaceKelvin then 1 else 0)
    + (if v.Some? && v.value < SparseNdvi then 1 else 0)
  }

  /** The index for a catalogue that was built or not, and the three bands:
      -1 when there is no catalogue or a None precipitation or temperature
      makes a comparison raise, flag plus counter otherwise. */
  function IndexOf(catalogue: Option<seq<FirePoint>>, within50km: (real, real) -> bool,
                   precipitation: Reading, lst: Reading, ndvi: Reading): (r: int)
    ensures -1 <= r <= 4
    ensures r == -1 <==> catalogue.None? || precipitation.Null? || lst.Null?
    ensures r != -1 ==>
              r == HistoricalFlag(catalogue.value, within50km) + EnvironmentalCount(precipitation, lst, ndvi)
  {
    if catalogue.None? || precipitation.Null? || lst.Null? then -1
    else HistoricalFlag(catalogue.value, within50km) + EnvironmentalCount(precipitation, lst, ndvi)
  }

  predicate Fails(q: FireQuery)
  {
    q.FireQueryFailed? || BuildCatalogue(q.rows).None? || q.precipitation.Null? || q.lst.Null?
  }

  /** The index the analyzer returns for an answer of the backend: flag plus
      counter, between 0 and 4, or -1 exactly when something failed. */
  function FireIndex(q: FireQuery): (r: int)
    ensures -1 <= r <= 4
    ensures r == -1 <==> Fails(q)
    ensures !Fails(q) ==>
              r == HistoricalFlag(BuildCatalogue(q.rows).value, q.within50km)
                   + EnvironmentalCount(q.precipitation, q.lst, q.ndvi)
  {
    if q.FireQueryFailed? then -1
    else IndexOf(BuildCatalogue(q.rows), q.within50km, q.precipitation, q.lst, q.ndvi)
  }

  /** `analizar_riesgo_incendio_con_ndvi`: the counter is increased one
      condition at a time. */
  method AnalyzeFire(q: FireQuery) returns (index: int)
    ensures index == FireIndex(q)
  {
    if q.FireQueryFailed? {
      return -1;
    }
    var catalogue := BuildCatalogue(q.rows);
    index := CombineIndex(catalogue, q.within50km, q.precipitation, q.lst, q.ndvi);
  }

  /** The rest of the analyzer once the catalogue is known: the historical
      flag, then the environmental counter one condition at a time. */
  method CombineIndex(catalogue: Option<seq<FirePoint>>, within50km: (real, real) -> bool,
                      bandPrecipitation: Reading, bandLst: Reading, bandNdvi: Reading) returns (index: int)
    ensures index == IndexOf(catalogue, within50km, bandPrecipitation, bandLst, bandNdvi)
  {
    if catalogue.None? {
      return -1;
    }
    var riesgoHistorico := if CountLargeNearby(catalogue.value, within50km) > 0 then 1 else 0;
    var precipitation := GetOr(bandPrecipitation, 10.0);
    if precipitation.None? {
      return -1;
    }
    var riesgoAmbiental := 0;
    if precipitation.value < DryPrecipitation {
      riesgoAmbiental := riesgoAmbiental + 1;
    }
    var lst := GetOr(bandLst, 0.0);
    if lst.None? {
      return -1;
    }
    if lst.value > HotSurfaceKelvin {
      riesgoAmbiental := riesgoAmbiental + 1;
    }
    var ndvi := Get(bandNdvi);
    if ndvi.Some? && ndvi.value < SparseNdvi {
      riesgoAmbiental := riesgoAmbiental + 1;
    }
    index := riesgoHistorico + riesgoAmbiental;
  }

  /** A single coordinate cell that does not convert (no match, or seconds
      that `float` rejects) makes the whole analysis report -1. */
  lemma UnconvertibleCellFails(q: FireQuery, i: int)
    requires q.FireMeasured? && 0 <= i < |q.rows|
    requires !Dms.DmsToDecimal(q.rows[i].latitud).Decimal? || !Dms.DmsToDecimal(q.rows[i].longitud).Decimal?
    ensures FireIndex(q) == -1
  {
    LatitudesAt(q.rows, i);
    LongitudesAt(q.rows, i);
  }
}
