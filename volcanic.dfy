/** The volcanic analyzer: the number of category-3-or-higher volcanoes within
    100 km, mapped to a level 0/1/2, or -1 when the query fails. */
module Volcanic {

  /** The count the backend returns for `filterBounds(buffer(100000))` and
      `Categoría >= 3`, or a failure of the file or remote query. */
  datatype VolcanicQuery = VolcanicQueryFailed | NearbyVolcanoes(count: nat)

  /** `analizar_riesgo_volcanico`: none nearby is 0, one to four is 1, five
      or more is 2. */
  function VolcanicLevel(q: VolcanicQuery): (level: int)
    ensures level == -1 <==> q.VolcanicQueryFailed?
    ensures level == 0 <==> q.NearbyVolcanoes? && q.count == 0
    ensures level == 1 <==> q.NearbyVolcanoes? && 1 <= q.count <= 4
    ensures level == 2 <==> q.NearbyVolcanoes? && q.count >= 5
  {
    match q
    case VolcanicQueryFailed => -1
    case NearbyVolcanoes(n) => if n < 1 then 0 else if n <= 4 then 1 else 2
  }

  /** More volcanoes nearby never lower the level. */
  lemma VolcanicLevelMonotone(m: nat, n: nat)
    requires m <= n
    ensures VolcanicLevel(NearbyVolcanoes(m)) <= VolcanicLevel(NearbyVolcanoes(n))
  {
  }
}
