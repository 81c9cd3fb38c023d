/** Values that the remote measurement backend hands to the analyzers. */
module Readings {

  datatype Option<+T> = None | Some(value: T)

  /** One band of a `reduceRegion` answer: the key may be missing from the
      dictionary, present with the value None (a masked pixel), or present
      with a number. */
  datatype Reading = Absent | Null | Value(v: real)

  /** `vals.get(key)`: a missing key and a None value both read as None. */
  function Get(r: Reading): Option<real>
  {
    match r
    case Value(v) => Some(v)
    case _ => None
  }

  /** `vals.get(key, default)`: only a missing key takes the default; a key
      present with None yields None, which a later comparison rejects. */
  function GetOr(r: Reading, default: real): Option<real>
  {
    match r
    case Absent => Some(default)
    case Null => None
    case Value(v) => Some(v)
  }
}
