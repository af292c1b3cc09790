/**
 * A log record as the Python code sees it: a dict from column name to a cell.
 * A cell read back from pandas is a string, a number, NaN (pandas' missing
 * marker) or a pandas Timestamp (kept as whole seconds).  A key that is not in
 * the map is a column the record does not have.
 */
module Records {
  import opened Wrappers

  datatype Field = Str(s: string) | Num(x: real) | NaN | Time(t: int)

  type Record = map<string, Field>

  /** `record.get(key)`: the cell, or None when the key is absent. */
  function Get(r: Record, key: string): (v: Option<Field>)
    ensures v.Some? <==> key in r
    ensures v.Some? ==> v.value == r[key]
  {
    if key in r then Some(r[key]) else None
  }

  /** `record.get(key, default)`. */
  function GetOr(r: Record, key: string, default: Field): (v: Field)
    ensures key in r ==> v == r[key]
    ensures key !in r ==> v == default
  {
    if key in r then r[key] else default
  }

  /** Whether pandas treats the cell as missing (`pd.isna`): an absent key or NaN. */
  predicate IsMissing(v: Option<Field>) {
    v.None? || v.value.NaN?
  }
}
