/** The tabular data the core handles: pandas scalars, rows, records and data frames. */
module Frames {
  import opened Wrappers

  /** A pandas or Python scalar, seen through the three things the core asks of it:
      its `str()` (which is also what an f-string prints), whether `pd.isna` holds of it
      (NaN, None, NaT), and the result of its `isoformat()` when it has that method
      (dates and timestamps). */
  datatype Value = Value(text: string, isNa: bool, iso: Option<string>)

  /** A Python `str` value. */
  function Str(s: string): (v: Value)
    ensures v.text == s && !v.isNa && v.iso.None?
  {
    Value(s, false, None)
  }

  /** A dict from column names to values (`Series.to_dict()`, a Qdrant payload). */
  type Record = map<string, Value>

  /** One row, as `Series.items()` yields it: (column, value) pairs in column order. */
  type Row = seq<(string, Value)>

  /** A data frame: its columns and its rows. */
  datatype Frame = Frame(columns: seq<string>, rows: seq<Row>)

  /** `DataFrame.empty`: true when either axis has length zero. */
  predicate Empty(f: Frame) {
    |f.columns| == 0 || |f.rows| == 0
  }

  /** `row.to_dict()`: a later pair for the same column overrides an earlier one. */
  function ToDict(row: Row): (r: Record)
    ensures forall k :: k in r <==> exists i :: 0 <= i < |row| && row[i].0 == k
  {
    if row == [] then map[]
    else
      var init := ToDict(row[..|row| - 1]);
      assert forall i :: 0 <= i < |row| - 1 ==> row[..|row| - 1][i] == row[i];
      init[row[|row| - 1].0 := row[|row| - 1].1]
  }

  /** `d.get(key, default)`. */
  function Get(d: Record, key: string, default: Value): Value {
    if key in d then d[key] else default
  }

  /** `d.get(key)`, which is None for a missing key. */
  function Lookup(d: Record, key: string): Option<Value> {
    if key in d then Some(d[key]) else None
  }
}
