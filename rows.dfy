/** Database rows, the values they hold, and the text a cursor is stored as. */
module Rows {
  import opened Wrappers

  /** A value held by a database row (psycopg2 DictRow) or a JSON document. */
  datatype Value =
    | Null
    | Str(s: string)
    | Num(n: int)
    | Stamp(t: int)            // a timestamp; larger means later
    | Arr(items: seq<Value>)
    | Obj(fields: map<string, Value>)

  /** A row: column name to value. */
  type Row = map<string, Value>

  /** What Python's `str(x)` gives for a value read with `row.get`: "None"
      for a missing value and for SQL NULL alike, the timestamp text for a
      timestamp, some other text for anything else. */
  datatype Text = NoneText | StampText(t: int) | ValueText(v: Value)

  function ToText(v: Option<Value>): (r: Text)
    ensures v.None? || v == Some(Null) <==> r.NoneText?
    ensures forall t :: v == Some(Stamp(t)) <==> r == StampText(t)
  {
    match v
    case None => NoneText
    case Some(Null) => NoneText
    case Some(Stamp(t)) => StampText(t)
    case Some(x) => ValueText(x)
  }
}
