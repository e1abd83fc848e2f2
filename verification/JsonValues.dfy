/** Decoded JSON, as far as the bridge's files use it. */
module JsonValues {
  import opened Text

  /** A decoded JSON value. `shown` is what `str` makes of a value whose text is not modelled. */
  datatype Json =
    | Null
    | Bool(b: bool)
    | Int(n: int)
    | Text(s: string)
    | Other(shown: string)
    | List(items: seq<Json>, shown: string)
    | Object(fields: seq<(string, Json)>, shown: string)

  function PyStr(j: Json): string {
    match j
    case Null => "None"
    case Bool(b) => if b then "True" else "False"
    case Int(n) => if n < 0 then "-" + Decimal(-n) else Decimal(n)
    case Text(s) => s
    case Other(shown) => shown
    case List(_, shown) => shown
    case Object(_, shown) => shown
  }

  /** `d.get(key)` */
  function Field(fields: seq<(string, Json)>, key: string): Option<Json> {
    if fields == [] then None else if fields[0].0 == key then Some(fields[0].1) else Field(fields[1..], key)
  }

  /** `d.get(key, d.get(other))` */
  function FieldOr(fields: seq<(string, Json)>, key: string, other: string): Option<Json> {
    if Field(fields, key).Some? then Field(fields, key) else Field(fields, other)
  }

  lemma {:induction false} FieldAt(fields: seq<(string, Json)>, k: nat)
    requires k < |fields| && forall j :: 0 <= j < k ==> fields[j].0 != fields[k].0
    ensures Field(fields, fields[k].0) == Some(fields[k].1)
    decreases |fields|
  {
    if k > 0 {
      assert fields[k] == fields[1..][k - 1];
      FieldAt(fields[1..], k - 1);
    }
  }

  lemma {:induction false} FieldMissing(fields: seq<(string, Json)>, key: string)
    requires forall j :: 0 <= j < |fields| ==> fields[j].0 != key
    ensures Field(fields, key) == None
    decreases |fields|
  {
    if fields != [] {
      FieldMissing(fields[1..], key);
    }
  }
}
