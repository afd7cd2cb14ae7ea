/** Values as Python's `json` module decodes them, and the dictionary
    operations the scraper and the normalizer apply to them. */
module Json {

  /** A decoded JSON value: `None`, a `bool`, an `int`, a `float` (modelled
      as a real number), a `str`, a `list` or a `dict`. */
  datatype Json =
    | JNull
    | JBool(b: bool)
    | JInt(i: int)
    | JFloat(f: real)
    | JStr(s: string)
    | JArr(elems: seq<Json>)
    | JObj(fields: map<string, Json>)

  /** A decoded JSON object. */
  type Object = map<string, Json>

  /** `o.get(k)`: the value stored under `k`, or `None` when `k` is absent. */
  function Get(o: Object, k: string): (v: Json)
    ensures k !in o ==> v == JNull
    ensures k in o ==> v == o[k]
  {
    if k in o then o[k] else JNull
  }

  /** `o.get(k, d)`: the default is used only when `k` is absent, not when
      it is present with the value `None`. */
  function GetOr(o: Object, k: string, d: Json): (v: Json)
    ensures k !in o ==> v == d
    ensures k in o ==> v == o[k]
  {
    if k in o then o[k] else d
  }

  /** Python truthiness of a decoded value. */
  predicate Truthy(v: Json) {
    match v
    case JNull => false
    case JBool(b) => b
    case JInt(i) => i != 0
    case JFloat(f) => f != 0.0
    case JStr(s) => s != ""
    case JArr(a) => a != []
    case JObj(m) => m != map[]
  }

  /** `isinstance(v, (int, float))`; a `bool` is an `int` in Python. */
  predicate IsNumber(v: Json) {
    v.JInt? || v.JFloat? || v.JBool?
  }

  /** `float(v)` for a number. */
  function FloatValue(v: Json): real
    requires IsNumber(v)
  {
    match v
    case JInt(i) => i as real
    case JFloat(f) => f
    case JBool(b) => if b then 1.0 else 0.0
  }
}
