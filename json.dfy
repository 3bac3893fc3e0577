/**
 * Parsed JSON values, the shape `JSON.parse` produces and `res.json` sends.
 * Numbers are reals (NaN and the infinities do not occur in parsed JSON).
 */
module Json {
  import opened Wrappers
  import Text

  datatype Json =
    | JNull
    | JBool(b: bool)
    | JNum(n: real)
    | JStr(s: string)
    | JArr(items: seq<Json>)
    | JObj(fields: map<string, Json>)

  /** JavaScript truthiness of a value. */
  predicate Truthy(j: Json) {
    match j
    case JNull => false
    case JBool(b) => b
    case JNum(n) => n != 0.0
    case JStr(s) => s != ""
    case _ => true
  }

  /** Truthiness of a possibly-`undefined` value. */
  predicate TruthyOpt(o: Option<Json>) {
    o.Some? && Truthy(o.value)
  }

  /** `j[key]` on an object; `undefined` (None) when `j` is not an object or lacks the key. */
  function Get(j: Json, key: string): (r: Option<Json>)
    ensures r.Some? <==> j.JObj? && key in j.fields
  {
    if j.JObj? && key in j.fields then Some(j.fields[key]) else None
  }

  /** The own enumerable properties `{...items}` copies out of an array or a string: one per index. */
  function Indexed(items: seq<Json>, from: nat): map<string, Json>
    requires from <= |items|
    decreases |items| - from
  {
    if from == |items| then map[] else Indexed(items, from + 1)[Text.NatToString(from) := items[from]]
  }

  /** What object spread `{...j}` copies out of `j`: an object's fields, one entry per index of
   *  an array or a string, and nothing from `null`, booleans or numbers. */
  function Spread(j: Json): map<string, Json> {
    match j
    case JObj(m) => m
    case JArr(a) => Indexed(a, 0)
    case JStr(s) => Indexed(seq(|s|, i requires 0 <= i < |s| => JStr([s[i]])), 0)
    case _ => map[]
  }

  /** `{...base, ...over}`: every key of `over` takes its value from `over`; every other key of `base` is kept. */
  function Merge(base: map<string, Json>, over: map<string, Json>): (r: map<string, Json>)
    ensures r.Keys == base.Keys + over.Keys
    ensures forall k :: k in over ==> r[k] == over[k]
    ensures forall k :: k in base && k !in over ==> r[k] == base[k]
  {
    base + over
  }
}
