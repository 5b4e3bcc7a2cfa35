/** The untyped values the source receives from `JSON.parse` and passes
    around as `unknown`, with the few JavaScript operators the source applies
    to them directly: `typeof`, `Array.isArray`, truthiness, property reads and
    `Object.hasOwn`. Numbers are integers (no fractions, no NaN), and an
    object is a finite map, so its key order is not represented. */
module Json {
  import opened Base
  import opened Strings

  datatype Json =
    | JUndef
    | JNull
    | JBool(b: bool)
    | JNum(n: int)
    | JStr(s: string)
    | JArr(items: seq<Json>)
    | JObj(fields: map<string, Json>)

  /** `typeof v`. */
  function TypeOf(v: Json): string
  {
    match v
    case JUndef => "undefined"
    case JNull => "object"
    case JBool(_) => "boolean"
    case JNum(_) => "number"
    case JStr(_) => "string"
    case JArr(_) => "object"
    case JObj(_) => "object"
  }

  /** `Array.isArray(v)`. */
  predicate IsArray(v: Json)
  {
    v.JArr?
  }

  /** Whether `if (v)` takes the branch. */
  predicate Truthy(v: Json)
  {
    match v
    case JUndef => false
    case JNull => false
    case JBool(b) => b
    case JNum(n) => n != 0
    case JStr(s) => s != ""
    case JArr(_) => true
    case JObj(_) => true
  }

  /** `v[key]` on a value the caller has already checked to be an object:
      the own property, or `undefined` when there is none. */
  function Get(v: Json, key: string): Json
  {
    if v.JObj? && key in v.fields then v.fields[key] else JUndef
  }

  /** `Object.hasOwn(v, key) ? v[key] : <absent>` for an object or an array.
      The own keys of an array are its canonical indices and `length`. */
  function OwnProperty(v: Json, key: string): Option<Json>
  {
    match v
    case JObj(m) => if key in m then Some(m[key]) else None
    case JArr(items) =>
      if key == "length" then Some(JNum(|items|))
      else (
        match CanonicalIndex(key)
        case Some(i) => if i < |items| then Some(items[i]) else None
        case None => None
      )
    case _ => None
  }

  /** The array `['s0', 's1', ...]`. */
  function StringArray(ss: seq<string>): (v: Json)
    ensures v.JArr? && |v.items| == |ss|
    ensures forall i :: 0 <= i < |ss| ==> v.items[i] == JStr(ss[i])
  {
    JArr(seq(|ss|, i requires 0 <= i < |ss| => JStr(ss[i])))
  }

  /** `String(v)`, as a template literal renders a value: arrays render as
      their elements joined by commas, with `null` and `undefined` elements
      empty, and every other object as `[object Object]`. */
  function ToJsString(v: Json): string
    decreases v, 1, 0
  {
    match v
    case JUndef => "undefined"
    case JNull => "null"
    case JBool(b) => if b then "true" else "false"
    case JNum(n) => IntToString(n)
    case JStr(s) => s
    case JArr(items) => ElementsString(v, 0)
    case JObj(_) => "[object Object]"
  }

  /** The elements of the array `v` from index `i` on, as `join(',')` renders them. */
  function ElementsString(v: Json, i: nat): string
    requires v.JArr?
    decreases v, 0, |v.items| - i
  {
    if i >= |v.items| then ""
    else
      var e := v.items[i];
      var first := if e.JNull? || e.JUndef? then "" else ToJsString(e);
      if i == |v.items| - 1 then first else first + "," + ElementsString(v, i + 1)
  }
}
