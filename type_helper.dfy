/** The runtime shape checks of src/util/type-helper.ts. Each is the
    JavaScript test the source writes (in terms of `typeof` and
    `Array.isArray`), and its contract says which values of the JSON model it
    accepts. Every unmarshalling function of the model reads a field only after
    one of these checks has passed. */
module TypeHelper {
  import opened Json

  /** `typeof value !== 'undefined'`: only `undefined` fails; `null`, `0`,
      `''` and `{}` are all defined. */
  function IsDefined(value: Json): (r: bool)
    ensures r <==> !value.JUndef?
  {
    TypeOf(value) != "undefined"
  }

  /** An object that is neither `null` nor an array. */
  function IsObject(value: Json): (r: bool)
    ensures r <==> value.JObj?
  {
    TypeOf(value) == "object" && !IsArray(value) && value != JNull
  }

  /** The same test as `IsObject`, typed as an indexable record. */
  function IsObjectAsIndexableObject(value: Json): (r: bool)
    ensures r <==> value.JObj?
  {
    IsObject(value)
  }

  function IsString(value: Json): (r: bool)
    ensures r <==> value.JStr?
  {
    TypeOf(value) == "string" && value != JNull
  }

  /** A string with at least one character. */
  function IsNotEmptyString(value: Json): (r: bool)
    ensures r <==> value.JStr? && |value.s| > 0
  {
    IsString(value) && |value.s| > 0
  }

  /** `typeof value === 'number' && !isNaN(value)`; the model's numbers are
      integers and never NaN, and the string '42' is not a number. */
  function IsNumber(value: Json): (r: bool)
    ensures r <==> value.JNum?
  {
    TypeOf(value) == "number"
  }

  /** An array whose elements are all strings; the empty array passes. */
  function IsStringArray(value: Json): (r: bool)
    ensures r <==> value.JArr? && forall i :: 0 <= i < |value.items| ==> value.items[i].JStr?
  {
    IsArray(value) && forall i :: 0 <= i < |value.items| ==> IsString(value.items[i])
  }

  /** An object every own value of which is a string array; `{}` passes and `[]` fails. */
  function IsStringMapStringArray(value: Json): (r: bool)
    ensures r <==> value.JObj? && forall k :: k in value.fields ==> IsStringArray(value.fields[k])
  {
    IsObject(value) && forall v <- value.fields.Values :: IsStringArray(v)
  }

  /** The strings of a value that passed `IsStringArray`, in order. */
  function StringsOf(value: Json): (ss: seq<string>)
    requires IsStringArray(value)
    ensures |ss| == |value.items|
    ensures forall i :: 0 <= i < |ss| ==> value.items[i] == JStr(ss[i])
  {
    seq(|value.items|, i requires 0 <= i < |value.items| => value.items[i].s)
  }

  /** A string array and the strings read back from it determine each other. */
  lemma StringArrayRoundTrip(ss: seq<string>, value: Json)
    ensures IsStringArray(StringArray(ss)) && StringsOf(StringArray(ss)) == ss
    ensures IsStringArray(value) ==> StringArray(StringsOf(value)) == value
  {
  }

  /** The `Record<string, string[]>` a value that passed `IsStringMapStringArray` stands for. */
  function StringMapOf(value: Json): (m: map<string, seq<string>>)
    requires IsStringMapStringArray(value)
    ensures m.Keys == value.fields.Keys
    ensures forall k :: k in m ==> StringArray(m[k]) == value.fields[k]
  {
    map k | k in value.fields :: StringsOf(value.fields[k])
  }

  /** The object `{k: [...], ...}` holding a string-array map. */
  function StringMapJson(m: map<string, seq<string>>): (value: Json)
    ensures IsStringMapStringArray(value)
    ensures StringMapOf(value) == m
  {
    var value := JObj(map k | k in m :: StringArray(m[k]));
    assert forall k :: k in m ==> StringsOf(value.fields[k]) == m[k];
    value
  }
}
