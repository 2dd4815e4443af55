/** JSON values as the Python code sees them after `response.json()`, and
    Python's `str()` of such a value. */
module JsonValue {
  import opened Common
  import opened OrderedDict

  /** A number that is not an integer keeps its literal text (floats are
      not modelled). */
  datatype Json =
    | JNull
    | JBool(b: bool)
    | JInt(i: int)
    | JFloat(literal: string)
    | JStr(s: string)
    | JArr(items: seq<Json>)
    | JObj(members: Dict<Json>)

  /** `str(j)`: Python's rendering of a decoded JSON value. Strings nested in a
      container are shown between single quotes, without escaping. */
  function Show(j: Json): (s: string)
    ensures j.JStr? ==> |s| >= 2 && s[0] == '\'' && s[|s| - 1] == '\''
    ensures j.JArr? ==> |s| >= 2 && s[0] == '[' && s[|s| - 1] == ']'
    ensures j.JObj? ==> |s| >= 2 && s[0] == '{' && s[|s| - 1] == '}'
  {
    match j
    case JNull => "None"
    case JBool(b) => if b then "True" else "False"
    case JInt(i) => IntStr(i)
    case JFloat(lit) => lit
    case JStr(s) => "'" + s + "'"
    case JArr(items) =>
      "[" + Join(seq(|items|, i requires 0 <= i < |items| => Show(items[i])), ", ") + "]"
    case JObj(ms) =>
      "{" + Join(seq(|ms|, i requires 0 <= i < |ms| => "'" + ms[i].0 + "': " + Show(ms[i].1)), ", ") + "}"
  }

  /** Python truthiness of a decoded value. A float is false exactly when
      the mantissa of its literal has no non-zero digit. */
  predicate JTruthy(j: Json) {
    match j
    case JNull => false
    case JBool(b) => b
    case JInt(i) => i != 0
    case JFloat(lit) => NonZeroMantissa(lit)
    case JStr(s) => s != ""
    case JArr(items) => |items| > 0
    case JObj(ms) => |ms| > 0
  }

  /** Python's name for the type of a decoded JSON value. */
  function TypeName(j: Json): string {
    match j
    case JNull => "NoneType"
    case JBool(_) => "bool"
    case JInt(_) => "int"
    case JFloat(_) => "float"
    case JStr(_) => "str"
    case JArr(_) => "list"
    case JObj(_) => "dict"
  }

  /** Whether a number literal has a non-zero digit before its exponent. */
  predicate NonZeroMantissa(lit: string) {
    if |lit| == 0 || lit[0] == 'e' || lit[0] == 'E' then false
    else ('1' <= lit[0] <= '9') || NonZeroMantissa(lit[1..])
  }

  /** `dict(members)`: later bindings override earlier ones. */
  function ToMap(ms: Dict<Json>): (m: map<string, Json>)
    ensures m.Keys == set i | 0 <= i < |ms| :: ms[i].0
  {
    if |ms| == 0 then map[]
    else ToMap(ms[..|ms| - 1])[ms[|ms| - 1].0 := ms[|ms| - 1].1]
  }

  /** `{**j}`: only a JSON object is a mapping. */
  function Unpack(j: Option<Json>): (r: Result<map<string, Json>>)
    ensures r.Ok? <==> j.None? || j.value.JObj?
  {
    match j
    case None => Ok(map[])
    case Some(JObj(ms)) => Ok(ToMap(ms))
    case Some(_) => Err(TypeError("argument after ** must be a mapping"))
  }
}
