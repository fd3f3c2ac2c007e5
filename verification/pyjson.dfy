/**
 Decoded JSON values as a Python program sees them after `response.json()`,
 together with the three dynamic operations the weather report applies to
 them: `dict.get` with a default, a `.get` call on a value of unknown type,
 and subscripting with `[0]`. Operations that Python would abort with an
 exception return `Raise` with the exception's class.
 */
module PyJson {

  datatype Json =
    | JNull                            // None
    | JBool(b: bool)                   // True / False
    | JNum(n: real)                    // int or float
    | JStr(s: string)                  // str
    | JArr(elems: seq<Json>)           // list
    | JObj(fields: map<string, Json>)  // dict (JSON object keys are strings)

  /** The exception classes the report formatter can raise. */
  datatype Exception =
    | AttributeError  // `.get` on something that is not a dict
    | IndexError      // `[0]` on an empty list or an empty string
    | KeyError        // `[0]` on a dict: its keys are strings, never 0
    | TypeError       // `[0]` on None, a bool or a number

  /** The outcome of a Python expression: a value, or the exception it raised. */
  datatype Result<+T> = Ok(value: T) | Raise(error: Exception)

  /**
   Python's `str()` applied to a decoded value is supplied by the caller as a
   `show: Json -> string`; the model only relies on `str()` of a `str` being the
   string itself.
   */
  ghost predicate ShowsStringsVerbatim(show: Json -> string) {
    forall s: string :: show(JStr(s)) == s
  }

  /** `m.get(key, default)` on a dict. */
  function Get(m: map<string, Json>, key: string, default: Json): (v: Json)
    ensures key in m ==> v == m[key]
    ensures key !in m ==> v == default
  {
    if key in m then m[key] else default
  }

  /** `v.get(key, default)` where `v` is any decoded value: only a dict has `.get`. */
  function DictGet(v: Json, key: string, default: Json): (r: Result<Json>)
    ensures r.Ok? <==> v.JObj?
    ensures r.Raise? ==> r.error == AttributeError
    ensures v.JObj? && key in v.fields ==> r == Ok(v.fields[key])
    ensures v.JObj? && key !in v.fields ==> r == Ok(default)
  {
    match v
    case JObj(fields) => Ok(Get(fields, key, default))
    case _ => Raise(AttributeError)
  }

  /** `v[0]` where `v` is any decoded value. */
  function Subscript0(v: Json): (r: Result<Json>)
    ensures r.Ok? <==> (v.JArr? && |v.elems| > 0) || (v.JStr? && |v.s| > 0)
    ensures v.JArr? && |v.elems| > 0 ==> r == Ok(v.elems[0])
    ensures v.JStr? && |v.s| > 0 ==> r == Ok(JStr(v.s[..1]))
    ensures r.Raise? && r.error == IndexError <==> v in {JArr([]), JStr("")}
    ensures r.Raise? && r.error == KeyError <==> v.JObj?
    ensures r.Raise? && r.error == TypeError <==> v.JNull? || v.JBool? || v.JNum?
  {
    match v
    case JArr(xs) => if |xs| == 0 then Raise(IndexError) else Ok(xs[0])
    case JStr(s) => if |s| == 0 then Raise(IndexError) else Ok(JStr(s[..1]))
    case JObj(_) => Raise(KeyError)
    case _ => Raise(TypeError)
  }
}
