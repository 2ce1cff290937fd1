/**
 * The part of Python's runtime that the webhook handlers lean on: JSON
 * values as `request.json` hands them over, subscripting with a string key,
 * `dict.get`, `str.split`, truthiness, `str()`, and the exceptions these raise.
 */
module PyValue {
  import Text

  datatype Option<+T> = None | Some(value: T) {
    /** The value, or `default` when there is none (`d.get(key, default)`). */
    function GetOr(default: T): T {
      match this
      case Some(v) => v
      case None => default
    }
  }

  /** An element of a Python `bytes` object. */
  newtype Byte = x: int | 0 <= x < 256

  /** The exception classes that can reach one of the handlers' `except` clauses. */
  datatype Exc =
    | KeyError        // a dict has no such key
    | TypeError       // subscripting a non-dict, or comparing non-ASCII strings
    | AttributeError  // a value without the method called on it, `None` included
    | BadRequest      // the body could not be read as JSON

  /** The outcome of evaluating a Python expression: a value, or a raised exception. */
  datatype Eval<+T> = Ok(value: T) | Raised(exc: Exc) {
    predicate IsFailure() { Raised? }
    function PropagateFailure<U>(): Eval<U> requires Raised? { Raised(exc) }
    function Extract(): T requires Ok? { value }
  }

  /** A decoded JSON document. Numbers are integers (see README). */
  datatype Json =
    | JNull
    | JBool(b: bool)
    | JInt(n: int)
    | JStr(s: string)
    | JArray(items: seq<Json>)
    | JObject(fields: map<string, Json>)

  /** `v[key]`: only a dict takes a string subscript; a dict without the key raises KeyError. */
  function Subscript(v: Json, key: string): (r: Eval<Json>)
    ensures r.Ok? <==> v.JObject? && key in v.fields
    ensures r.Ok? ==> r.value == v.fields[key]
    ensures r.Raised? ==> r.exc == (if v.JObject? then KeyError else TypeError)
  {
    match v
    case JObject(f) => if key in f then Ok(f[key]) else Raised(KeyError)
    case _ => Raised(TypeError)
  }

  /** `v.get(key)`: a dict answers None for a missing key; no other JSON value has `get`. */
  function Get(v: Json, key: string): (r: Eval<Json>)
    ensures r.Ok? <==> v.JObject?
    ensures r.Ok? ==> r.value == (if key in v.fields then v.fields[key] else JNull)
    ensures r.Raised? ==> r.exc == AttributeError
  {
    match v
    case JObject(f) => Ok(if key in f then f[key] else JNull)
    case _ => Raised(AttributeError)
  }

  /** `v.split(sep)`: only strings have `split`. */
  function SplitMethod(v: Json, sep: char): (r: Eval<seq<string>>)
    ensures r.Ok? <==> v.JStr?
    ensures r.Ok? ==> |r.value| >= 1 && r.value[|r.value| - 1] == Text.LastPiece(v.s, sep)
    ensures r.Raised? ==> r.exc == AttributeError
  {
    match v
    case JStr(s) => Ok(Text.Split(s, sep))
    case _ => Raised(AttributeError)
  }

  /** Python truthiness of a JSON value: only None, False, 0 and the empty str, list and dict are false. */
  function Truthy(v: Json): (b: bool)
    ensures !b <==> v in {JNull, JBool(false), JInt(0), JStr(""), JArray([]), JObject(map[])}
  {
    match v
    case JNull => false
    case JBool(b) => b
    case JInt(n) => n != 0
    case JStr(s) => s != ""
    case JArray(items) => items != []
    case JObject(fields) => fields != map[]
  }

  /** `str(v)` for the scalar JSON values; containers get a fixed stand-in (see README). */
  function Str(v: Json): (r: string)
    ensures v.JInt? ==> |r| >= 1 && (r[0] == '-' <==> v.n < 0)
                        && (var d := if r[0] == '-' then r[1..] else r;
                            |d| >= 1 && Text.AllDigits(d) && (d[0] == '0' <==> v.n == 0))
                        && Text.IntValue(r) == v.n
    ensures v.JInt? ==> (v.n == 0 <==> r == "0")
  {
    match v
    case JNull => "None"
    case JBool(b) => if b then "True" else "False"
    case JInt(n) => Text.IntRoundTrip(n); Text.IntToDecimal(n)
    case JStr(s) => s
    case JArray(_) => "[...]"
    case JObject(_) => "{...}"
  }
}
