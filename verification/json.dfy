/**
 * Parsed JSON bodies, as the client sees them after `response.json()`,
 * together with the bits of Python semantics the client applies to them:
 * truthiness, `dict.get` and `str()`.
 */
module Json {
  import opened Results

  /** A decoded JSON document. Numbers are integers only. */
  datatype Value =
    | Null
    | Bool(b: bool)
    | Num(n: int)
    | Str(s: string)
    | Arr(items: seq<Value>)
    | Obj(fields: map<string, Value>)

  /** Python truthiness of the decoded value (`None`, `False`, `0`, `""`, `[]`, `{}` are false). */
  predicate Truthy(v: Value) {
    match v
    case Null => false
    case Bool(b) => b
    case Num(n) => n != 0
    case Str(s) => s != ""
    case Arr(items) => items != []
    case Obj(fields) => fields != map[]
  }

  /** The Python type name of the decoded value. */
  function TypeName(v: Value): string {
    match v
    case Null => "NoneType"
    case Bool(_) => "bool"
    case Num(_) => "int"
    case Str(_) => "str"
    case Arr(_) => "list"
    case Obj(_) => "dict"
  }

  /**
   * `v.get(key)`: the member, or `None` when the key is absent; on anything
   * but a dictionary Python raises AttributeError, whose text is the failure.
   */
  function Lookup(v: Value, key: string): (r: Result<Value, string>)
    ensures r.Success? <==> v.Obj?
    ensures v.Obj? && key in v.fields ==> r == Success(v.fields[key])
    ensures v.Obj? && key !in v.fields ==> r == Success(Null)
    ensures r.Failure? ==> |r.error| > 0
  {
    match v
    case Obj(fields) => Success(if key in fields then fields[key] else Null)
    case _ => Failure("'" + TypeName(v) + "' object has no attribute 'get'")
  }

  /** The decimal numeral of a natural number. */
  function Digits(n: nat): (r: string)
    ensures |r| > 0
    ensures forall i :: 0 <= i < |r| ==> '0' <= r[i] <= '9'
    decreases n
  {
    if n < 10 then [(('0' as int) + n) as char]
    else Digits(n / 10) + [(('0' as int) + n % 10) as char]
  }

  /**
   * Python `str()` of a decoded value, as an f-string embeds it. Lists and
   * dictionaries are rendered as a fixed placeholder.
   */
  function PyStr(v: Value): string {
    match v
    case Null => "None"
    case Bool(b) => if b then "True" else "False"
    case Num(n) => if n < 0 then "-" + Digits(-n) else Digits(n)
    case Str(s) => s
    case Arr(_) => "[...]"
    case Obj(_) => "{...}"
  }
}
