/**
 * The Python values that flow through the system as JSON-RPC messages, Chroma
 * metadata and tool results: JSON's universe plus Python's truthiness, `str()`
 * of scalars and `dict.get`.
 */
module Values {
  import opened Wrappers
  import opened Strings

  /**
   * A Python/JSON value. Dictionaries have string keys (JSON objects and Chroma
   * metadata). `Dumped(v)` is the text `json.dumps(v, indent=2)`, kept
   * symbolic: the model never inspects that text, only what was dumped.
   */
  datatype Value =
    | Null
    | Bool(b: bool)
    | Int(i: int)
    | Float(f: real)
    | Str(s: string)
    | List(items: seq<Value>)
    | Dict(fields: map<string, Value>)
    | Dumped(payload: Value)

  /** Python truthiness: `None`, `False`, zero, and empty strings, lists and dicts are false. */
  predicate Truthy(v: Value) {
    match v
    case Null => false
    case Bool(b) => b
    case Int(i) => i != 0
    case Float(f) => f != 0.0
    case Str(s) => s != ""
    case List(items) => items != []
    case Dict(fields) => fields != map[]
    case Dumped(_) => true
  }

  /**
   * Python's `str(v)` (what an f-string interpolates). Exact for `None`,
   * booleans, integers and strings; floats and containers get a fixed
   * stand-in text.
   */
  function PyStr(v: Value): (r: string)
    ensures v.Str? ==> r == v.s
    ensures v.Int? ==> ParseInt(r) == Some(v.i)
  {
    ParseIntRoundTrip(if v.Int? then v.i else 0);
    match v
    case Null => "None"
    case Bool(b) => if b then "True" else "False"
    case Int(i) => IntToString(i)
    case Float(_) => "<float>"
    case Str(s) => s
    case List(_) => "<list>"
    case Dict(_) => "<dict>"
    case Dumped(_) => "<json>"
  }

  /** `type(v).__name__`, as Python's error messages print it. */
  function TypeName(v: Value): string {
    match v
    case Null => "NoneType"
    case Bool(_) => "bool"
    case Int(_) => "int"
    case Float(_) => "float"
    case Str(_) | Dumped(_) => "str"
    case List(_) => "list"
    case Dict(_) => "dict"
  }

  /** `d.get(key, default)` on a string-keyed dictionary. */
  function Get(d: map<string, Value>, key: string, default: Value): (r: Value)
    ensures key in d ==> r == d[key]
    ensures key !in d ==> r == default
  {
    if key in d then d[key] else default
  }

  /** `str(e)` of the `KeyError` raised by `d[key]` on a missing key. */
  function MissingKey(key: string): string {
    "'" + key + "'"
  }

  /** The first of `keys` that `d` lacks. */
  function FirstMissing(d: map<string, Value>, keys: seq<string>): (r: Option<string>)
    ensures r.None? <==> forall key :: key in keys ==> key in d
    ensures r.Some? ==> r.value in keys && r.value !in d
  {
    if |keys| == 0 then None
    else if keys[0] !in d then Some(keys[0])
    else FirstMissing(d, keys[1..])
  }
}
