/**
 * The dynamically typed values that flow through the configuration helpers:
 * what a YAML or JSON loader produces, Python truthiness, `dict.get`, and
 * the conversions `int()`, `float()` and `str()`.
 */
module Values {
  import opened Wrappers
  import opened Text

  datatype Value =
    | Null
    | Bool(b: bool)
    | Int(i: int)
    | Real(r: real)
    | Str(s: string)
    | List(items: seq<Value>)
    | Obj(fields: map<string, Value>)

  type Dict = map<string, Value>

  /** The Python exceptions the configuration helpers let escape. */
  datatype PyError =
    | TypeError
    | ValueError(message: string)
    | AttributeError
    | KeyError(key: string)
    | ImportError

  /**
   * What the model does not compute itself: `float()` of a string (None when
   * it raises ValueError) and `str()` of a float, list or dict.
   */
  datatype Builtins = Builtins(parseFloat: string -> Option<real>, strOther: Value -> string)

  /** Python's `bool(v)`. */
  predicate Truthy(v: Value) {
    match v
    case Null => false
    case Bool(b) => b
    case Int(i) => i != 0
    case Real(r) => r != 0.0
    case Str(s) => s != ""
    case List(xs) => xs != []
    case Obj(m) => m != map[]
  }

  /** `d.get(k, default)`. */
  function Get(d: Dict, k: string, default: Value): Value {
    if k in d then d[k] else default
  }

  /** `os.environ.get(key, default)`; the process environment is a map. */
  function EnvGet(env: map<string, string>, key: string, default: string): string {
    if key in env then env[key] else default
  }

  /**
   * `d.get(k, {})` used as a dict: a missing key gives the empty dict and a
   * value that is not a dict makes the next `.get` raise AttributeError.
   */
  function Section(d: Dict, k: string): (r: Result<Dict, PyError>)
    ensures k !in d ==> r == Ok(map[])
    ensures k in d && d[k].Obj? ==> r == Ok(d[k].fields)
    ensures r.Err? <==> k in d && !d[k].Obj?
  {
    if k !in d then Ok(map[])
    else if d[k].Obj? then Ok(d[k].fields)
    else Err(AttributeError)
  }

  /** `d.get(k) or {}` used as a dict: every falsy value becomes the empty dict. */
  function SectionOrEmpty(d: Dict, k: string): (r: Result<Dict, PyError>)
    ensures !Truthy(Get(d, k, Null)) ==> r == Ok(map[])
    ensures k in d && d[k].Obj? ==> r == Ok(d[k].fields)
    ensures r.Err? <==> Truthy(Get(d, k, Null)) && !d[k].Obj?
  {
    var v := Get(d, k, Null);
    if !Truthy(v) then Ok(map[])
    else if v.Obj? then Ok(v.fields)
    else Err(AttributeError)
  }

  /** Python's `int(r)` for a float: truncation toward zero. */
  function Trunc(r: real): (n: int)
    ensures r >= 0.0 ==> n as real <= r < n as real + 1.0
    ensures r < 0.0 ==> n as real - 1.0 < r <= n as real
  {
    if r >= 0.0 then r.Floor else -((-r).Floor)
  }

  /** Python's `int(v)`. */
  function PyInt(v: Value): Result<int, PyError> {
    match v
    case Int(i) => Ok(i)
    case Bool(b) => Ok(if b then 1 else 0)
    case Real(r) => Ok(Trunc(r))
    case Str(s) =>
      (match ParseInt(s)
       case Some(n) => Ok(n)
       case None => Err(ValueError("invalid literal for int()")))
    case _ => Err(TypeError)
  }

  /** Python's `float(v)`. */
  function PyFloat(v: Value, py: Builtins): Result<real, PyError> {
    match v
    case Int(i) => Ok(i as real)
    case Bool(b) => Ok(if b then 1.0 else 0.0)
    case Real(r) => Ok(r)
    case Str(s) =>
      (match py.parseFloat(s)
       case Some(x) => Ok(x)
       case None => Err(ValueError("could not convert string to float")))
    case _ => Err(TypeError)
  }

  /** Python's `str(v)`. */
  function PyStr(v: Value, py: Builtins): string {
    match v
    case Str(s) => s
    case Int(i) => IntToString(i)
    case Bool(b) => if b then "True" else "False"
    case Null => "None"
    case _ => py.strOther(v)
  }

  /** `int()` undoes `str()` on integers, which the config code relies on for ports. */
  lemma PyIntOfPrintedInt(i: int)
    ensures PyInt(Str(IntToString(i))) == Ok(i)
  {
    ParseIntToString(i);
  }

  function Max(a: int, b: int): int { if a >= b then a else b }
  function Min(a: int, b: int): int { if a <= b then a else b }
  function MaxR(a: real, b: real): real { if a >= b then a else b }
  function MinR(a: real, b: real): real { if a <= b then a else b }

  /** `max(lo, min(hi, x))`, the clamp idiom of the configuration code. */
  function Clamp(x: int, lo: int, hi: int): (r: int)
    requires lo <= hi
    ensures lo <= r <= hi
    ensures lo <= x <= hi ==> r == x
  {
    Max(lo, Min(hi, x))
  }

  function ClampR(x: real, lo: real, hi: real): (r: real)
    requires lo <= hi
    ensures lo <= r <= hi
    ensures lo <= x <= hi ==> r == x
  {
    MaxR(lo, MinR(hi, x))
  }
}
