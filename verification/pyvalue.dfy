/** Python values as the service receives them from upstream JSON payloads and
    JSON columns, and the handful of Python builtins the core applies to them:
    truthiness, `dict.get`, `float()`, `int()` and `str()`. */
module PyValue {

  datatype Option<+T> = None | Some(value: T)
  {
    /** `x if x is not None else default` */
    function GetOr(default: T): T
    {
      match this
      case Some(v) => v
      case None => default
    }
  }

  /** The outcome of a Python expression that may raise: `Raised` stands for any
      exception that escapes it. */
  datatype Outcome<+T> = Ok(value: T) | Raised

  /** A point in time (a `datetime`), as an abstract instant; the model only
      compares and copies instants. */
  type Timestamp = int

  /** A JSON value, as `json.load` or a JSON column gives it to Python. */
  datatype Value =
    | Null
    | Bool(b: bool)
    | Int(i: int)
    | Float(f: real)
    | Str(s: string)
    | List(items: seq<Value>)
    | Dict(fields: map<string, Value>)

  /** Python truthiness: None, False, zero and empty containers are falsy. */
  predicate Truthy(v: Value)
  {
    match v
    case Null => false
    case Bool(b) => b
    case Int(i) => i != 0
    case Float(f) => f != 0.0
    case Str(s) => s != ""
    case List(xs) => xs != []
    case Dict(m) => m != map[]
  }

  /** `d.get(key, default)` */
  function Get(d: map<string, Value>, key: string, default: Value): (r: Value)
    ensures key !in d ==> r == default
    ensures key in d ==> r == d[key]
  {
    if key in d then d[key] else default
  }

  /** Values Python arithmetic and comparison accept as numbers (bool is an int). */
  predicate IsNumber(v: Value)
  {
    v.Bool? || v.Int? || v.Float?
  }

  function NumberOf(v: Value): real
    requires IsNumber(v)
  {
    match v
    case Bool(b) => if b then 1.0 else 0.0
    case Int(i) => i as real
    case Float(f) => f
  }

  /** Values that can be dictionary keys (lists and dicts are unhashable). */
  predicate Hashable(v: Value)
  {
    !v.List? && !v.Dict?
  }

  /** The text conversions of Python's builtins, which the model takes as given
      rather than reimplementing: `float(s)` and `int(s)` of a string (None where
      Python raises ValueError), and `str(v)` of a value. */
  datatype Builtins = Builtins(
    floatOfText: string -> Option<real>,
    intOfText: string -> Option<int>,
    render: Value -> string)

  /** `int(x)` of a float: truncation toward zero. */
  function Trunc(x: real): (t: int)
    ensures x >= 0.0 ==> t as real <= x < t as real + 1.0
    ensures x < 0.0 ==> t as real - 1.0 < x <= t as real
  {
    if x >= 0.0 then x.Floor else -((-x).Floor)
  }

  /** `float(v)`; None where Python raises TypeError or ValueError. */
  function FloatOf(py: Builtins, v: Value): Option<real>
  {
    match v
    case Null => None
    case Bool(_) => Some(NumberOf(v))
    case Int(_) => Some(NumberOf(v))
    case Float(f) => Some(f)
    case Str(s) => py.floatOfText(s)
    case List(_) => None
    case Dict(_) => None
  }

  /** `int(v)`; None where Python raises TypeError or ValueError. */
  function IntOf(py: Builtins, v: Value): Option<int>
  {
    match v
    case Null => None
    case Bool(b) => Some(if b then 1 else 0)
    case Int(i) => Some(i)
    case Float(f) => Some(Trunc(f))
    case Str(s) => py.intOfText(s)
    case List(_) => None
    case Dict(_) => None
  }

  /** `str(v)` (also what an f-string placeholder renders). */
  function StrOf(py: Builtins, v: Value): string
  {
    if v.Str? then v.s else py.render(v)
  }
}
