/** The Python objects the REST layer handles: JSON-like values exchanged with
    the chemistry services, the exceptions they raise, the request dictionaries
    handed in by the web framework, and the few builtin operations (subscript,
    `.get`, `len`, `in`, `int()`, truthiness) the layer applies to them. */
module PyValues {

  /** A JSON-like Python object. Dicts are unordered here (see README). */
  datatype Value =
    | Null
    | Bool(b: bool)
    | Num(n: int)
    | Real(r: real)
    | Str(s: string)
    | Arr(items: seq<Value>)
    | Obj(fields: map<string, Value>)

  /** The exception classes the layer can observe. `Raised` stands for any
      other exception thrown inside an external collaborator. */
  datatype Exc =
    | KeyError(key: string)
    | IndexError
    | TypeError
    | AttributeError
    | ValueError
    | NameError(name: string)  // also UnboundLocalError, its subclass
    | Raised(kind: string)

  datatype Option<+T> = None | Some(value: T)

  /** A Python computation's outcome: a value, or the exception it raised. */
  datatype Result<+T> = Success(value: T) | Failure(error: Exc) {
    predicate IsFailure() { Failure? }
    function PropagateFailure<U>(): Result<U>
      requires Failure?
    {
      Failure(error)
    }
    function Extract(): T
      requires Success?
    {
      value
    }
  }

  /** Python truthiness (`if v:`). */
  predicate Truthy(v: Value) {
    match v
    case Null => false
    case Bool(b) => b
    case Num(n) => n != 0
    case Real(r) => r != 0.0
    case Str(s) => |s| > 0
    case Arr(items) => |items| > 0
    case Obj(m) => |m| > 0
  }

  /** `v[key]` with a string key: only a dict has string subscripts. */
  function Subscript(v: Value, key: string): Result<Value> {
    match v
    case Obj(m) => if key in m then Success(m[key]) else Failure(KeyError(key))
    case _ => Failure(TypeError)
  }

  /** `v[0]`. */
  function First(v: Value): Result<Value> {
    match v
    case Arr(items) => if |items| > 0 then Success(items[0]) else Failure(IndexError)
    case Str(s) => if |s| > 0 then Success(Str([s[0]])) else Failure(IndexError)
    case Obj(m) => Failure(KeyError("0"))
    case _ => Failure(TypeError)
  }

  /** `v[-1]`. */
  function Last(v: Value): Result<Value> {
    match v
    case Arr(items) => if |items| > 0 then Success(items[|items| - 1]) else Failure(IndexError)
    case Str(s) => if |s| > 0 then Success(Str([s[|s| - 1]])) else Failure(IndexError)
    case Obj(m) => Failure(KeyError("-1"))
    case _ => Failure(TypeError)
  }

  /** `v.get(key)`: only a dict has `get`. */
  function DictGet(v: Value, key: string): Result<Value> {
    match v
    case Obj(m) => Success(if key in m then m[key] else Null)
    case _ => Failure(AttributeError)
  }

  /** `d.get(key)` on a dict known to be one. */
  function MapGet(m: map<string, Value>, key: string): Value {
    if key in m then m[key] else Null
  }

  /** `len(v)`. */
  function PyLen(v: Value): Result<nat> {
    match v
    case Str(s) => Success(|s|)
    case Arr(items) => Success(|items|)
    case Obj(m) => Success(|m|)
    case _ => Failure(TypeError)
  }

  /** `x in s` for strings: substring test. */
  predicate IsSubstring(x: string, s: string)
    decreases |s|
  {
    x <= s || (|s| > 0 && IsSubstring(x, s[1..]))
  }

  /** `x in v` for a string `x`. */
  function PyIn(x: string, v: Value): Result<bool> {
    match v
    case Str(s) => Success(IsSubstring(x, s))
    case Arr(items) => Success(Str(x) in items)
    case Obj(m) => Success(x in m)
    case _ => Failure(TypeError)
  }

  predicate IsDigit(c: char) { '0' <= c <= '9' }

  function DigitsValue(s: string): nat
    requires forall i :: 0 <= i < |s| ==> IsDigit(s[i])
  {
    if |s| == 0 then 0
    else
      assert IsDigit(s[|s| - 1]);
      DigitsValue(s[..|s| - 1]) * 10 + (s[|s| - 1] as int - '0' as int)
  }

  /** `int(s)` for a string: an optional sign and at least one ASCII digit. */
  function ParseInt(s: string): Result<int> {
    var signed := |s| > 0 && (s[0] == '-' || s[0] == '+');
    var digits := if signed then s[1..] else s;
    if |digits| == 0 || exists i :: 0 <= i < |digits| && !IsDigit(digits[i]) then Failure(ValueError)
    else
      var n: int := DigitsValue(digits);
      Success(if signed && s[0] == '-' then -n else n)
  }

  /** `int(v)`: floats truncate toward zero, booleans are 0 and 1. */
  function PyInt(v: Value): Result<int> {
    match v
    case Num(n) => Success(n)
    case Bool(b) => Success(if b then 1 else 0)
    case Real(r) => Success(if r >= 0.0 then r.Floor else -((-r).Floor))
    case Str(s) => ParseInt(s)
    case _ => Failure(TypeError)
  }

  /** The request dictionary a view passes in: a plain dict, or the framework's
      immutable QueryDict, whose values are lists of strings. */
  datatype Request =
    | PyDict(entries: map<string, Value>)
    | FrozenQueryDict(lists: map<string, seq<string>>)

  /** `request.get(key)`: a QueryDict gives the last value of the list, and
      None for a missing key or an empty list. */
  function Get(req: Request, key: string): Value {
    match req
    case PyDict(m) => MapGet(m, key)
    case FrozenQueryDict(l) =>
      if key in l && |l[key]| > 0 then Str(l[key][|l[key]| - 1]) else Null
  }

  /** `request[key]`: a QueryDict gives the last value, and an empty list for
      an empty list. */
  function Index(req: Request, key: string): Result<Value> {
    match req
    case PyDict(m) => if key in m then Success(m[key]) else Failure(KeyError(key))
    case FrozenQueryDict(l) =>
      if key !in l then Failure(KeyError(key))
      else if |l[key]| == 0 then Success(Arr([]))
      else Success(Str(l[key][|l[key]| - 1]))
  }

  /** The content of an HTTP response: a JSON document or plain text. */
  datatype Body = JsonBody(json: Value) | TextBody(text: string)
}
