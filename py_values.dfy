/** The slice of Python's object model that a detection rule sees when it walks a
    JSON-like record: the value shapes, truthiness, identity with `False`, `d[k]`,
    `d.get(k, default)` chained along a path, and membership in a set of strings.
    Every Python exception such a walk can raise is a `PyError`, not a precondition. */
module PyValues {

  /** A decoded JSON value as Python holds it. Python's int and float are one case:
      they behave alike for truthiness and are never identical to `False`. */
  datatype Value =
    | Null                            // None
    | Bool(b: bool)                   // True / False
    | Num(x: real)                    // int or float
    | Str(s: string)                  // str
    | Dict(entries: map<string, Value>)
    | List(items: seq<Value>)

  /** The `{}` literal used as a default for intermediate `.get` calls. */
  const EmptyDict: Value := Dict(map[])

  /** The exceptions a rule body can raise while reading a record. */
  datatype PyError =
    | KeyError(key: string)           // `d[key]` on a dict without `key`
    | AttributeError(receiver: Value) // `.get` called on something that is not a dict
    | TypeError(operand: Value)       // an unhashable value tested with `in` on a set

  /** The outcome of a Python expression: a value, or the exception it raised.
      Failure-compatible, so that `:-` propagates an exception like Python does. */
  datatype Result<+T> = Ok(value: T) | Err(error: PyError) {
    predicate IsFailure() {
      Err?
    }

    function PropagateFailure<U>(): Result<U>
      requires Err?
    {
      Err(error)
    }

    function Extract(): T
      requires Ok?
    {
      value
    }
  }

  /** `bool(v)`: None, False, zero, and empty strings and containers are falsy. */
  predicate Truthy(v: Value)
  {
    match v
    case Null => false
    case Bool(b) => b
    case Num(x) => x != 0.0
    case Str(s) => s != ""
    case Dict(m) => m != map[]
    case List(xs) => xs != []
  }

  /** `v is False`: only the boolean singleton `False` itself. */
  predicate IsFalse(v: Value)
  {
    v == Bool(false)
  }

  /** `is False` is strictly stronger than falsiness: every value identical to
      `False` is falsy, and None, 0 and "" are falsy without being `False`. */
  lemma IdentityIsStricterThanFalsiness(v: Value)
    ensures IsFalse(v) ==> !Truthy(v)
    ensures !Truthy(v) && !IsFalse(v) <==> v in {Null, Num(0.0), Str(""), EmptyDict, List([])}
  {
  }

  /** `d[key]` on a dict. */
  function Subscript(d: map<string, Value>, key: string): Result<Value>
  {
    if key in d then Ok(d[key]) else Err(KeyError(key))
  }

  /** `receiver.get(key, default)`: only a dict has `.get`; a missing key gives the default. */
  function Get(receiver: Value, key: string, default: Value): Result<Value>
  {
    match receiver
    case Dict(m) => Ok(if key in m then m[key] else default)
    case _ => Err(AttributeError(receiver))
  }

  /** The chain `receiver.get(path[0], {}).get(path[1], {}) ... .get(path[n-1], default)`:
      every intermediate lookup defaults to an empty dict, the last one to `default`.
      A `.get` on a non-dict anywhere along the chain raises AttributeError; nothing
      along it can raise KeyError. */
  function GetPath(receiver: Value, path: seq<string>, default: Value): (r: Result<Value>)
    requires |path| > 0
    ensures !receiver.Dict? ==> r == Err(AttributeError(receiver))
    ensures r.Err? ==> r.error.AttributeError?
    ensures receiver.Dict? && path[0] !in receiver.entries ==> r == Ok(default)
    decreases |path|
  {
    if |path| == 1 then
      Get(receiver, path[0], default)
    else
      var next :- Get(receiver, path[0], EmptyDict);
      GetPath(next, path[1..], default)
  }

  /** Continues a chain of `.get` calls from the outcome of an earlier one. */
  function ThenGetPath(prefix: Result<Value>, path: seq<string>, default: Value): Result<Value>
    requires |path| > 0
  {
    var v :- prefix;
    GetPath(v, path, default)
  }

  /** Splitting a chain: `x.get(p...).get(q..., d)` is the chain over `p` with an empty-dict
      default, continued along `q`. */
  lemma {:induction false} GetPathAppend(receiver: Value, p: seq<string>, q: seq<string>, default: Value)
    requires |p| > 0 && |q| > 0
    ensures GetPath(receiver, p + q, default) == ThenGetPath(GetPath(receiver, p, EmptyDict), q, default)
    decreases |p|
  {
    assert (p + q)[0] == p[0];
    assert (p + q)[1..] == p[1..] + q;
    if |p| > 1 {
      match Get(receiver, p[0], EmptyDict)
      case Err(_) =>
      case Ok(next) =>
        GetPathAppend(next, p[1..], q, default);
    }
  }

  /** A chain through nested dicts whose every key is present yields the value at the
      end of the path, whatever the default. */
  lemma {:induction false} GetPathFound(receiver: Value, path: seq<string>, default: Value, leaf: Value)
    requires |path| > 0
    requires Reaches(receiver, path, leaf)
    ensures GetPath(receiver, path, default) == Ok(leaf)
    decreases |path|
  {
    if |path| > 1 {
      GetPathFound(receiver.entries[path[0]], path[1..], default, leaf);
    }
  }

  /** `leaf` is found at `path` below `v` by strict subscripting `v[path[0]]...[path[n-1]]`. */
  ghost predicate Reaches(v: Value, path: seq<string>, leaf: Value)
    decreases |path|
  {
    if path == [] then v == leaf
    else v.Dict? && path[0] in v.entries && Reaches(v.entries[path[0]], path[1..], leaf)
  }

  /** `v in s` for a set of strings: a string is looked up, other hashable values are
      never members, and a dict or list raises TypeError (unhashable type). */
  function Contains(s: set<string>, v: Value): Result<bool>
  {
    match v
    case Str(str) => Ok(str in s)
    case Dict(_) => Err(TypeError(v))
    case List(_) => Err(TypeError(v))
    case _ => Ok(false)
  }
}
