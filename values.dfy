/**
 * PHP values as they appear in a configuration array, and the few PHP
 * operators the tracer manager applies to them.
 */
module Values {

  /** A configuration value: a scalar, null, or a (nested) PHP array with string keys. */
  datatype Value =
    | Null
    | Bool(b: bool)
    | Int(i: int)
    | Str(s: string)
    | Arr(entries: map<string, Value>)

  datatype Option<+T> = None | Some(value: T) {
    /** The value held, or `default` when there is none. */
    function GetOr(default: T): T {
      match this
      case Some(v) => v
      case None => default
    }
  }

  datatype Result<+T, +E> = Ok(value: T) | Err(error: E)

  /** PHP's conversion to bool, as used by `if ($x = ...)`: null, false, 0, "", "0" and [] are false. */
  predicate Truthy(v: Value)
    ensures !Truthy(v) <==> v in {Null, Bool(false), Int(0), Str(""), Str("0"), Arr(map[])}
  {
    match v
    case Null => false
    case Bool(b) => b
    case Int(i) => i != 0
    case Str(s) => s != "" && s != "0"
    case Arr(m) => |m| != 0
  }

  /** `$v[$k] ?? null`: the entry under `k` when `v` is an array holding it, null otherwise. */
  function Index(v: Value, k: string): Value {
    if v.Arr? && k in v.entries then v.entries[k] else Null
  }

  /** `$x ?? $default`. */
  function Coalesce(x: Value, default: Value): Value {
    if x != Null then x else default
  }
}
