/**
 * ThinkPHP's `think\helper\Arr::get`, the lookup the tracer manager applies
 * to a tracer block and to a parsed URL: anything that is not an array yields
 * the default; a null key yields the whole array; a key present as written
 * yields its entry, null included (array_key_exists); otherwise a dotted key
 * is followed segment by segment.
 */
module HelperArr {
  import opened Values
  import Paths

  /** Descent along `path` where each segment must exist as a key; a null entry still counts. */
  function Walk(v: Value, path: seq<string>): (r: Option<Value>)
    ensures path == [] ==> r == Some(v)
  {
    if path == [] then Some(v)
    else if v.Arr? && path[0] in v.entries then Walk(v.entries[path[0]], path[1..])
    else None
  }

  /**
   * Arr::get($v, $key, $default): the default for a non-array, the array
   * itself for a null key, the entry for a key present as written, and
   * otherwise the walk along the key's dot segments (a dot-free key that is
   * absent thus walks nowhere and gives the default).
   */
  function Get(v: Value, key: Option<string>, default: Value): (r: Value)
    ensures !v.Arr? ==> r == default
    ensures v.Arr? && key.None? ==> r == v
    ensures v.Arr? && key.Some? && key.value in v.entries ==> r == v.entries[key.value]
    ensures v.Arr? && key.Some? && key.value !in v.entries ==> r == Walk(v, Paths.Split(key.value)).GetOr(default)
  {
    if !v.Arr? then default
    else if key.None? then v
    else if key.value in v.entries then v.entries[key.value]
    else if '.' !in key.value then Paths.SplitPlain(key.value); default
    else Walk(v, Paths.Split(key.value)).GetOr(default)
  }

  /** For a key without a dot, Arr::get is a plain index with a default; a null default makes it `$v[$k] ?? null`. */
  lemma PlainKey(v: Value, k: string, default: Value)
    requires '.' !in k
    ensures Get(v, Some(k), default) == if v.Arr? && k in v.entries then v.entries[k] else default
    ensures Get(v, Some(k), Null) == Index(v, k)
  {
  }

  /** A two-segment key `a.b` that is not a key itself reaches entry `b` of entry `a`, or the default. */
  lemma {:induction false} TwoSegmentKey(m: map<string, Value>, a: string, b: string, default: Value)
    requires '.' !in a && '.' !in b
    requires a + "." + b !in m
    ensures Get(Arr(m), Some(a + "." + b), default)
         == if a in m && m[a].Arr? && b in m[a].entries then m[a].entries[b] else default
  {
    var k := a + "." + b;
    assert k[|a|] == '.';
    assert '.' in k;
    Paths.SplitDotted(a, b);
    Paths.SplitPlain(a);
    Paths.SplitPlain(b);
    assert Paths.Split(k) == [a, b];
    assert [a, b][1..] == [b] && [b][1..] == [];
    if a in m {
      assert Walk(Arr(m), [a, b]) == Walk(m[a], [b]);
    }
  }
}
