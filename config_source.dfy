/**
 * The application's configuration store as the tracer manager reads it
 * (`$this->app->config->get(...)`). It behaves like ThinkPHP's Config::get:
 * an empty name yields the whole store, a dot-free name yields that top-level
 * block (an empty array when it is unset), and a dotted name descends one
 * segment at a time, giving up with the default at the first segment that is
 * not set (PHP `isset`: missing or null).
 */
module ConfigSource {
  import opened Values
  import Paths

  /** The whole application configuration: top-level blocks by name. */
  type Config = map<string, Value>

  /** The value reached from `v` along `path`, stepping only into entries that are set. */
  function Find(v: Value, path: seq<string>): (r: Option<Value>)
    ensures |path| > 0 && r.Some? ==> r.value != Null
    ensures path == [] ==> r == Some(v)
    ensures |path| > 0 && !(v.Arr? && path[0] in v.entries) ==> r == None
  {
    if path == [] then Some(v)
    else if v.Arr? && path[0] in v.entries && v.entries[path[0]] != Null then Find(v.entries[path[0]], path[1..])
    else None
  }

  /** Following `p` then `q` is following `p + q`. */
  lemma {:induction false} FindAppend(v: Value, p: seq<string>, q: seq<string>)
    ensures Find(v, p + q) == match Find(v, p) case None => None case Some(w) => Find(w, q)
  {
    if p != [] {
      assert (p + q)[0] == p[0] && (p + q)[1..] == p[1..] + q;
      if v.Arr? && p[0] in v.entries && v.entries[p[0]] != Null {
        FindAppend(v.entries[p[0]], p[1..], q);
      }
    } else {
      assert p + q == q;
    }
  }

  /**
   * A top-level block, or an empty array when it is unset (`$config[$name] ?? []`):
   * the same entry a one-segment walk reaches, with `[]` in place of a default.
   */
  function Pull(root: Config, name: string): (r: Value)
    ensures r == Find(Arr(root), [name]).GetOr(Arr(map[]))
    ensures r != Null
  {
    assert [name][1..] == [];
    if name in root && root[name] != Null then root[name] else Arr(map[])
  }

  /**
   * Config::get(name, default): the whole store for an empty name; otherwise
   * the isset walk along the name's segments, where a dot-free name falls back
   * to an empty array (ignoring the default) and a dotted one to the default.
   */
  function Get(root: Config, name: string, default: Value): (r: Value)
    ensures name == "" || name == "0" ==> r == Arr(root)
    ensures name != "" && name != "0" && '.' !in name ==> r == Find(Arr(root), Paths.Split(name)).GetOr(Arr(map[]))
    ensures '.' in name ==> r == Find(Arr(root), Paths.Split(name)).GetOr(default)
  {
    if name == "" || name == "0" then Arr(root)
    else if '.' !in name then Paths.SplitPlain(name); Pull(root, name)
    else Find(Arr(root), Paths.Split(name)).GetOr(default)
  }
}
