/**
 * Dot-delimited configuration paths: PHP's `explode('.', $path)`, which both
 * the configuration store and `Arr::get` use to read a dotted key, and its
 * inverse `implode('.', $segments)`.
 */
module Paths {

  /** The segments of `s` between its dots; empty segments are kept, so there is always at least one. */
  function Split(s: string): (r: seq<string>)
    ensures |r| >= 1
    ensures forall i :: 0 <= i < |r| ==> '.' !in r[i]
  {
    if s == [] then [""]
    else if s[0] == '.' then [""] + Split(s[1..])
    else
      var rest := Split(s[1..]);
      [[s[0]] + rest[0]] + rest[1..]
  }

  /** The segments glued back together with a dot between neighbours. */
  function Join(segs: seq<string>): string
    requires |segs| >= 1
  {
    if |segs| == 1 then segs[0] else segs[0] + "." + Join(segs[1..])
  }

  /** Splitting loses nothing: joining the segments gives back the path. */
  lemma {:induction false} JoinSplit(s: string)
    ensures Join(Split(s)) == s
  {
    if s == [] {
    } else if s[0] == '.' {
      var r := Split(s[1..]);
      JoinSplit(s[1..]);
      assert ([""] + r)[1..] == r;
      assert s == "." + s[1..];
    } else {
      var r := Split(s[1..]);
      JoinSplit(s[1..]);
      assert s == [s[0]] + s[1..];
      if |r| == 1 {
      } else {
        assert Join(r) == r[0] + "." + Join(r[1..]);
        var out := [[s[0]] + r[0]] + r[1..];
        assert out[1..] == r[1..];
        assert Join(out) == ([s[0]] + r[0]) + "." + Join(r[1..]);
      }
    }
  }

  /** A path without a dot is a single segment. */
  lemma {:induction false} SplitPlain(s: string)
    requires '.' !in s
    ensures Split(s) == [s]
  {
    if s != [] {
      assert '.' !in s[1..] by {
        forall i | 0 <= i < |s[1..]| ensures s[1..][i] != '.' {
          assert s[1..][i] == s[i + 1];
        }
      }
      SplitPlain(s[1..]);
      assert s == [s[0]] + s[1..];
    }
  }

  /** The segments of `a.b` are those of `a` followed by those of `b`. */
  lemma {:induction false} SplitDotted(a: string, b: string)
    ensures Split(a + "." + b) == Split(a) + Split(b)
  {
    var s := a + "." + b;
    if a == [] {
      assert s[0] == '.' && s[1..] == b;
    } else if a[0] == '.' {
      assert s[0] == '.' && s[1..] == a[1..] + "." + b;
      SplitDotted(a[1..], b);
    } else {
      assert s[0] == a[0] && s[1..] == a[1..] + "." + b;
      SplitDotted(a[1..], b);
      var x, y := Split(a[1..]), Split(b);
      assert (x + y)[0] == x[0];
      assert (x + y)[1..] == x[1..] + y;
    }
  }

  /** explode is injective: two paths with the same segments are the same path. */
  lemma SplitInjective(a: string, b: string)
    requires Split(a) == Split(b)
    ensures a == b
  {
    JoinSplit(a);
    JoinSplit(b);
  }

  /** Joining segments that hold no dot and splitting again gives back the segments. */
  lemma {:induction false} SplitJoin(segs: seq<string>)
    requires |segs| >= 1
    requires forall i :: 0 <= i < |segs| ==> '.' !in segs[i]
    ensures Split(Join(segs)) == segs
  {
    SplitPlain(segs[0]);
    if |segs| > 1 {
      SplitJoin(segs[1..]);
      SplitDotted(segs[0], Join(segs[1..]));
      assert segs == [segs[0]] + segs[1..];
    }
  }
}
