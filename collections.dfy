/** Small helpers standing for the JavaScript idioms the components lean on:
    an optional value, `m[k] ?? d` on a record, and `Array.prototype.some`. */
module Collections {

  datatype Option<+T> = None | Some(value: T)

  /** `m[k] ?? d`: the entry for `k`, or the default when the key is absent. */
  function Lookup<K, V>(m: map<K, V>, k: K, d: V): V {
    if k in m then m[k] else d
  }

  /** `xs.some(p)`: tests the elements from left to right, stopping at the first hit. */
  function Any<T>(xs: seq<T>, p: T -> bool): bool
    decreases |xs|
  {
    |xs| > 0 && (p(xs[0]) || Any(xs[1..], p))
  }

  /** `some` holds exactly when one element satisfies the predicate. */
  lemma {:induction false} AnyIff<T>(xs: seq<T>, p: T -> bool)
    ensures Any(xs, p) <==> exists i :: 0 <= i < |xs| && p(xs[i])
    decreases |xs|
  {
    if |xs| > 0 {
      AnyIff(xs[1..], p);
      if Any(xs[1..], p) {
        var j :| 0 <= j < |xs[1..]| && p(xs[1..][j]);
        assert p(xs[j + 1]);
      }
      if exists i :: 0 <= i < |xs| && p(xs[i]) {
        var i :| 0 <= i < |xs| && p(xs[i]);
        if i > 0 {
          assert p(xs[1..][i - 1]);
        }
      }
    }
  }
}
