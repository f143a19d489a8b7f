/** The "value or nothing" result used where the source gets back `undefined`
    from `Array.prototype.find` or leaves a `let result = null` unset, and
    that `find` itself. */
module Wrappers {

  datatype Option<+T> = None | Some(value: T)

  /** `xs.find(p)`: the first element satisfying `p`, if any. */
  function FindFirst<T>(xs: seq<T>, p: T -> bool): (r: Option<T>)
    ensures r.None? <==> forall k :: 0 <= k < |xs| ==> !p(xs[k])
    ensures r.Some? ==> exists k :: 0 <= k < |xs| && xs[k] == r.value && p(xs[k]) &&
                          forall j :: 0 <= j < k ==> !p(xs[j])
  {
    if xs == [] then None
    else if p(xs[0]) then Some(xs[0])
    else FindFirst(xs[1..], p)
  }

  /** The first match is the element at position k when it matches and no
      earlier element does. */
  lemma FindFirstAt<T>(xs: seq<T>, p: T -> bool, k: nat)
    requires k < |xs| && p(xs[k])
    requires forall j :: 0 <= j < k ==> !p(xs[j])
    ensures FindFirst(xs, p) == Some(xs[k])
  {
    var r := FindFirst(xs, p);
    var m :| 0 <= m < |xs| && xs[m] == r.value && p(xs[m]) && forall j :: 0 <= j < m ==> !p(xs[j]);
    assert m == k;
  }
}
