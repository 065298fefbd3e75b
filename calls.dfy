/** Sequential awaited calls without a local `try`: each call runs only if
    every call before it returned, and the first one that raises ends the
    sequence (it was still sent). */
module Calls {

  predicate AllOk<T>(xs: seq<T>, ok: T -> bool) {
    forall i :: 0 <= i < |xs| ==> ok(xs[i])
  }

  /** The calls of xs that are actually made, in order, when ok tells which
      ones return normally. */
  function UntilFailure<T>(xs: seq<T>, ok: T -> bool): (r: seq<T>)
    ensures |r| <= |xs| && r == xs[..|r|]
    ensures forall i :: 0 <= i < |r| - 1 ==> ok(r[i])
    ensures |r| < |xs| ==> |r| > 0 && !ok(r[|r| - 1])
    ensures AllOk(r, ok) <==> AllOk(xs, ok)
    ensures AllOk(xs, ok) ==> r == xs
  {
    if xs == [] then []
    else if ok(xs[0]) then
      var rest := UntilFailure(xs[1..], ok);
      assert AllOk(xs, ok) <==> AllOk(xs[1..], ok) by {
        if AllOk(xs[1..], ok) {
          forall i | 0 <= i < |xs| ensures ok(xs[i]) { if i > 0 { assert xs[i] == xs[1..][i - 1]; } }
        }
      }
      [xs[0]] + rest
    else [xs[0]]
  }
}
