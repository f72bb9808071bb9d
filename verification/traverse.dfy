/** Mapping a fallible step over a sequence the way the macro's
    `variants.iter().map(..)` is consumed: in order, and the first panic ends
    the whole expansion. */
module Traverse {
  import opened Wrappers

  function MapResult<A, B, E>(xs: seq<A>, f: A -> Result<B, E>): (r: Result<seq<B>, E>)
    ensures r.Ok? <==> forall i :: 0 <= i < |xs| ==> f(xs[i]).Ok?
    ensures r.Ok? ==> |r.value| == |xs| && forall i :: 0 <= i < |xs| ==> r.value[i] == f(xs[i]).value
    ensures r.Err? ==> exists i :: 0 <= i < |xs| && f(xs[i]) == Err(r.error)
                                   && forall j :: 0 <= j < i ==> f(xs[j]).Ok?
  {
    if |xs| == 0 then Ok([])
    else
      var head :- f(xs[0]);
      var tail :- MapResult(xs[1..], f);
      assert forall i :: 1 <= i < |xs| ==> xs[i] == xs[1..][i - 1];
      Ok([head] + tail)
  }

  /** The error of the first element whose step fails with an error
      satisfying `p`, if any. */
  function FirstErrorWhere<A, B, E>(xs: seq<A>, f: A -> Result<B, E>, p: E -> bool): (r: Option<E>)
    ensures r.None? <==> forall i :: 0 <= i < |xs| ==> !(f(xs[i]).Err? && p(f(xs[i]).error))
    ensures r.Some? ==> p(r.value)
                        && exists i :: 0 <= i < |xs| && f(xs[i]) == Err(r.value)
                                       && forall j :: 0 <= j < i ==> !(f(xs[j]).Err? && p(f(xs[j]).error))
  {
    if |xs| == 0 then None
    else if f(xs[0]).Err? && p(f(xs[0]).error) then Some(f(xs[0]).error)
    else
      var r := FirstErrorWhere(xs[1..], f, p);
      assert forall i :: 1 <= i < |xs| ==> xs[i] == xs[1..][i - 1];
      r
  }
}
