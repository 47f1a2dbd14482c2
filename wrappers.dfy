/** The optional value used throughout the model: `None` stands for JavaScript's
    `undefined`, or for `NaN` where a numeric conversion fails. */
module Wrappers {

  datatype Option<+T> = None | Some(value: T)

  /** JavaScript's `xs[i]`: the element at `i`, or `undefined` past either end. */
  function At<T>(xs: seq<T>, i: int): (r: Option<T>)
    ensures r.Some? <==> 0 <= i < |xs|
    ensures r.Some? ==> r.value == xs[i]
  {
    if 0 <= i < |xs| then Some(xs[i]) else None
  }
}
