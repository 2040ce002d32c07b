/**
 * The stream combinator the heart-rate stream is built with, on finite
 * streams: a stream that has delivered its items is the sequence of them.
 */
module Streams {
  import opened Wrappers

  /**
   * `filter_map`: apply `f` to each item in order, keep `y` where `f`
   * gives `Some(y)` and drop the item where it gives `None`.
   */
  function FilterMap<A, B>(xs: seq<A>, f: A --> Option<B>): (r: seq<B>)
    requires forall i :: 0 <= i < |xs| ==> f.requires(xs[i])
    ensures |r| <= |xs|
  {
    if xs == [] then []
    else
      var rest := FilterMap(xs[1..], f);
      match f(xs[0])
      case Some(y) => [y] + rest
      case None => rest
  }

  /**
   * Filtering a stream piecewise gives what filtering it whole gives, so
   * items may be consumed as they arrive.
   */
  lemma {:induction false} FilterMapAppend<A, B>(xs: seq<A>, ys: seq<A>, f: A --> Option<B>)
    requires forall i :: 0 <= i < |xs| ==> f.requires(xs[i])
    requires forall i :: 0 <= i < |ys| ==> f.requires(ys[i])
    ensures FilterMap(xs + ys, f) == FilterMap(xs, f) + FilterMap(ys, f)
  {
    if xs == [] {
      assert xs + ys == ys;
    } else {
      assert (xs + ys)[1..] == xs[1..] + ys;
      FilterMapAppend(xs[1..], ys, f);
    }
  }

  /**
   * When `f` keeps every item, `filter_map` is a one-to-one map: one output
   * per input, in the input's order.
   */
  lemma {:induction false} FilterMapKeepsAll<A, B>(xs: seq<A>, f: A --> Option<B>)
    requires forall i :: 0 <= i < |xs| ==> f.requires(xs[i]) && f(xs[i]).Some?
    ensures |FilterMap(xs, f)| == |xs|
    ensures forall i :: 0 <= i < |xs| ==> FilterMap(xs, f)[i] == f(xs[i]).value
  {
    if xs != [] {
      FilterMapKeepsAll(xs[1..], f);
    }
  }
}
