/**
  Order-preserving sequence combinators shared by every copy of the workflow
  logic: Kotlin's `mapNotNull` (and the equivalent "loop and append when the
  test passes") and `flatten`. Both are defined on the last element, the way
  a loop that appends builds its list.
 */
module Seqs {
  import opened Wrappers

  /** Keeps `f(x).value` for every `x` on which `f` is present, in order. */
  function FilterMap<A, B>(xs: seq<A>, f: A -> Option<B>): (r: seq<B>)
    ensures |r| <= |xs|
  {
    if |xs| == 0 then [] else FilterMap(xs[..|xs| - 1], f) + ToSeq(f(xs[|xs| - 1]))
  }

  /** Every kept value is the image of some element, and every present image is kept. */
  lemma {:induction false} FilterMapMembers<A, B>(xs: seq<A>, f: A -> Option<B>)
    ensures forall k :: 0 <= k < |FilterMap(xs, f)| ==> exists i :: 0 <= i < |xs| && f(xs[i]) == Some(FilterMap(xs, f)[k])
    ensures forall i :: 0 <= i < |xs| && f(xs[i]).Some? ==> f(xs[i]).value in FilterMap(xs, f)
  {
    KeptIndicesValues(xs, f);
    KeptIndicesExact(xs, f);
    var idx := KeptIndices(xs, f);
    var r := FilterMap(xs, f);
    forall k | 0 <= k < |r|
      ensures exists i :: 0 <= i < |xs| && f(xs[i]) == Some(r[k])
    {
      assert f(xs[idx[k]]) == Some(r[k]);
    }
    forall i | 0 <= i < |xs| && f(xs[i]).Some?
      ensures f(xs[i]).value in r
    {
      var k :| 0 <= k < |idx| && idx[k] == i;
      assert r[k] == f(xs[i]).value;
    }
  }

  /** The positions of `xs` that `FilterMap` keeps (see `KeptIndicesSpec`). */
  function KeptIndices<A, B>(xs: seq<A>, f: A -> Option<B>): seq<nat>
  {
    if |xs| == 0 then []
    else KeptIndices(xs[..|xs| - 1], f) + (if f(xs[|xs| - 1]).Some? then [|xs| - 1] else [])
  }

  /** The kept positions are strictly increasing and are exactly the positions where `f` is present. */
  lemma {:induction false} KeptIndicesExact<A, B>(xs: seq<A>, f: A -> Option<B>)
    ensures forall k :: 0 <= k < |KeptIndices(xs, f)| ==> KeptIndices(xs, f)[k] < |xs|
    ensures forall k, l :: 0 <= k < l < |KeptIndices(xs, f)| ==> KeptIndices(xs, f)[k] < KeptIndices(xs, f)[l]
    ensures forall i :: 0 <= i < |xs| ==> (i in KeptIndices(xs, f) <==> f(xs[i]).Some?)
    decreases |xs|
  {
    if |xs| > 0 {
      var n := |xs| - 1;
      var init := xs[..n];
      KeptIndicesExact(init, f);
      assert forall i :: 0 <= i < |init| ==> init[i] == xs[i];
    }
  }

  /**
    The k-th value `FilterMap` keeps comes from the k-th kept position, so
    `FilterMap` yields an order-preserving subsequence of the images.
   */
  lemma {:induction false} KeptIndicesValues<A, B>(xs: seq<A>, f: A -> Option<B>)
    ensures |KeptIndices(xs, f)| == |FilterMap(xs, f)|
    ensures forall k :: 0 <= k < |KeptIndices(xs, f)| ==>
      KeptIndices(xs, f)[k] < |xs| && f(xs[KeptIndices(xs, f)[k]]) == Some(FilterMap(xs, f)[k])
    decreases |xs|
  {
    if |xs| > 0 {
      var n := |xs| - 1;
      var init := xs[..n];
      KeptIndicesValues(init, f);
      KeptIndicesExact(init, f);
      var ki := KeptIndices(init, f);
      var fm := FilterMap(init, f);
      assert FilterMap(xs, f) == fm + ToSeq(f(xs[n]));
      forall k | 0 <= k < |ki|
        ensures f(xs[ki[k]]) == Some(FilterMap(xs, f)[k])
      {
        assert init[ki[k]] == xs[ki[k]];
      }
    }
  }

  lemma {:induction false} FilterMapAppend<A, B>(a: seq<A>, b: seq<A>, f: A -> Option<B>)
    ensures FilterMap(a + b, f) == FilterMap(a, f) + FilterMap(b, f)
    decreases |b|
  {
    if |b| == 0 {
      assert a + b == a;
    } else {
      var n := |b| - 1;
      assert (a + b)[..|a + b| - 1] == a + b[..n];
      FilterMapAppend(a, b[..n], f);
    }
  }

  /** Concatenation of the parts, in order. */
  function Flatten<T>(xss: seq<seq<T>>): seq<T>
  {
    if |xss| == 0 then [] else Flatten(xss[..|xss| - 1]) + xss[|xss| - 1]
  }

  lemma {:induction false} FlattenAppend<T>(a: seq<seq<T>>, b: seq<seq<T>>)
    ensures Flatten(a + b) == Flatten(a) + Flatten(b)
    decreases |b|
  {
    if |b| == 0 {
      assert a + b == a;
    } else {
      var n := |b| - 1;
      assert (a + b)[..|a + b| - 1] == a + b[..n];
      FlattenAppend(a, b[..n]);
    }
  }
}
