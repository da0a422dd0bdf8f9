/** Keep-and-transform over sequences: the shape shared by `find_all`, the `try/except: continue`
    loop of `get_tag`, the skip-list loop and the skip of unreadable images. */
module Seqs {
  import opened Wrappers

  /** The values that `f` gives for the elements of `xs` it does not reject, in the order of `xs`. */
  function FilterMap<A, B>(xs: seq<A>, f: A -> Option<B>): (r: seq<B>)
    ensures |r| <= |xs|
    decreases |xs|
  {
    if xs == [] then []
    else FilterMap(xs[..|xs| - 1], f) + (match f(xs[|xs| - 1]) case Some(y) => [y] case None => [])
  }

  /** The positions of `xs` that `f` does not reject, in increasing order. */
  function Kept<A, B>(xs: seq<A>, f: A -> Option<B>): (ks: seq<nat>)
    ensures forall k :: 0 <= k < |ks| ==> ks[k] < |xs| && f(xs[ks[k]]).Some?
    ensures forall k, l :: 0 <= k < l < |ks| ==> ks[k] < ks[l]
    ensures forall i :: 0 <= i < |xs| && f(xs[i]).Some? ==> i in ks
    decreases |xs|
  {
    if xs == [] then []
    else
      var n := |xs| - 1;
      assert forall i :: 0 <= i < n ==> xs[..n][i] == xs[i];
      Kept(xs[..n], f) + (if f(xs[n]).Some? then [n] else [])
  }

  /** The k-th kept value is what `f` gives for the element at the k-th kept position: so the
      result of FilterMap is exactly the accepted elements, each once, in their original order. */
  lemma {:induction false} FilterMapKept<A, B>(xs: seq<A>, f: A -> Option<B>)
    ensures |Kept(xs, f)| == |FilterMap(xs, f)|
    ensures forall k :: 0 <= k < |Kept(xs, f)| ==> f(xs[Kept(xs, f)[k]]) == Some(FilterMap(xs, f)[k])
    decreases |xs|
  {
    if xs != [] {
      var n := |xs| - 1;
      var front := xs[..n];
      FilterMapKept(front, f);
      var ks, ys := Kept(front, f), FilterMap(front, f);
      forall k | 0 <= k < |ks|
        ensures f(xs[ks[k]]) == Some(ys[k])
      {
        assert front[ks[k]] == xs[ks[k]];
      }
      if f(xs[n]).Some? {
        assert Kept(xs, f) == ks + [n];
        assert FilterMap(xs, f) == ys + [f(xs[n]).value];
      } else {
        assert Kept(xs, f) == ks;
        assert FilterMap(xs, f) == ys;
      }
    }
  }

  /** When `f` rejects nothing, FilterMap is a plain map. */
  lemma {:induction false} FilterMapTotal<A, B>(xs: seq<A>, f: A -> Option<B>)
    requires forall i :: 0 <= i < |xs| ==> f(xs[i]).Some?
    ensures |FilterMap(xs, f)| == |xs|
    ensures forall i :: 0 <= i < |xs| ==> FilterMap(xs, f)[i] == f(xs[i]).value
    decreases |xs|
  {
    if xs != [] {
      var n := |xs| - 1;
      assert forall i :: 0 <= i < n ==> xs[..n][i] == xs[i];
      FilterMapTotal(xs[..n], f);
    }
  }
}
