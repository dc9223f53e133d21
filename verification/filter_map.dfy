/**
 * The shape of the advisor-building loop: visit a sequence in order, and for
 * each element either emit one result or skip it.
 */
module FilterMaps {
  import opened Wrappers
  import opened Sequences

  /** Results of `f` over `xs`, in order, dropping the `None`s. Defined from
      the end so that one more loop iteration is one more step of the definition. */
  function FilterMap<A, B>(xs: seq<A>, f: A -> Option<B>): (r: seq<B>)
    ensures |r| <= |xs|
    decreases |xs|
  {
    if xs == [] then []
    else FilterMap(xs[..|xs| - 1], f) + ToSeq(f(xs[|xs| - 1]))
  }

  lemma FilterMapSnoc<A, B>(xs: seq<A>, x: A, f: A -> Option<B>)
    ensures FilterMap(xs + [x], f) == FilterMap(xs, f) + ToSeq(f(x))
  {
    assert (xs + [x])[..|xs|] == xs;
  }

  /** A three-element input, unfolded. */
  lemma FilterMapThree<A, B>(x: A, y: A, z: A, f: A -> Option<B>)
    ensures FilterMap([x, y, z], f) == ToSeq(f(x)) + ToSeq(f(y)) + ToSeq(f(z))
  {
    FilterMapSnoc([], x, f);
    assert [] + [x] == [x];
    FilterMapSnoc([x], y, f);
    assert [x] + [y] == [x, y];
    FilterMapSnoc([x, y], z, f);
    assert [x, y] + [z] == [x, y, z];
  }

  /** Order is kept: filtering a concatenation concatenates the results. */
  lemma {:induction false} FilterMapAppend<A, B>(xs: seq<A>, ys: seq<A>, f: A -> Option<B>)
    ensures FilterMap(xs + ys, f) == FilterMap(xs, f) + FilterMap(ys, f)
    decreases |ys|
  {
    if ys == [] {
      assert xs + ys == xs;
    } else {
      var init, last := ys[..|ys| - 1], ys[|ys| - 1];
      assert ys == init + [last];
      ConcatAssociative(xs, init, [last]);
      FilterMapSnoc(xs + init, last, f);
      FilterMapAppend(xs, init, f);
      FilterMapSnoc(init, last, f);
      ConcatAssociative(FilterMap(xs, f), FilterMap(init, f), ToSeq(f(last)));
    }
  }

  /** Every result comes from some element of the input. */
  lemma {:induction false} FilterMapSound<A, B>(xs: seq<A>, f: A -> Option<B>, y: B)
    requires y in FilterMap(xs, f)
    ensures exists i :: 0 <= i < |xs| && f(xs[i]) == Some(y)
    decreases |xs|
  {
    var init, last := xs[..|xs| - 1], xs[|xs| - 1];
    if y in FilterMap(init, f) {
      FilterMapSound(init, f, y);
      var i :| 0 <= i < |init| && f(init[i]) == Some(y);
      assert xs[i] == init[i];
    } else {
      assert f(xs[|xs| - 1]) == Some(y);
    }
  }

  /** Every element for which `f` produces a result contributes it. */
  lemma {:induction false} FilterMapComplete<A, B>(xs: seq<A>, f: A -> Option<B>, i: int)
    requires 0 <= i < |xs| && f(xs[i]).Some?
    ensures f(xs[i]).value in FilterMap(xs, f)
    decreases |xs|
  {
    if i < |xs| - 1 {
      var init := xs[..|xs| - 1];
      assert init[i] == xs[i];
      FilterMapComplete(init, f, i);
    }
  }

  /** The positions of `xs` whose element `f` keeps. */
  ghost function Kept<A, B>(xs: seq<A>, f: A -> Option<B>): set<int>
  {
    set i | 0 <= i < |xs| && f(xs[i]).Some?
  }

  /** The number of results is the number of elements `f` keeps. */
  lemma {:induction false} FilterMapLength<A, B>(xs: seq<A>, f: A -> Option<B>)
    ensures |FilterMap(xs, f)| == |Kept(xs, f)|
    decreases |xs|
  {
    if xs != [] {
      var n := |xs| - 1;
      var init := xs[..n];
      FilterMapLength(init, f);
      var before := Kept(init, f);
      var after := Kept(xs, f);
      if f(xs[n]).Some? {
        assert after == before + {n};
      } else {
        assert after == before;
      }
    }
  }
}
