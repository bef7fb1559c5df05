/**
 * The best-effort "keep what resolves" pattern that the application writes as a
 * for-loop appending to a list: each input either contributes one output or is
 * dropped, and the outputs keep the input order.
 */
module Seqs {
  import opened Wrappers

  /** Outputs of f on xs, in order, with the None results dropped. */
  function FilterMap<A, B>(xs: seq<A>, f: A -> Option<B>): (r: seq<B>)
    ensures |r| <= |xs|
  {
    if xs == [] then []
    else
      var rest := FilterMap(xs[..|xs| - 1], f);
      match f(xs[|xs| - 1])
      case Some(y) => rest + [y]
      case None => rest
  }

  /** Appending one input appends its output, if any: the step of the loops. */
  lemma FilterMapSnoc<A, B>(xs: seq<A>, x: A, f: A -> Option<B>)
    ensures FilterMap(xs + [x], f) == FilterMap(xs, f) + (match f(x) case Some(y) => [y] case None => [])
  {
    assert (xs + [x])[..|xs + [x]| - 1] == xs;
  }

  /** FilterMap is a homomorphism on concatenation: the outputs keep the input order. */
  lemma {:induction false} FilterMapConcat<A, B>(xs: seq<A>, ys: seq<A>, f: A -> Option<B>)
    ensures FilterMap(xs + ys, f) == FilterMap(xs, f) + FilterMap(ys, f)
    decreases |ys|
  {
    if ys == [] {
      assert xs + ys == xs;
    } else {
      var init, last := ys[..|ys| - 1], ys[|ys| - 1];
      assert ys == init + [last];
      assert xs + ys == (xs + init) + [last];
      FilterMapSnoc(xs + init, last, f);
      FilterMapSnoc(init, last, f);
      FilterMapConcat(xs, init, f);
    }
  }

  /** Every output comes from some input, and every input that maps to Some contributes. */
  lemma {:induction false} FilterMapMembership<A, B>(xs: seq<A>, f: A -> Option<B>, y: B)
    ensures y in FilterMap(xs, f) <==> exists i :: 0 <= i < |xs| && f(xs[i]) == Some(y)
  {
    if xs != [] {
      var init := xs[..|xs| - 1];
      FilterMapMembership(init, f, y);
      assert xs == init + [xs[|xs| - 1]];
      if exists i :: 0 <= i < |xs| && f(xs[i]) == Some(y) {
        var i :| 0 <= i < |xs| && f(xs[i]) == Some(y);
        if i < |xs| - 1 {
          assert init[i] == xs[i];
        }
      }
      if y in FilterMap(init, f) {
        var i :| 0 <= i < |init| && f(init[i]) == Some(y);
        assert xs[i] == init[i];
      }
    }
  }

  /** Inputs that agree position by position under f and g give the same outputs. */
  lemma {:induction false} FilterMapPointwise<A, B>(xs: seq<A>, ys: seq<A>, f: A -> Option<B>, g: A -> Option<B>)
    requires |xs| == |ys|
    requires forall i :: 0 <= i < |xs| ==> f(xs[i]) == g(ys[i])
    ensures FilterMap(xs, f) == FilterMap(ys, g)
  {
    if xs != [] {
      FilterMapPointwise(xs[..|xs| - 1], ys[..|ys| - 1], f, g);
    }
  }

  /** The inputs that satisfy p, in order. */
  function Filter<A>(xs: seq<A>, p: A -> bool): (r: seq<A>)
    ensures |r| <= |xs|
  {
    FilterMap(xs, x => if p(x) then Some(x) else None)
  }

  /** Appending one input appends it when it satisfies p. */
  lemma FilterSnoc<A>(xs: seq<A>, x: A, p: A -> bool)
    ensures Filter(xs + [x], p) == Filter(xs, p) + (if p(x) then [x] else [])
  {
    FilterMapSnoc(xs, x, y => if p(y) then Some(y) else None);
  }

  /** The filter keeps the input order. */
  lemma FilterConcat<A>(xs: seq<A>, ys: seq<A>, p: A -> bool)
    ensures Filter(xs + ys, p) == Filter(xs, p) + Filter(ys, p)
  {
    FilterMapConcat(xs, ys, y => if p(y) then Some(y) else None);
  }

  /** A first filter that only drops what the second drops anyway changes nothing. */
  lemma {:induction false} FilterNarrow<A>(xs: seq<A>, keep: A -> bool, p: A -> bool)
    requires forall x :: !keep(x) ==> !p(x)
    ensures Filter(Filter(xs, keep), p) == Filter(xs, p)
  {
    if xs != [] {
      var init, last := xs[..|xs| - 1], xs[|xs| - 1];
      assert xs == init + [last];
      FilterNarrow(init, keep, p);
      FilterSnoc(init, last, keep);
      FilterSnoc(init, last, p);
      FilterSnoc(Filter(init, keep), last, p);
    }
  }

  /** Inputs that agree wherever p holds, and on p itself, filter to the same outputs. */
  lemma FilterPointwise<A>(xs: seq<A>, ys: seq<A>, p: A -> bool)
    requires |xs| == |ys|
    requires forall i :: 0 <= i < |xs| ==> p(xs[i]) == p(ys[i]) && (p(xs[i]) ==> xs[i] == ys[i])
    ensures Filter(xs, p) == Filter(ys, p)
  {
    var f := y => if p(y) then Some(y) else None;
    FilterMapPointwise(xs, ys, f, f);
  }

  /** An element survives the filter exactly when it is an input and satisfies p. */
  lemma FilterMembership<A>(xs: seq<A>, p: A -> bool, x: A)
    ensures x in Filter(xs, p) <==> x in xs && p(x)
  {
    FilterMapMembership(xs, y => if p(y) then Some(y) else None, x);
  }
}
