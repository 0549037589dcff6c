/** Filters and left folds, defined from the end because every log here grows at its end. */
module Sequences {

  function Filter<A>(xs: seq<A>, keep: A -> bool): (r: seq<A>)
  {
    if xs == [] then []
    else
      var last := xs[|xs| - 1];
      Filter(xs[..|xs| - 1], keep) + (if keep(last) then [last] else [])
  }

  function Fold<A, B>(step: (A, B) -> A, init: A, xs: seq<B>): A
  {
    if xs == [] then init else step(Fold(step, init, xs[..|xs| - 1]), xs[|xs| - 1])
  }

  function Map<A, B>(f: A -> B, xs: seq<A>): (r: seq<B>)
    ensures |r| == |xs|
    ensures forall i | 0 <= i < |xs| :: r[i] == f(xs[i])
  {
    seq(|xs|, i requires 0 <= i < |xs| => f(xs[i]))
  }

  lemma MapSnoc<A, B>(f: A -> B, xs: seq<A>, x: A)
    ensures Map(f, xs + [x]) == Map(f, xs) + [f(x)]
  {
  }

  lemma {:induction false} FilterAppend<A>(xs: seq<A>, ys: seq<A>, keep: A -> bool)
    ensures Filter(xs + ys, keep) == Filter(xs, keep) + Filter(ys, keep)
  {
    if ys == [] {
      assert xs + ys == xs;
    } else {
      var front := ys[..|ys| - 1];
      assert (xs + ys)[..|xs + ys| - 1] == xs + front;
      FilterAppend(xs, front, keep);
    }
  }

  lemma {:induction false} FoldAppend<A, B>(step: (A, B) -> A, init: A, xs: seq<B>, ys: seq<B>)
    ensures Fold(step, init, xs + ys) == Fold(step, Fold(step, init, xs), ys)
  {
    if ys == [] {
      assert xs + ys == xs;
    } else {
      var front := ys[..|ys| - 1];
      assert (xs + ys)[..|xs + ys| - 1] == xs + front;
      FoldAppend(step, init, xs, front);
    }
  }

  /** Folding one more element is one more step. */
  lemma FoldSnoc<A, B>(step: (A, B) -> A, init: A, xs: seq<B>, x: B)
    ensures Fold(step, init, xs + [x]) == step(Fold(step, init, xs), x)
  {
    assert (xs + [x])[..|xs|] == xs;
  }

  lemma FilterSnoc<A>(xs: seq<A>, x: A, keep: A -> bool)
    ensures Filter(xs + [x], keep) == Filter(xs, keep) + (if keep(x) then [x] else [])
  {
    assert (xs + [x])[..|xs|] == xs;
  }

  /** A filter keeps exactly the elements that satisfy the predicate. */
  lemma {:induction false} FilterMembers<A>(xs: seq<A>, keep: A -> bool)
    ensures forall x :: x in Filter(xs, keep) <==> x in xs && keep(x)
  {
    if xs != [] {
      var front := xs[..|xs| - 1];
      FilterMembers(front, keep);
      assert xs == front + [xs[|xs| - 1]];
    }
  }

  lemma {:induction false} FilterAll<A>(xs: seq<A>, keep: A -> bool)
    requires forall x | x in xs :: keep(x)
    ensures Filter(xs, keep) == xs
  {
    if xs != [] {
      FilterAll(xs[..|xs| - 1], keep);
      assert xs == xs[..|xs| - 1] + [xs[|xs| - 1]];
    }
  }

  lemma {:induction false} FilterNone<A>(xs: seq<A>, keep: A -> bool)
    requires forall x | x in xs :: !keep(x)
    ensures Filter(xs, keep) == []
  {
    if xs != [] {
      FilterNone(xs[..|xs| - 1], keep);
    }
  }

  lemma {:induction false} FilterAgree<A>(xs: seq<A>, keep: A -> bool, keep': A -> bool)
    requires forall x | x in xs :: keep(x) == keep'(x)
    ensures Filter(xs, keep) == Filter(xs, keep')
  {
    if xs != [] {
      FilterAgree(xs[..|xs| - 1], keep, keep');
    }
  }

  /** Each kept element comes from a position of the source, and the kept
      prefix before it is the filter of the source before that position. */
  lemma {:induction false} FilterIndex<A>(xs: seq<A>, keep: A -> bool, i: nat) returns (n: nat)
    requires i < |Filter(xs, keep)|
    ensures n < |xs| && keep(xs[n]) && xs[n] == Filter(xs, keep)[i]
    ensures Filter(xs[..n], keep) == Filter(xs, keep)[..i]
  {
    var front := xs[..|xs| - 1];
    if i < |Filter(front, keep)| {
      n := FilterIndex(front, keep, i);
      assert front[..n] == xs[..n];
      assert Filter(front, keep)[..i] == Filter(xs, keep)[..i];
    } else {
      n := |xs| - 1;
      assert Filter(front, keep) == Filter(xs, keep)[..i];
    }
  }

  ghost predicate Distinct<A>(xs: seq<A>)
  {
    forall i, j | 0 <= i < j < |xs| :: xs[i] != xs[j]
  }

  lemma DistinctSnoc<A>(xs: seq<A>, x: A)
    requires Distinct(xs) && x !in xs
    ensures Distinct(xs + [x])
  {
  }
}
