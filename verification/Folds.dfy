/** Doing something for each element of a sequence, one after the other. */
module Folds {

  function Fold<S, T>(f: (S, T) -> S, s: S, xs: seq<T>): S
  {
    if xs == [] then s else f(Fold(f, s, xs[..|xs| - 1]), xs[|xs| - 1])
  }

  /** Some element is bad in the state in which its turn comes. */
  predicate AnyBad<S, T>(f: (S, T) -> S, bad: (S, T) -> bool, s: S, xs: seq<T>)
  {
    xs != [] && (AnyBad(f, bad, s, xs[..|xs| - 1]) || bad(Fold(f, s, xs[..|xs| - 1]), xs[|xs| - 1]))
  }

  lemma FoldMore<S, T>(f: (S, T) -> S, bad: (S, T) -> bool, s: S, xs: seq<T>, x: T)
    ensures Fold(f, s, xs + [x]) == f(Fold(f, s, xs), x)
    ensures AnyBad(f, bad, s, xs + [x]) == (AnyBad(f, bad, s, xs) || bad(Fold(f, s, xs), x))
  {
    assert (xs + [x])[..|xs|] == xs;
  }

  lemma {:induction false} FoldAppend<S, T>(f: (S, T) -> S, bad: (S, T) -> bool, s: S, xs: seq<T>, ys: seq<T>)
    ensures Fold(f, s, xs + ys) == Fold(f, Fold(f, s, xs), ys)
    ensures AnyBad(f, bad, s, xs + ys) == (AnyBad(f, bad, s, xs) || AnyBad(f, bad, Fold(f, s, xs), ys))
    decreases |ys|
  {
    if ys == [] {
      assert xs + ys == xs;
    } else {
      var front, y := ys[..|ys| - 1], ys[|ys| - 1];
      FoldAppend(f, bad, s, xs, front);
      assert xs + ys == (xs + front) + [y] && ys == front + [y];
      FoldMore(f, bad, s, xs + front, y);
      FoldMore(f, bad, Fold(f, s, xs), front, y);
    }
  }
}
