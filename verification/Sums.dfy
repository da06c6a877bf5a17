/** Sums over finite sets, which do not depend on the order of iteration, and 64-bit wrap-around. */
module Sums {

  const U64: nat := 0x1_0000_0000_0000_0000

  /** Unsigned 64-bit addition drops the carry. */
  function Wrap(n: nat): nat { n % U64 }

  lemma WrapAdd(a: nat, b: nat)
    ensures Wrap(Wrap(a) + b) == Wrap(a + b)
  {}

  lemma WrapSmall(n: nat)
    requires n < U64
    ensures Wrap(n) == n
  {}

  /** Moving one element over. */
  lemma TakeOne<T>(all: set<T>, left: set<T>, x: T)
    requires x in left && left <= all
    ensures (all - left) + {x} == all - (left - {x})
  {}

  ghost function SumOver<T>(f: T -> nat, s: set<T>): nat
  {
    if s == {} then 0 else var x :| x in s; f(x) + SumOver(f, s - {x})
  }

  lemma {:induction false} SumTake<T>(f: T -> nat, s: set<T>, x: T)
    requires x in s
    ensures SumOver(f, s) == f(x) + SumOver(f, s - {x})
    decreases |s|
  {
    var y :| y in s && SumOver(f, s) == f(y) + SumOver(f, s - {y});
    if y != x {
      SumTake(f, s - {y}, x);
      SumTake(f, s - {x}, y);
      assert s - {y} - {x} == s - {x} - {y};
    }
  }

  lemma SumPut<T>(f: T -> nat, s: set<T>, x: T)
    requires x !in s
    ensures SumOver(f, s + {x}) == SumOver(f, s) + f(x)
  {
    SumTake(f, s + {x}, x);
    assert s + {x} - {x} == s;
  }

  lemma {:induction false} SumAgrees<T>(f: T -> nat, g: T -> nat, s: set<T>)
    requires forall x :: x in s ==> f(x) == g(x)
    ensures SumOver(f, s) == SumOver(g, s)
    decreases |s|
  {
    if s != {} {
      var x :| x in s;
      SumTake(f, s, x);
      SumTake(g, s, x);
      SumAgrees(f, g, s - {x});
    }
  }
}
