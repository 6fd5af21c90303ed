/** Repetition in sequences, shared by the model's modules. */
module Sequences {

  predicate Distinct<T(==)>(xs: seq<T>) { forall i, j | 0 <= i < j < |xs| :: xs[i] != xs[j] }

  /** How often x occurs. */
  function Count<T(==)>(xs: seq<T>, x: T): nat {
    if xs == [] then 0 else (if xs[0] == x then 1 else 0) + Count(xs[1..], x)
  }

  lemma {:induction false} CountAppend<T>(xs: seq<T>, y: T, x: T)
    ensures Count(xs + [y], x) == Count(xs, x) + if y == x then 1 else 0
  {
    if xs == [] {
      assert [] + [y] == [y] && [y][1..] == [];
    } else {
      CountAppend(xs[1..], y, x);
      assert (xs + [y])[1..] == xs[1..] + [y];
    }
  }

  lemma {:induction false} CountIsZeroIff<T>(xs: seq<T>, x: T)
    ensures Count(xs, x) == 0 <==> x !in xs
  {
    if xs != [] {
      CountIsZeroIff(xs[1..], x);
      assert xs == [xs[0]] + xs[1..];
    }
  }

  lemma Associate<T>(a: seq<T>, b: seq<T>, c: seq<T>)
    ensures a + (b + c) == a + b + c
  {}
}
