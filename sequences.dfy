/** Repetition of one element, for logs that receive the same entry several times. */
module Sequences {

  /** `n` copies of `x`. */
  function Repeat<T>(x: T, n: nat): (r: seq<T>)
    ensures |r| == n
    ensures forall i :: 0 <= i < n ==> r[i] == x
  {
    if n == 0 then [] else Repeat(x, n - 1) + [x]
  }

  lemma RepeatAdd<T>(x: T, a: nat, b: nat)
    ensures Repeat(x, a) + Repeat(x, b) == Repeat(x, a + b)
  {
    assert forall i :: 0 <= i < a + b ==> (Repeat(x, a) + Repeat(x, b))[i] == x;
  }
}
