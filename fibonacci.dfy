/**
 * The Fibonacci task of the four-process simulation program: `fibNum`,
 * the naive doubly recursive Fibonacci function run by the first child
 * process.  C's `long int` is modelled by an unbounded `int`.
 */
module Fibonacci {

  /**
   * fibNum(n): every n <= 2 (zero and negative n included) is a base case
   * worth 1; above that, the sum of the two previous values.  The result
   * is never smaller than 1.
   */
  function FibNum(n: int): (r: int)
    ensures r >= 1
    decreases n
  {
    if n <= 2 then 1 else FibNum(n - 1) + FibNum(n - 2)
  }

  /** The textbook Fibonacci sequence, F(0) = 0 and F(1) = 1, as a reference. */
  function Fib(k: nat): nat
  {
    if k < 2 then k else Fib(k - 1) + Fib(k - 2)
  }

  /**
   * fibNum agrees with the textbook sequence on every n >= 1 and treats
   * every n <= 0 like n = 1.
   */
  lemma {:induction false} FibNumIsFib(n: int)
    ensures n >= 1 ==> FibNum(n) == Fib(n)
    ensures n <= 0 ==> FibNum(n) == Fib(1)
    decreases n
  {
    if n > 2 {
      FibNumIsFib(n - 1);
      FibNumIsFib(n - 2);
    }
  }

  /** fibNum never decreases: m <= n implies fibNum(m) <= fibNum(n). */
  lemma {:induction false} FibNumMonotone(m: int, n: int)
    requires m <= n
    ensures FibNum(m) <= FibNum(n)
    decreases n - m
  {
    if m < n {
      FibNumMonotone(m, n - 1);
      if n > 2 {
        assert FibNum(n) == FibNum(n - 1) + FibNum(n - 2);
      }
    }
  }

  /** Above the base cases the sequence strictly increases: fibNum(n) < fibNum(n + 1) for n >= 2. */
  lemma FibNumStrictlyIncreasing(n: int)
    requires n >= 2
    ensures FibNum(n) < FibNum(n + 1)
  {
  }

  /** A worked value: fibNum(10) is 55. */
  lemma FibNumTen()
    ensures FibNum(10) == 55
  {
  }
}
