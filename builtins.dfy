/** The `fact` built-in of the root scope. */
module Builtins {

  function Factorial(n: nat): (r: nat)
    ensures r >= 1 && r >= n
  {
    if n == 0 then 1 else n * Factorial(n - 1)
  }

  /** How many counters `i = 1, 2, ...` satisfy `i <= a`. */
  function Iterations(a: real): (k: nat)
    ensures k as real <= a || k == 0
    ensures (k + 1) as real > a
  {
    if a >= 1.0 then a.Floor as nat else 0
  }

  /** `fact(a)`: `res` starts at 1 and is multiplied by every `i` from 1
      while `i <= a`, which gives the factorial of the whole part of `a`. */
  method Fact(a: real) returns (res: real)
    ensures res == Factorial(Iterations(a)) as real
  {
    res := 1.0;
    var i: nat := 1;
    while i as real <= a
      invariant 1 <= i <= Iterations(a) + 1
      invariant res == Factorial(i - 1) as real
      decreases Iterations(a) + 1 - i
    {
      assert i <= Iterations(a);
      NextProduct(res, i);
      res := res * i as real;
      i := i + 1;
    }
    assert i == Iterations(a) + 1;
  }

  /** One round of the loop: multiplying `(i - 1)!` by `i` gives `i!`. */
  lemma NextProduct(res: real, i: nat)
    requires i >= 1 && res == Factorial(i - 1) as real
    ensures res * i as real == Factorial(i) as real
  {
    var f := Factorial(i - 1);
    calc {
      res * i as real;
      f as real * i as real;
      { CastProduct(f, i); }
      (f * i) as real;
      { FactorialStep(i - 1); }
      Factorial(i) as real;
    }
  }

  /** Multiplying naturals commutes with the conversion to reals. */
  lemma CastProduct(x: nat, y: nat)
    ensures x as real * y as real == (x * y) as real
  {
  }

  /** For a natural number the loop runs exactly `n` times. */
  lemma FactOfNatural(n: nat)
    ensures Iterations(n as real) == n
    ensures Factorial(Iterations(n as real)) == Factorial(n)
  {
  }

  /** The factorial grows by the next factor each step. */
  lemma {:induction false} FactorialStep(n: nat)
    ensures Factorial(n + 1) == (n + 1) * Factorial(n)
    ensures Factorial(n) <= Factorial(n + 1)
  {
  }
}
