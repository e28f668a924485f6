/**
 * The tenth Fibonacci number, computed by a loop that keeps the two
 * previous numbers in local variables.
 */
module Fibonacci {
  /** The desired Fibonacci position. */
  const Position: nat := 10
  /** The positions the loop starts from: F(0) = 0 and F(1) = 1 are known. */
  const AlreadyComputed: nat := 2

  /** The Fibonacci numbers: F(0) = 0, F(1) = 1, F(n) = F(n - 1) + F(n - 2). */
  function Fib(n: nat): (f: nat) {
    if n < 2 then n else Fib(n - 1) + Fib(n - 2)
  }

  /** F(10) is 55. */
  lemma TenthIs55()
    ensures Fib(Position) == 55
  {
    assert Fib(2) == 1 && Fib(3) == 2 && Fib(4) == 3 && Fib(5) == 5;
    assert Fib(6) == 8 && Fib(7) == 13 && Fib(8) == 21 && Fib(9) == 34;
  }

  /**
   * print_tenth_fibonacci without its printing: the number it prints is
   * F(POSITION) = 55, after POSITION - ALREADY_COMPUTED = 8 iterations.
   */
  method TenthFibonacci() returns (current: int, iterations: nat)
    ensures current == Fib(Position) == 55
    ensures iterations == Position - AlreadyComputed == 8
  {
    var n1, n2 := 0, 1;
    current := n1 + n2;
    iterations := 0;
    for i := AlreadyComputed to Position
      invariant n1 == Fib(i - 2) && n2 == Fib(i - 1) && current == Fib(i)
      invariant iterations == i - AlreadyComputed
    {
      n1 := n2;
      n2 := current;
      current := n1 + n2;
      iterations := iterations + 1;
    }
    TenthIs55();
  }
}
