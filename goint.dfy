/** Go's `int` on a 64-bit platform: its range, two's-complement wrap-around
    and the truncating division of Go's `/` operator, written out over
    Dafny's unbounded integers. */
module GoInt {

  const MinInt: int := -0x8000_0000_0000_0000
  const MaxInt: int := 0x7FFF_FFFF_FFFF_FFFF
  const Modulus: int := 0x1_0000_0000_0000_0000

  predicate InIntRange(n: int) {
    MinInt <= n <= MaxInt
  }

  /** The values a Go `int` variable can hold. */
  type Int = n: int | MinInt <= n <= MaxInt

  /** The value Go stores when an arithmetic result `x` is assigned to an
      `int`: `x` reduced modulo 2^64 into the signed range. */
  function Wrap(x: int): (r: Int)
    ensures (x - r) % Modulus == 0
    ensures InIntRange(x) ==> r == x
  {
    (x - MinInt) % Modulus + MinInt
  }

  function Abs(x: int): nat {
    if x < 0 then -x else x
  }

  /** Go's integer `/`: the quotient truncated toward zero. Dafny's own `/`
      rounds toward negative infinity when the dividend is negative, so the
      two differ there. */
  function Quo(a: int, b: int): (q: int)
    requires b != 0
    ensures Abs(a - q * b) < Abs(b)
    ensures a - q * b == 0 || (a - q * b < 0 <==> a < 0)
  {
    var m := Abs(a) / Abs(b);
    assert Abs(a) - m * Abs(b) < Abs(b);
    if (a < 0) == (b < 0) then m else -m
  }
}
