/** Java's 32-bit `int` arithmetic and its float-to-int narrowing, stated over
    Dafny's unbounded integers and reals. */
module JavaInt {

  const TWO_32: int := 0x1_0000_0000
  const MIN_INT: int := -0x8000_0000
  const MAX_INT: int := 0x7FFF_FFFF

  /** x is a value of Java's `int` type. */
  predicate IsInt(x: int) {
    MIN_INT <= x <= MAX_INT
  }

  /** The Java `int` with the same low 32 bits as x (two's-complement wrap-around). */
  function Wrap(x: int): (r: int)
    ensures IsInt(r)
    ensures (x - r) % TWO_32 == 0
    ensures IsInt(x) ==> r == x
  {
    (x - MIN_INT) % TWO_32 + MIN_INT
  }

  /** Java `a + b` on ints. */
  function Add(a: int, b: int): int {
    Wrap(a + b)
  }

  /** Java `a - b` on ints. */
  function Sub(a: int, b: int): int {
    Wrap(a - b)
  }

  /** Java `a * b` on ints. */
  function Mul(a: int, b: int): int {
    Wrap(a * b)
  }

  /** Java `Math.max(int, int)`. */
  function Max(a: int, b: int): (r: int)
    ensures r >= a && r >= b
    ensures r == a || r == b
  {
    if a >= b then a else b
  }

  lemma MultipleOfModulus(k: int)
    ensures (k * TWO_32) % TWO_32 == 0
  {
  }

  lemma SumOfMultiples(a: int, b: int)
    requires a % TWO_32 == 0 && b % TWO_32 == 0
    ensures (a + b) % TWO_32 == 0
  {
    assert a == (a / TWO_32) * TWO_32;
    assert b == (b / TWO_32) * TWO_32;
    assert a + b == (a / TWO_32 + b / TWO_32) * TWO_32;
    MultipleOfModulus(a / TWO_32 + b / TWO_32);
  }

  /** Two integers that agree modulo 2^32 wrap to the same Java int. */
  lemma WrapCongruent(x: int, y: int)
    requires (x - y) % TWO_32 == 0
    ensures Wrap(x) == Wrap(y)
  {
    var k := (x - y) / TWO_32;
    assert x - MIN_INT == (y - MIN_INT) + k * TWO_32;
  }

  /** Wrapping the operands of an addition does not change the wrapped sum. */
  lemma WrapSum(x: int, y: int)
    ensures Wrap(Wrap(x) + Wrap(y)) == Wrap(x + y)
  {
    SumOfMultiples(Wrap(x) - x, Wrap(y) - y);
    WrapCongruent(Wrap(x) + Wrap(y), x + y);
  }

  /** Wrapping the operands of a subtraction does not change the wrapped difference. */
  lemma WrapDifference(x: int, y: int)
    ensures Wrap(Wrap(x) - Wrap(y)) == Wrap(x - y)
  {
    var kx := (x - Wrap(x)) / TWO_32;
    var ky := (y - Wrap(y)) / TWO_32;
    assert (Wrap(x) - Wrap(y)) - (x - y) == (ky - kx) * TWO_32;
    MultipleOfModulus(ky - kx);
    WrapCongruent(Wrap(x) - Wrap(y), x - y);
  }

  /** Wrapping the operands of a multiplication does not change the wrapped product. */
  lemma WrapProduct(x: int, y: int)
    ensures Wrap(Wrap(x) * Wrap(y)) == Wrap(x * y)
  {
    var wx, wy := Wrap(x), Wrap(y);
    var kx := (wx - x) / TWO_32;
    var ky := (wy - y) / TWO_32;
    assert wx == x + kx * TWO_32;
    assert wy == y + ky * TWO_32;
    var k := kx * wy + x * ky;
    calc {
      wx * wy - x * y;
      (x + kx * TWO_32) * wy - x * y;
      x * wy + kx * TWO_32 * wy - x * y;
      x * (y + ky * TWO_32) + kx * TWO_32 * wy - x * y;
      k * TWO_32;
    }
    MultipleOfModulus(k);
    WrapCongruent(wx * wy, x * y);
  }

  /** Java's narrowing of a float to an int (JLS 5.1.3): rounds toward zero and
      saturates at the int range. */
  function FloatToInt(x: real): (r: int)
    ensures IsInt(r)
    ensures 0.0 <= x ==> 0 <= r && r as real <= x
    ensures 0.0 <= x < MAX_INT as real ==> x < r as real + 1.0
    ensures x <= 0.0 ==> r <= 0 && x <= r as real
    ensures MIN_INT as real < x <= 0.0 ==> r as real - 1.0 < x
    ensures x >= MAX_INT as real ==> r == MAX_INT
    ensures x <= MIN_INT as real ==> r == MIN_INT
  {
    if x >= MAX_INT as real then MAX_INT
    else if x <= MIN_INT as real then MIN_INT
    else if x >= 0.0 then x.Floor
    else -((-x).Floor)
  }
}
