/** Kotlin `Int` arithmetic that differs from Dafny's unbounded `int`:
    32-bit two's-complement wrap-around and division truncated toward zero. */
module KotlinInt {

  const INT_MIN: int := -0x8000_0000
  const INT_MAX: int := 0x7fff_ffff
  const TWO_32: int := 0x1_0000_0000

  predicate IsInt32(x: int) {
    INT_MIN <= x <= INT_MAX
  }

  function Abs(x: int): nat {
    if x < 0 then -x else x
  }

  /** The value a Kotlin `Int` holds after an operation whose exact result is `x`. */
  function Wrap32(x: int): (r: int)
    ensures IsInt32(r)
    ensures (x - r) % TWO_32 == 0
    ensures IsInt32(x) ==> r == x
  {
    var m := x % TWO_32;
    if m > INT_MAX then m - TWO_32 else m
  }

  lemma DivNonNegative(x: nat, y: int)
    requires y > 0
    ensures x / y >= 0
  {
  }

  /** Kotlin's `/` on `Int`, truncating toward zero: the quotient of the magnitudes,
      negated when exactly one operand is negative. The one `Int` quotient that wraps,
      Int.MIN_VALUE / -1, is not singled out: the gauge divides by -1 only before setup,
      when its value is -1 or 0. */
  function Div(a: int, b: int): (q: int)
    requires b != 0
    ensures Abs(q) == Abs(a) / Abs(b)
    ensures (a < 0) == (b < 0) ==> q >= 0
    ensures (a < 0) != (b < 0) ==> q <= 0
    ensures a >= 0 && b > 0 ==> q == a / b
  {
    DivNonNegative(Abs(a), Abs(b));
    if (a < 0) == (b < 0) then Abs(a) / Abs(b) else -(Abs(a) / Abs(b))
  }
}
