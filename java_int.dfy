/**
 * Java's 32-bit `int` arithmetic on top of Dafny's unbounded integers:
 * two's-complement wrap-around, `Math.abs`, and the truncating `/` and `%`.
 */
module JavaInt {

  const INT_MIN: int := -0x8000_0000
  const INT_MAX: int := 0x7FFF_FFFF
  /** 2^32, the period of 32-bit wrap-around. */
  const MODULUS: int := 0x1_0000_0000

  type Int32 = x: int | INT_MIN <= x <= INT_MAX

  /** The 32-bit two's-complement value of `x`: what a Java `int` holds after an overflowing operation. */
  function Wrap(x: int): (r: Int32)
    ensures (x - r) % MODULUS == 0
    ensures INT_MIN <= x <= INT_MAX ==> r == x
  {
    var u := x % MODULUS;
    if u > INT_MAX then u - MODULUS else u
  }

  /** Two integers that agree modulo 2^32 wrap to the same `int`. */
  lemma WrapCongruent(a: int, b: int)
    requires (a - b) % MODULUS == 0
    ensures Wrap(a) == Wrap(b)
  {
  }

  /** Wrapping an intermediate result before a multiply-add does not change the wrapped outcome. */
  lemma WrapMulAdd(a: int, k: int, b: int)
    ensures Wrap(Wrap(a) * k + b) == Wrap(a * k + b)
  {
    var q := (a - Wrap(a)) / MODULUS;
    assert a - Wrap(a) == MODULUS * q;
    calc {
      (a * k + b) - (Wrap(a) * k + b);
      (a - Wrap(a)) * k;
      MODULUS * q * k;
      MODULUS * (q * k);
    }
    WrapCongruent(Wrap(a) * k + b, a * k + b);
  }

  /**
   * `Math.abs(int)`: `x < 0 ? -x : x` evaluated in 32 bits, so that the
   * negation of `Integer.MIN_VALUE` overflows back to `Integer.MIN_VALUE`.
   */
  function MathAbs(x: Int32): (r: Int32)
    ensures x != INT_MIN ==> r >= 0 && (r == x || r == -x)
    ensures x == INT_MIN ==> r == INT_MIN
    ensures r < 0 <==> x == INT_MIN
  {
    if x < 0 then Wrap(0 - x as int) else x
  }

  /** Java's `a % n` for a positive divisor: the remainder takes the sign of the dividend. */
  function Rem(a: Int32, n: int): (r: Int32)
    requires n > 0
    ensures -n < r < n
    ensures a >= 0 ==> 0 <= r <= a
    ensures a < 0 ==> a <= r <= 0
  {
    if a >= 0 then
      NatDivMod(a, n);
      a % n
    else
      NatDivMod(0 - a as int, n);
      -((0 - a as int) % n)
  }

  /** Java's `a / n` for a positive divisor: the quotient is rounded toward zero. */
  function Quot(a: Int32, n: int): (r: Int32)
    requires n > 0
    ensures a >= 0 ==> 0 <= r <= a
    ensures a < 0 ==> a <= r <= 0
  {
    if a >= 0 then
      NatDivMod(a, n);
      a / n
    else
      NatDivMod(0 - a as int, n);
      -((0 - a as int) / n)
  }

  /** The identity Java guarantees for `/` and `%`: `(a / n) * n + a % n == a`. */
  lemma QuotRemIdentity(a: Int32, n: int)
    requires n > 0
    ensures Quot(a, n) * n + Rem(a, n) == a
  {
  }

  /** Euclidean division of a natural number by a positive one, with its bounds. */
  lemma NatDivMod(a: nat, n: int)
    requires n > 0
    ensures a == (a / n) * n + a % n
    ensures 0 <= a % n <= a && 0 <= a / n <= a
  {
    var q, r := a / n, a % n;
    assert a == q * n + r && 0 <= r < n && q >= 0;
    MulAtLeast(q, n);
  }

  lemma {:induction false} MulAtLeast(q: nat, n: int)
    requires n >= 1
    ensures q * n >= q
  {
    if n > 1 {
      MulAtLeast(q, n - 1);
      assert q * n == q * (n - 1) + q;
    }
  }
}
