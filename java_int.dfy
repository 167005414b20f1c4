/**
 * Java's fixed-width integers. Values are Dafny integers restricted to the
 * signed 32- and 64-bit ranges; `Wrap32`/`Wrap64` give the two's-complement
 * wrap-around that Java's `+`, `-` and `*` perform, and `Div100` is Java's
 * division by 100, which truncates toward zero.
 */
module JavaInt {

  const INT_MIN: int := -0x8000_0000
  const INT_MAX: int := 0x7fff_ffff
  const LONG_MIN: int := -0x8000_0000_0000_0000
  const LONG_MAX: int := 0x7fff_ffff_ffff_ffff

  const INT_MODULUS: int := 0x1_0000_0000
  const LONG_MODULUS: int := 0x1_0000_0000_0000_0000

  type Int32 = x: int | -0x8000_0000 <= x <= 0x7fff_ffff
  type Int64 = x: int | -0x8000_0000_0000_0000 <= x <= 0x7fff_ffff_ffff_ffff

  predicate InInt(x: int) { INT_MIN <= x <= INT_MAX }
  predicate InLong(x: int) { LONG_MIN <= x <= LONG_MAX }

  /** The `int` that a Java expression of unbounded value `x` evaluates to. */
  function Wrap32(x: int): (r: Int32)
    ensures (x - r) % INT_MODULUS == 0
    ensures InInt(x) ==> r == x
  {
    (x + 0x8000_0000) % INT_MODULUS - 0x8000_0000
  }

  /** The `long` that a Java expression of unbounded value `x` evaluates to. */
  function Wrap64(x: int): (r: Int64)
    ensures (x - r) % LONG_MODULUS == 0
    ensures InLong(x) ==> r == x
  {
    (x + 0x8000_0000_0000_0000) % LONG_MODULUS - 0x8000_0000_0000_0000
  }

  /** Java's `a / 100`: the quotient rounded toward zero. */
  function Div100(a: int): (q: int)
    ensures a >= 0 ==> 0 <= a - 100 * q < 100
    ensures a < 0 ==> -100 < a - 100 * q <= 0
    ensures InLong(a) ==> InLong(q)
    ensures InInt(a) ==> InInt(q)
  {
    if a >= 0 then a / 100 else -((-a) / 100)
  }

  /** Two values congruent modulo 2^32 are the same Java `int`. */
  lemma {:induction false} Wrap32Congruent(x: int, y: int)
    requires (x - y) % INT_MODULUS == 0
    ensures Wrap32(x) == Wrap32(y)
  {
    var wx, wy := Wrap32(x), Wrap32(y);
    var a, b, c := (x - wx) / INT_MODULUS, (y - wy) / INT_MODULUS, (x - y) / INT_MODULUS;
    assert x - wx == INT_MODULUS * a;
    assert y - wy == INT_MODULUS * b;
    assert x - y == INT_MODULUS * c;
    assert wy - wx == INT_MODULUS * (a - b - c);
    assert -INT_MODULUS < wy - wx < INT_MODULUS;
  }

  /** A sum just past `Integer.MAX_VALUE` wraps to a negative `int`. */
  lemma Wrap32Overflow(x: int)
    requires INT_MAX < x <= 2 * INT_MAX
    ensures Wrap32(x) == x - INT_MODULUS && Wrap32(x) < 0
  {
    var y := x + 0x8000_0000;
    assert y == INT_MODULUS + (y - INT_MODULUS) && 0 <= y - INT_MODULUS < INT_MODULUS;
  }

  /**
   * Adding `p` to an `int` and then subtracting it again, each with Java's
   * wrap-around, gives back the original value, whatever overflows between.
   */
  lemma {:induction false} Wrap32AddSub(t: Int32, p: int)
    ensures Wrap32(Wrap32(t + p) - p) == t
  {
    var u := Wrap32(t + p);
    var k := (t + p - u) / INT_MODULUS;
    assert t + p - u == INT_MODULUS * k;
    assert (u - p - t) == INT_MODULUS * (-k);
    assert (u - p - t) % INT_MODULUS == 0;
    Wrap32Congruent(u - p, t);
  }
}
