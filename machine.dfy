/** Machine-level integer semantics used by the controller: the fixed-width
    C types, modular `uint32` time arithmetic and C's truncating division. */
module Machine {

  const TWO_POW_32: int := 0x1_0000_0000
  const TWO_POW_31: int := 0x8000_0000

  type U8 = x: int | 0 <= x < 256
  type U32 = x: int | 0 <= x < 0x1_0000_0000
  type I32 = x: int | -0x8000_0000 <= x < 0x8000_0000

  /** `a - b` on `uint32_t`: the subtraction wraps modulo 2^32. This is how
      every "time since" in the firmware is computed from tick counts. */
  function Elapsed(now: U32, since: U32): (r: U32)
    ensures since <= now ==> r == now - since
    ensures now < since ==> r == now - since + TWO_POW_32
  {
    (now - since) % TWO_POW_32
  }

  /** The time that lies `d` milliseconds after `t` on the wrapping clock. */
  function Advance(t: U32, d: U32): (r: U32)
    ensures Elapsed(r, t) == d
  {
    (t + d) % TWO_POW_32
  }

  /** Converting a `uint32_t` to `int32_t` on a two's-complement target. */
  function ToInt32(v: U32): (r: I32)
    ensures v < TWO_POW_31 ==> r == v
    ensures v >= TWO_POW_31 ==> r < 0 && r + TWO_POW_32 == v
  {
    if v < TWO_POW_31 then v else v - TWO_POW_32
  }

  /** C's `/` on signed integers: the quotient is truncated toward zero
      (Dafny's own `/` is Euclidean, which differs for negative numerators). */
  function TruncDiv(a: int, b: int): (q: int)
    requires b > 0
    ensures a >= 0 ==> q >= 0 && q * b <= a < q * b + b
    ensures a < 0 ==> q <= 0 && q * b - b < a <= q * b
  {
    if a >= 0 then a / b else -((-a) / b)
  }

  /** `x * b < b` with `b > 0` forces `x < 1`. */
  lemma BelowOneFactor(x: int, b: int)
    requires b > 0 && x * b < b
    ensures x < 1
  {
    assert (x - 1) * b < 0;
  }

  /** A truncated quotient stays between the bounds the numerator obeys. */
  lemma TruncDivBetween(a: int, b: int, lo: int, hi: int)
    requires b > 0
    requires lo * b <= a <= hi * b
    ensures lo <= TruncDiv(a, b) <= hi
  {
    var q := TruncDiv(a, b);
    if a >= 0 {
      assert (lo - q) * b < b;
      assert (q - hi) * b <= 0 < b;
    } else {
      assert (lo - q) * b <= 0 < b;
      assert (q - hi) * b < b;
    }
    BelowOneFactor(lo - q, b);
    BelowOneFactor(q - hi, b);
  }

  /** Truncating division by a positive divisor is monotone in the numerator. */
  lemma TruncDivMonotone(a: int, a': int, b: int)
    requires b > 0 && a <= a'
    ensures TruncDiv(a, b) <= TruncDiv(a', b)
  {
    var q, q' := TruncDiv(a, b), TruncDiv(a', b);
    if a >= 0 || a' < 0 {
      // both numerators lie on one side of zero, so q*b < q'*b + b
      assert (q - q') * b == q * b - q' * b;
      assert (q - q') * b < b;
      BelowOneFactor(q - q', b);
    }
  }

  /** Dividing an exact multiple gives back the factor, whatever its sign. */
  lemma TruncDivExact(v: int, b: int)
    requires b > 0
    ensures TruncDiv(v * b, b) == v
  {
    TruncDivBetween(v * b, b, v, v);
  }
}
