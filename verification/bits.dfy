/** Integer stand-ins for the C++ shift operators and the 32-bit wrap-around
    that the APU code relies on. Every value here is non-negative, so the
    shifts are exact divisions and multiplications by powers of two. */
module Bits {

  const U32: nat := 0x1_0000_0000

  function Pow2(n: nat): (r: nat)
    ensures r >= 1
  {
    if n == 0 then 1 else 2 * Pow2(n - 1)
  }

  lemma {:induction false} Pow2Add(a: nat, b: nat)
    ensures Pow2(a + b) == Pow2(a) * Pow2(b)
    decreases a
  {
    if a > 0 {
      Pow2Add(a - 1, b);
    }
  }

  /** `x >> n` on a non-negative value. */
  function Shr(x: nat, n: nat): (r: nat)
    ensures r <= x
  {
    var p := Pow2(n);
    DivBounds(x, p);
    x / p
  }

  /** The shifted value is the quotient: `x >> n` times `2^n` lies within
      one `2^n` below `x`. */
  lemma ShrBounds(x: nat, n: nat)
    ensures Shr(x, n) * Pow2(n) <= x < (Shr(x, n) + 1) * Pow2(n)
  {
    DivBounds(x, Pow2(n));
  }

  /** The quotient by a positive divisor brackets the dividend. */
  lemma DivBounds(x: nat, p: nat)
    requires p >= 1
    ensures 0 <= x / p <= x
    ensures (x / p) * p <= x < (x / p + 1) * p
  {
    var q := x / p;
    assert x == q * p + x % p;
    MulSucc(q, p);
    MulAtLeast(p, q);
    MulComm(p, q);
  }

  lemma MulSucc(q: nat, p: nat)
    ensures (q + 1) * p == q * p + p
  {
  }

  lemma MulComm(a: nat, b: nat)
    ensures a * b == b * a
  {
  }

  /** `x << n` in unbounded arithmetic (no bits are lost). */
  function Shl(x: nat, n: nat): nat
  {
    x * Pow2(n)
  }

  function Min(a: nat, b: nat): (m: nat)
    ensures m <= a && m <= b && (m == a || m == b)
  {
    if a <= b then a else b
  }

  lemma MulAtLeast(d: nat, p: nat)
    requires d >= 1
    ensures d * p >= p
  {
    assert d * p == p + (d - 1) * p;
  }

  /** Division and remainder by `p` are unique: the quotient and remainder
      of any decomposition `x == q * p + s` with `0 <= s < p` are those of `x`. */
  lemma DivModUnique(x: nat, p: nat, q: nat, s: nat)
    requires p > 0 && s < p && x == q * p + s
    ensures x / p == q && x % p == s
  {
    var q0, s0 := x / p, x % p;
    assert x == q0 * p + s0;
    if q0 < q {
      var d := q - q0;
      assert q * p == q0 * p + d * p;
      MulAtLeast(d, p);
      assert false;
    } else if q0 > q {
      var d := q0 - q;
      assert q0 * p == q * p + d * p;
      MulAtLeast(d, p);
      assert false;
    }
  }

  /** Taking one whole period off a count removes one from its quotient and
      leaves its remainder alone. */
  lemma SubPeriod(x: nat, p: nat)
    requires p > 0 && x >= p
    ensures (x - p) / p == x / p - 1
    ensures (x - p) % p == x % p
  {
    var q, s := (x - p) / p, (x - p) % p;
    assert x - p == q * p + s;
    assert x == (q + 1) * p + s;
    DivModUnique(x, p, q + 1, s);
  }
}
