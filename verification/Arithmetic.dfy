/** 256-bit words as bounded naturals, and the few facts about division the services rest on. */
module Arithmetic {
  import opened Wrappers

  /** 2^256, 2^512 and 2^160. */
  const WORD: nat := 0x1_0000000000000000_0000000000000000_0000000000000000_0000000000000000
  const DOUBLE_WORD: nat := WORD * WORD
  const UINT160: nat := 0x1_0000000000000000_0000000000000000_00000000

  const WORD_MAX: nat := WORD - 1

  type U256 = n: nat | n < WORD

  function CheckedMul(a: nat, b: nat): Option<U256> {
    if a * b < WORD then Some(a * b) else None
  }

  function CheckedAdd(a: nat, b: nat): Option<U256> {
    if a + b < WORD then Some(a + b) else None
  }

  function Min(a: nat, b: nat): nat {
    if a < b then a else b
  }

  function Pow10(n: nat): (p: nat)
    ensures p > 0
  {
    if n == 0 then 1 else 10 * Pow10(n - 1)
  }

  lemma {:induction false} Pow10Add(a: nat, b: nat)
    ensures Pow10(a + b) == Pow10(a) * Pow10(b)
  {
    if a > 0 {
      Pow10Add(a - 1, b);
    }
  }

  /** floor(a * b / c). */
  function MulDiv(a: nat, b: nat, c: nat): nat
    requires c > 0
  {
    var product: nat := a * b;
    product / c
  }

  lemma TenTimes(a: nat, b: nat)
    ensures a * (10 * b) == 10 * (a * b)
  {
  }

  /** (w * p + f) * q, multiplied out. */
  lemma Distribute(w: nat, p: nat, f: nat, q: nat)
    ensures (w * p + f) * q == w * (p * q) + f * q
  {
  }

  lemma MulMono(a: nat, b: nat, c: nat)
    requires a <= b
    ensures a * c <= b * c
  {
  }

  /** Floor division, as the greatest quotient that fits. */
  lemma DivIs(n: nat, d: nat, q: nat)
    requires d > 0
    ensures q == n / d <==> q * d <= n < (q + 1) * d
  {
    var f := n / d;
    assert f * d <= n < (f + 1) * d by {
      assert n == f * d + n % d;
    }
    if q < f {
      MulMono(q + 1, f, d);
    } else if q > f {
      MulMono(f + 1, q, d);
    }
  }

  /** q <= n / d exactly when q * d <= n. */
  lemma LeDiv(n: nat, d: nat, q: nat)
    requires d > 0
    ensures q <= n / d <==> q * d <= n
  {
    DivIs(n, d, n / d);
    if q <= n / d {
      MulMono(q, n / d, d);
    } else {
      MulMono(n / d + 1, q, d);
    }
  }

  /** A quotient of words is a word. */
  function Quotient(n: U256, d: nat): (q: U256)
    requires d > 0
    ensures q == n / d
  {
    LeDiv(n, d, n / d);
    MulMono(1, d, n / d);
    assert (n / d) * d >= n / d;
    n / d
  }

  lemma DivMono(a: nat, b: nat, d: nat)
    requires d > 0 && a <= b
    ensures a / d <= b / d
  {
    LeDiv(a, d, a / d);
    LeDiv(b, d, a / d);
  }

  lemma DivSplit(q: nat, d: nat, r: nat)
    requires d > 0
    ensures (q * d + r) / d == q + r / d
  {
    DivIs(r, d, r / d);
    assert (q + r / d) * d == q * d + (r / d) * d;
    assert (q + r / d + 1) * d == q * d + (r / d + 1) * d;
    DivIs(q * d + r, d, q + r / d);
  }

  lemma MulDivCancel(a: nat, c: nat)
    requires c > 0
    ensures MulDiv(a, c, c) == a
  {
    DivSplit(a, c, 0);
  }

  /** Scaling a quotient and a remainder separately loses nothing. */
  lemma ScaledFloor(v: nat, s: nat, p: nat)
    requires s > 0
    ensures (v / s) * p + MulDiv(v % s, p, s) == MulDiv(v, p, s)
    ensures p > 0 ==> MulDiv(v % s, p, s) < p
  {
    var q, r := v / s, v % s;
    assert v == q * s + r;
    assert v * p == (q * p) * s + r * p by {
      assert (q * s + r) * p == q * s * p + r * p;
      assert q * s * p == (q * p) * s;
    }
    DivSplit(q * p, s, r * p);
    if p > 0 {
      MulMono(r + 1, s, p);
      assert (r + 1) * p == r * p + p;
      LeDiv(r * p, s, p);
    }
  }
}
