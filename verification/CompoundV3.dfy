/** Compound III borrow capacity: a four-way product in 512 bits, divided down to a 256-bit word. */
module CompoundV3 {
  import opened Wrappers
  import opened Arithmetic
  import opened Bytes

  const FACTOR_SCALE: nat := 1_000_000_000_000_000_000

  /** What one computation comes to.  `Panic` is an overflowing 512-bit multiplication. */
  datatype Capacity = Value(amount: U256) | Unavailable | TooLarge | Panic

  /** One collateral of an account; balance, factor and scale as the market reports them. */
  datatype Collateral = Collateral(balance: U256, price: U256, factor: U256, scale: U256)

  function Mul512(a: Option<nat>, b: nat): Option<nat> {
    if a.Some? && a.value * b < DOUBLE_WORD then Some(a.value * b) else None
  }

  /** Writes the 512-bit value as 64 big-endian bytes and reads the last 32 back. */
  function LowWord(value: nat): (w: U256)
    ensures value < WORD ==> w == value
  {
    LowBytes(value, 32, 32);
    WordBytes();
    if value < WORD then BigEndianRoundTrip(value, 32); WordOf(ToBigEndian(value, 64)[32..])
    else WordOf(ToBigEndian(value, 64)[32..])
  }

  function CollateralBorrowCapacity(c: Collateral, baseScale: U256, basePrice: U256): Capacity {
    if c.balance == 0 || c.price == 0 || c.factor == 0 then Value(0)
    else if c.scale == 0 || baseScale == 0 || basePrice == 0 then Unavailable
    else
      var numerator := Mul512(Mul512(Mul512(Some(c.balance), c.price), c.factor), baseScale);
      var denominator := Mul512(Mul512(Some(c.scale), FACTOR_SCALE), basePrice);
      if numerator.None? || denominator.None? || denominator.value == 0 then Panic
      else
        var value: nat := numerator.value / denominator.value;
        if value >= WORD then TooLarge else Value(LowWord(value))
  }

  function Numerator(c: Collateral, baseScale: nat): nat {
    c.balance * c.price * c.factor * baseScale
  }

  function Denominator(c: Collateral, basePrice: nat): nat {
    c.scale * FACTOR_SCALE * basePrice
  }

  lemma ProductAtLeast(a: nat, b: nat)
    requires b > 0
    ensures a * b >= a
  {
    MulMono(1, b, a);
  }

  lemma Positive(a: nat, b: nat)
    requires a > 0 && b > 0
    ensures a * b > 0
  {
  }

  /** Checking every partial product is the same as checking the whole. */
  lemma Mul512Whole(a: nat, b: nat, c: nat, d: nat)
    requires c > 0 && d > 0
    ensures Mul512(Mul512(Mul512(Some(a), b), c), d) == if a * b * c * d < DOUBLE_WORD then Some(a * b * c * d) else None
    ensures Mul512(Mul512(Some(a), b), c) == if a * b * c < DOUBLE_WORD then Some(a * b * c) else None
  {
    ProductAtLeast(a * b, c);
    ProductAtLeast(a * b * c, d);
  }

  /** The computation is the exact floor of the rational capacity, whenever no intermediate product
      leaves 512 bits and the result fits 256; and those are the only ways it can fail. */
  lemma CapacityIs(c: Collateral, baseScale: U256, basePrice: U256)
    requires c.balance > 0 && c.price > 0 && c.factor > 0 && c.scale > 0 && baseScale > 0 && basePrice > 0
    ensures var n, d := Numerator(c, baseScale), Denominator(c, basePrice);
            && d > 0
            && CollateralBorrowCapacity(c, baseScale, basePrice) ==
               if n >= DOUBLE_WORD || d >= DOUBLE_WORD then Panic
               else if n / d >= WORD then TooLarge
               else Value(n / d)
  {
    Mul512Whole(c.balance, c.price, c.factor, baseScale);
    Mul512Whole(c.scale, FACTOR_SCALE, basePrice, 1);
    Positive(c.scale, FACTOR_SCALE);
    Positive(c.scale * FACTOR_SCALE, basePrice);
  }

  lemma MulBelow(a: nat, b: nat, x: nat, y: nat)
    requires a < x && b < y
    ensures a * b < x * y
  {
    MulMono(a, x, b);
    assert x * b <= x * (b + 1) - 1;
    MulMono(b + 1, y, x);
    assert (b + 1) * x == b * x + x;
  }

  const UINT128: nat := 0x1_0000000000000000_0000000000000000
  const UINT64: nat := 0x1_0000000000000000

  /** Field widths of the market's own data: no product leaves 512 bits. */
  lemma WidthsNeverPanic(c: Collateral, baseScale: U256, basePrice: U256)
    requires c.balance < UINT128 && c.factor < UINT64 && c.scale < UINT64 && baseScale < UINT64
    ensures CollateralBorrowCapacity(c, baseScale, basePrice) != Panic
  {
    if c.balance > 0 && c.price > 0 && c.factor > 0 && c.scale > 0 && baseScale > 0 && basePrice > 0 {
      NumeratorBelow(c.balance, c.price, c.factor, baseScale);
      DenominatorBelow(c.scale, basePrice);
      CapacityIs(c, baseScale, basePrice);
    }
  }

  lemma NumeratorBelow(a: nat, b: nat, c: nat, d: nat)
    requires a < UINT128 && b < WORD && c < UINT64 && d < UINT64
    ensures a * b * c * d < DOUBLE_WORD
  {
    MulBelow(a, b, UINT128, WORD);
    MulBelow(a * b, c, UINT128 * WORD, UINT64);
    MulBelow(a * b * c, d, UINT128 * WORD * UINT64, UINT64);
  }

  lemma DenominatorBelow(a: nat, b: nat)
    requires a < UINT64 && b < WORD
    ensures a * FACTOR_SCALE * b < DOUBLE_WORD
  {
    MulBelow(a, FACTOR_SCALE, UINT64, UINT64);
    MulBelow(a * FACTOR_SCALE, b, UINT64 * UINT64, WORD);
  }

  // ---- In the fields alone --------------------------------------------------------------------

  /** A collateral that is not held, has no price or counts for nothing. */
  predicate Idle(c: Collateral) {
    c.balance == 0 || c.price == 0 || c.factor == 0
  }

  /** The market's scales are set, both products stay within 512 bits, and the quotient within 256. */
  predicate Countable(c: Collateral, baseScale: nat, basePrice: nat) {
    && c.scale > 0 && baseScale > 0 && basePrice > 0
    && c.balance * c.price * c.factor * baseScale < WORD * WORD
    && 0 < c.scale * 1_000_000_000_000_000_000 * basePrice < WORD * WORD
    && c.balance * c.price * c.factor * baseScale / (c.scale * 1_000_000_000_000_000_000 * basePrice) < WORD
  }

  function Contribution(c: Collateral, baseScale: nat, basePrice: nat): nat {
    if Idle(c) || c.scale * 1_000_000_000_000_000_000 * basePrice == 0 then 0
    else c.balance * c.price * c.factor * baseScale / (c.scale * 1_000_000_000_000_000_000 * basePrice)
  }

  function Contributions(cs: seq<Collateral>, baseScale: nat, basePrice: nat): nat {
    if cs == [] then 0
    else Contributions(cs[..|cs| - 1], baseScale, basePrice) + Contribution(cs[|cs| - 1], baseScale, basePrice)
  }

  /** A collateral adds nothing when it is idle, and otherwise the exact quotient when it is countable. */
  lemma CapacityIff(c: Collateral, baseScale: U256, basePrice: U256)
    requires basePrice > 0
    ensures CollateralBorrowCapacity(c, baseScale, basePrice).Value? <==> Idle(c) || Countable(c, baseScale, basePrice)
    ensures CollateralBorrowCapacity(c, baseScale, basePrice).Value? ==>
              CollateralBorrowCapacity(c, baseScale, basePrice).amount == Contribution(c, baseScale, basePrice)
  {
    if !Idle(c) && c.scale > 0 && baseScale > 0 {
      CapacityIs(c, baseScale, basePrice);
    }
  }

  lemma {:induction false} SumIsContributions(cs: seq<Collateral>, baseScale: U256, basePrice: U256)
    requires basePrice > 0 && AllValues(cs, baseScale, basePrice)
    ensures SumCapacities(cs, baseScale, basePrice) == Contributions(cs, baseScale, basePrice)
  {
    if cs != [] {
      var n := |cs| - 1;
      assert AllValues(cs[..n], baseScale, basePrice);
      SumIsContributions(cs[..n], baseScale, basePrice);
      CapacityIff(cs[n], baseScale, basePrice);
    }
  }

  lemma AllValuesIff(cs: seq<Collateral>, baseScale: U256, basePrice: U256)
    requires basePrice > 0
    ensures AllValues(cs, baseScale, basePrice) <==>
            forall i :: 0 <= i < |cs| ==> Idle(cs[i]) || Countable(cs[i], baseScale, basePrice)
  {
    forall i | 0 <= i < |cs|
      ensures CollateralBorrowCapacity(cs[i], baseScale, basePrice).Value? <==> Idle(cs[i]) || Countable(cs[i], baseScale, basePrice)
    {
      CapacityIff(cs[i], baseScale, basePrice);
    }
  }

  // ---- The loop over collaterals --------------------------------------------------------------

  /** Sum of the capacities, unbounded. */
  function SumCapacities(cs: seq<Collateral>, baseScale: U256, basePrice: U256): nat {
    if cs == [] then 0
    else
      var last := CollateralBorrowCapacity(cs[|cs| - 1], baseScale, basePrice);
      SumCapacities(cs[..|cs| - 1], baseScale, basePrice) + if last.Value? then last.amount else 0
  }

  predicate AllValues(cs: seq<Collateral>, baseScale: U256, basePrice: U256) {
    forall i :: 0 <= i < |cs| ==> CollateralBorrowCapacity(cs[i], baseScale, basePrice).Value?
  }

  /** The accumulating loop: saturating addition, and the first capacity that cannot be computed ends
      it. */
  method HandleBorrowCapacity(cs: seq<Collateral>, baseScale: U256, basePrice: U256, currentBorrow: U256)
    returns (total: Capacity, available: U256)
    ensures total.Value? <==>
            basePrice > 0 && forall i :: 0 <= i < |cs| ==> Idle(cs[i]) || Countable(cs[i], baseScale, basePrice)
    ensures total.Value? ==> total.amount == Min(Contributions(cs, baseScale, basePrice), WORD_MAX)
    ensures basePrice == 0 ==> total == Unavailable
    ensures basePrice > 0 ==> (total.Value? <==> AllValues(cs, baseScale, basePrice))
    ensures total.Value? ==> total.amount == Min(SumCapacities(cs, baseScale, basePrice), WORD_MAX)
    ensures total.Value? ==> available as int == if total.amount > currentBorrow then total.amount - currentBorrow else 0
    ensures basePrice > 0 && !total.Value? ==>
              exists i :: 0 <= i < |cs| && AllValues(cs[..i], baseScale, basePrice)
                          && CollateralBorrowCapacity(cs[i], baseScale, basePrice) == total
  {
    available := 0;
    if basePrice == 0 {
      return Unavailable, 0;
    }
    AllValuesIff(cs, baseScale, basePrice);
    if AllValues(cs, baseScale, basePrice) {
      SumIsContributions(cs, baseScale, basePrice);
    }
    var sum: U256 := 0;
    for i := 0 to |cs|
      invariant AllValues(cs[..i], baseScale, basePrice)
      invariant sum == Min(SumCapacities(cs[..i], baseScale, basePrice), WORD_MAX)
    {
      assert cs[..i + 1][..i] == cs[..i];
      var capacity := CollateralBorrowCapacity(cs[i], baseScale, basePrice);
      if !capacity.Value? {
        return capacity, 0;
      }
      sum := if sum + capacity.amount < WORD then sum + capacity.amount else WORD_MAX;
    }
    assert cs[..|cs|] == cs;
    total := Value(sum);
    available := if sum > currentBorrow then sum - currentBorrow else 0;
  }

  /** The rational capacity of one collateral. */
  function ExactCapacity(c: Collateral, baseScale: U256, basePrice: U256): real
    requires basePrice > 0
  {
    if c.balance == 0 || c.price == 0 || c.factor == 0 || c.scale == 0 || baseScale == 0 then 0.0
    else
      Positive(c.scale, FACTOR_SCALE);
      Positive(c.scale * FACTOR_SCALE, basePrice);
      Numerator(c, baseScale) as real / Denominator(c, basePrice) as real
  }

  function ExactSum(cs: seq<Collateral>, baseScale: U256, basePrice: U256): real
    requires basePrice > 0
  {
    if cs == [] then 0.0
    else ExactSum(cs[..|cs| - 1], baseScale, basePrice) + ExactCapacity(cs[|cs| - 1], baseScale, basePrice)
  }

  lemma {:induction false} CastMul(q: nat, d: nat)
    ensures (q * d) as real == q as real * d as real
  {
    if q > 0 {
      CastMul(q - 1, d);
      assert q * d == (q - 1) * d + d;
    }
  }

  lemma RealLeDiv(q: real, n: real, d: real)
    requires d > 0.0
    ensures q <= n / d <==> q * d <= n
  {
    var x := n / d;
    assert x * d == n;
    if q <= x {
      assert (x - q) * d >= 0.0;
    } else {
      assert (q - x) * d > 0.0;
    }
  }

  lemma FloorOfReal(n: nat, d: nat)
    requires d > 0
    ensures (n / d) as real <= n as real / d as real < (n / d) as real + 1.0
  {
    var q := n / d;
    DivIs(n, d, q);
    CastMul(q, d);
    CastMul(q + 1, d);
    RealLeDiv(q as real, n as real, d as real);
    RealLeDiv((q + 1) as real, n as real, d as real);
  }

  lemma CapacityBelowExact(c: Collateral, baseScale: U256, basePrice: U256)
    requires basePrice > 0 && CollateralBorrowCapacity(c, baseScale, basePrice).Value?
    ensures var v := CollateralBorrowCapacity(c, baseScale, basePrice).amount as real;
            v <= ExactCapacity(c, baseScale, basePrice) < v + 1.0
  {
    if c.balance > 0 && c.price > 0 && c.factor > 0 {
      CapacityIs(c, baseScale, basePrice);
      FloorOfReal(Numerator(c, baseScale), Denominator(c, basePrice));
    }
  }

  /** The reported sum never exceeds the rational capacity, and falls short of it by less than one unit
      per collateral. */
  lemma {:induction false} SumBelowExact(cs: seq<Collateral>, baseScale: U256, basePrice: U256)
    requires basePrice > 0 && AllValues(cs, baseScale, basePrice)
    ensures var sum := SumCapacities(cs, baseScale, basePrice) as real;
            && sum <= ExactSum(cs, baseScale, basePrice) <= sum + |cs| as real
            && (cs != [] ==> ExactSum(cs, baseScale, basePrice) < sum + |cs| as real)
  {
    if cs != [] {
      var n := |cs| - 1;
      SumBelowExact(cs[..n], baseScale, basePrice);
      CapacityBelowExact(cs[n], baseScale, basePrice);
    }
  }
}
