/** Slippage limits of the swap and liquidity services (Balancer V3 and Uniswap V4). */
module Slippage {
  import opened Wrappers
  import opened Arithmetic

  datatype SwapKind = ExactIn | ExactOut

  datatype LimitError = QuoteIsZero | Overflow | RoundedToZero

  const SCALE: nat := 10_000

  /** Uniswap: an overflow or a zero limit is an error. */
  function UniswapLimit(kind: SwapKind, quote: U256, bps: nat): Result<U256, LimitError>
    requires bps <= SCALE
  {
    match kind
    case ExactIn =>
      (match CheckedMul(quote, SCALE - bps)
       case None => Err(Overflow)
       case Some(product) => NonZeroLimit(Quotient(product, SCALE)))
    case ExactOut =>
      match CheckedMul(quote, SCALE + bps)
      case None => Err(Overflow)
      case Some(numerator) =>
        match CheckedAdd(numerator, SCALE - 1)
        case None => Err(Overflow)
        case Some(sum) => NonZeroLimit(Quotient(sum, SCALE))
  }

  /** Balancer: a zero quote is an error of its own, found before anything is computed. */
  function BalancerLimit(kind: SwapKind, quote: U256, bps: nat): Result<U256, LimitError>
    requires bps <= SCALE
  {
    if quote == 0 then Err(QuoteIsZero)
    else
      match kind
      case ExactIn =>
        (match CheckedMul(quote, SCALE - bps)
         case None => Err(Overflow)
         case Some(product) => NonZeroLimit(Quotient(product, SCALE)))
      case ExactOut =>
        match CheckedMul(quote, SCALE + bps)
        case None => Err(Overflow)
        case Some(numerator) =>
          match CheckedAdd(numerator, SCALE - 1)
          case None => Err(Overflow)
          case Some(sum) => NonZeroLimit(Quotient(sum, SCALE))
  }

  function NonZeroLimit(limit: U256): Result<U256, LimitError> {
    if limit == 0 then Err(RoundedToZero) else Ok(limit)
  }

  /** The limit before it is checked for zero. */
  function RawLimit(kind: SwapKind, quote: U256, bps: nat): Option<U256>
    requires bps <= SCALE
  {
    match CheckedMul(quote, if kind.ExactIn? then SCALE - bps else SCALE + bps)
    case None => None
    case Some(product) =>
      match CheckedAdd(product, if kind.ExactIn? then 0 else SCALE - 1)
      case None => None
      case Some(sum) => Some(Quotient(sum, SCALE))
  }

  /** A limit given by the caller must not be worse than the live quote. */
  predicate ExplicitLimitOk(kind: SwapKind, quote: U256, limit: U256) {
    !(kind.ExactIn? && limit > quote) && !(kind.ExactOut? && limit < quote)
  }

  /** The minimum for a liquidity operation; zero is an error for deposits only. */
  function DownwardSlippageAllowZero(value: U256, bps: nat): Option<U256>
    requires bps <= SCALE
  {
    match CheckedMul(value, SCALE - bps)
    case None => None
    case Some(product) => Some(Quotient(product, SCALE))
  }

  function DownwardSlippage(value: U256, bps: nat): Result<U256, LimitError>
    requires bps <= SCALE
  {
    match DownwardSlippageAllowZero(value, bps)
    case None => Err(Overflow)
    case Some(limit) => if limit == 0 then Err(RoundedToZero) else Ok(limit)
  }

  /** The limit is the exact rational bound, rounded the safe way: an amount x is at or below an
      exact-in limit iff x / quote <= 1 - bps / SCALE, and at or above an exact-out limit iff
      x / quote >= 1 + bps / SCALE. */
  lemma LimitIsExact(kind: SwapKind, quote: U256, bps: nat, x: nat)
    requires bps <= SCALE && RawLimit(kind, quote, bps).Some?
    ensures var limit := RawLimit(kind, quote, bps).value;
            match kind
            case ExactIn => x <= limit <==> x * 10_000 <= quote * (10_000 - bps)
            case ExactOut => x >= limit <==> x * 10_000 >= quote * (10_000 + bps)
  {
    if kind.ExactIn? {
      LeDiv(quote * (SCALE - bps), SCALE, x);
    } else if x > 0 {
      LeDiv(quote * (SCALE + bps) + (SCALE - 1), SCALE, x + 1);
      assert (x + 1) * SCALE == x * SCALE + SCALE;
    } else {
      LeDiv(quote * (SCALE + bps) + (SCALE - 1), SCALE, 1);
    }
  }

  /** An explicit limit is refused exactly when it is worse than the quote can be: a least output above it, or a
      most input below it. */
  lemma ExplicitLimitIff(kind: SwapKind, quote: U256, limit: U256)
    ensures ExplicitLimitOk(kind, quote, limit) <==> if kind.ExactIn? then limit <= quote else quote <= limit
  {
  }

  /** When a limit is derived at all, and that the two services differ in the error for a zero quote
      only. */
  lemma LimitDefinedIff(kind: SwapKind, quote: U256, bps: nat)
    requires bps <= SCALE
    ensures UniswapLimit(kind, quote, bps).Ok? <==>
            match kind
            case ExactIn => 10_000 <= quote * (10_000 - bps) < WORD
            case ExactOut => quote > 0 && quote * (10_000 + bps) + 9_999 < WORD
    ensures BalancerLimit(kind, quote, bps) == if quote == 0 then Err(QuoteIsZero) else UniswapLimit(kind, quote, bps)
    ensures quote == 0 ==> UniswapLimit(kind, quote, bps) == Err(RoundedToZero)
    ensures UniswapLimit(kind, quote, bps).Ok? ==> RawLimit(kind, quote, bps) == Some(UniswapLimit(kind, quote, bps).value)
  {
    if RawLimit(kind, quote, bps).Some? {
      LimitIsExact(kind, quote, bps, 0);
      LimitIsExact(kind, quote, bps, 1);
    }
    MulMono(if quote == 0 then 0 else 1, quote, SCALE + bps);
  }

  /** A derived limit always passes the check that explicit limits go through, for the same quote. */
  lemma DerivedLimitPasses(kind: SwapKind, quote: U256, bps: nat)
    requires bps <= SCALE && UniswapLimit(kind, quote, bps).Ok?
    ensures ExplicitLimitOk(kind, quote, UniswapLimit(kind, quote, bps).value)
    ensures BalancerLimit(kind, quote, bps) == UniswapLimit(kind, quote, bps)
  {
    var limit := UniswapLimit(kind, quote, bps).value;
    LimitDefinedIff(kind, quote, bps);
    LimitIsExact(kind, quote, bps, limit);
    LimitIsExact(kind, quote, bps, quote + 1);
    LimitIsExact(kind, quote, bps, if quote == 0 then 0 else quote - 1);
    assert (quote + 1) * SCALE == quote * SCALE + SCALE;
    assert quote * (SCALE + bps) == quote * SCALE + quote * bps;
    assert quote * (SCALE - bps) == quote * SCALE - quote * bps;
    assert quote * bps >= 0;
  }

  lemma RawExact(quote: nat, a: nat, b: nat)
    requires a <= b
    ensures quote * a <= quote * b
  {
  }

  /** Limits grow with the quote. */
  lemma LimitMonotoneInQuote(kind: SwapKind, small: U256, large: U256, bps: nat)
    requires bps <= SCALE && small <= large && RawLimit(kind, large, bps).Some?
    ensures RawLimit(kind, small, bps).Some?
    ensures RawLimit(kind, small, bps).value <= RawLimit(kind, large, bps).value
  {
    var factor := if kind.ExactIn? then SCALE - bps else SCALE + bps;
    MulMono(small, large, factor);
    DivMono(small * factor, large * factor, SCALE);
    DivMono(small * factor + (SCALE - 1), large * factor + (SCALE - 1), SCALE);
  }

  /** More slippage makes the limit more permissive: lower for exact-in, higher for exact-out. */
  lemma LimitPermissiveInSlippage(kind: SwapKind, quote: U256, tight: nat, loose: nat)
    requires tight <= loose <= SCALE
    requires RawLimit(kind, quote, tight).Some? && RawLimit(kind, quote, loose).Some?
    ensures kind.ExactIn? ==> RawLimit(kind, quote, loose).value <= RawLimit(kind, quote, tight).value
    ensures kind.ExactOut? ==> RawLimit(kind, quote, tight).value <= RawLimit(kind, quote, loose).value
  {
    if kind.ExactIn? {
      RawExact(quote, SCALE - loose, SCALE - tight);
      LimitIsExact(kind, quote, loose, RawLimit(kind, quote, loose).value);
      LimitIsExact(kind, quote, tight, RawLimit(kind, quote, loose).value);
    } else {
      RawExact(quote, SCALE + tight, SCALE + loose);
      LimitIsExact(kind, quote, loose, RawLimit(kind, quote, loose).value);
      LimitIsExact(kind, quote, tight, RawLimit(kind, quote, loose).value);
    }
  }

  /** A liquidity minimum is never above the quoted amount, and is the exact-in limit of it.  A deposit's
      minimum is refused exactly when that limit is zero or the product leaves a word. */
  lemma DownwardIsExactInLimit(value: U256, bps: nat)
    requires bps <= SCALE
    ensures DownwardSlippageAllowZero(value, bps) == RawLimit(ExactIn, value, bps)
    ensures DownwardSlippageAllowZero(value, bps).Some? ==> DownwardSlippageAllowZero(value, bps).value <= value
    ensures DownwardSlippage(value, bps).Ok? <==> 10_000 <= value * (10_000 - bps) < WORD
    ensures DownwardSlippage(value, bps) == UniswapLimit(ExactIn, value, bps)
  {
    LimitDefinedIff(ExactIn, value, bps);
    if DownwardSlippageAllowZero(value, bps).Some? {
      LimitIsExact(ExactIn, value, bps, value + 1);
      assert (value + 1) * SCALE == value * SCALE + SCALE;
      RawExact(value, SCALE - bps, SCALE);
    }
  }
}
