/**
Borrowing on Aave V3: how `amount=max` is resolved against the account, and the health-factor guard
every borrow passes through.  All quantities are 256-bit words; every checked operation can fail.
*/
module AaveV3 {
  import opened Wrappers
  import opened Arithmetic
  import opened Decimal

  datatype Account = Account(collateral: U256, debt: U256, available: U256, thresholdBps: U256)

  datatype BorrowRequest = BorrowRequest(amount: Option<string>, amountRaw: Option<string>, minHealth: Option<string>)

  datatype BorrowError =
    | NoCollateral | NoAvailableBorrows | BadMinHealth | BadAmount
    | CollateralOverflow | MaxDebtOverflow | BaseOverflow | MaxAmountIsZero
    | AmountOverflow | BelowOraclePrecision | ExceedsAvailable | DebtOverflow | HealthOverflow | BelowMinHealth

  const RAY: nat := 1_000_000_000_000_000_000
  const BPS: nat := 10_000

  predicate Lower(c: char, l: char) {
    c == l || ('A' <= c <= 'Z' && (c as int + 32) as char == l)
  }

  /** Trimmed and case-insensitively equal to "max". */
  predicate ReadsMax(s: string) {
    var t := Trim(s);
    |t| == 3 && Lower(t[0], 'm') && Lower(t[1], 'a') && Lower(t[2], 'x')
  }

  predicate IsAmountMax(req: BorrowRequest) {
    (req.amount.Some? && ReadsMax(req.amount.value)) || (req.amountRaw.Some? && ReadsMax(req.amountRaw.value))
  }

  /** The requested amount in token units, "max" reading as the largest word. */
  function BorrowAmount(req: BorrowRequest, decimals: nat): Result<U256, BorrowError> {
    match (req.amount, req.amountRaw)
    case (Some(_), Some(_)) => Err(BadAmount)
    case (Some(raw), None) =>
      if ReadsMax(raw) then Ok(WORD_MAX)
      else (match ParseDecimalAmount(raw, decimals)
            case Ok(v) => Ok(v)
            case Err(_) => Err(BadAmount))
    case (None, Some(raw)) =>
      if ReadsMax(raw) then Ok(WORD_MAX)
      else (match FromDecStr(Trim(raw))
            case Some(v) => Ok(v)
            case None => Err(BadAmount))
    case (None, None) => Err(BadAmount)
  }

  function WithAmountRaw(req: BorrowRequest, amount: U256): BorrowRequest {
    req.(amount := None, amountRaw := Some(Print(amount)))
  }

  function MinHealth(req: BorrowRequest): Result<U256, BorrowError> {
    match ParseDecimalAmount(if req.minHealth.Some? then req.minHealth.value else "1.05", 18)
    case Ok(v) => Ok(v)
    case Err(_) => Err(BadMinHealth)
  }

  /** What request validation has established before any of this runs. */
  predicate Validated(req: BorrowRequest) {
    req.minHealth.Some? ==> MinHealth(req).Ok? && MinHealth(req).value >= RAY
  }

  function TokenAmountToBase(amount: U256, price: U256, decimals: nat): Result<U256, BorrowError> {
    match CheckedMul(amount, price)
    case Some(product) => Ok(Quotient(product, Pow10(decimals)))
    case None => Err(AmountOverflow)
  }

  function BaseToTokenAmountFloor(base: U256, price: U256, decimals: nat): Result<U256, BorrowError>
    requires price > 0
  {
    match CheckedMul(base, Pow10(decimals))
    case Some(product) => Ok(Quotient(product, price))
    case None => Err(BaseOverflow)
  }

  /** Collateral weighted by the liquidation threshold. */
  function Secured(account: Account): Option<U256> {
    match CheckedMul(account.collateral, account.thresholdBps)
    case Some(product) => Some(Quotient(product, BPS))
    case None => None
  }

  /** The base amount that brings the health factor down to the minimum. */
  function MaxBorrowBaseForHealth(account: Account, minHealth: U256): Result<U256, BorrowError>
    requires minHealth > 0
  {
    match Secured(account)
    case None => Err(CollateralOverflow)
    case Some(secured) =>
      match CheckedMul(secured, RAY)
      case None => Err(MaxDebtOverflow)
      case Some(scaled) =>
        var maxDebt := Quotient(scaled, minHealth);
        Ok(if maxDebt <= account.debt then 0 else maxDebt - account.debt)
  }

  /** The base value `amount=max` aims for. */
  function MaxBase(account: Account, minHealth: U256): Result<U256, BorrowError>
    requires minHealth > 0
  {
    match MaxBorrowBaseForHealth(account, minHealth)
    case Ok(health) => Ok(Min(account.available, health))
    case Err(e) => Err(e)
  }

  function ResolveMax(account: Account, price: U256, decimals: nat, minHealth: U256): Result<U256, BorrowError>
    requires price > 0 && minHealth > 0
  {
    match MaxBase(account, minHealth)
    case Err(e) => Err(e)
    case Ok(base) =>
      match BaseToTokenAmountFloor(base, price, decimals)
      case Err(e) => Err(e)
      case Ok(amount) => if amount == 0 then Err(MaxAmountIsZero) else Ok(amount)
  }

  lemma DefaultMinHealth()
    ensures ParseDecimalAmount("1.05", 18) == Ok(1_050_000_000_000_000_000)
  {
    DigitsKeepTrim("1.05");
    assert "1" + "." + "05" == "1.05";
    assert Number("1") == 1 && Number("05") == 5 by {
      assert "05"[..1] == "0" && Number("0") == 0 && "1"[..0] == "" && Number("") == 0;
    }
    Pow10At16();
    Pow10Add(16, 2);
    assert Pow10(2) == 100;
    ShapeParses("1.05", "1", "05", 18);
  }

  lemma Pow10At16()
    ensures Pow10(16) == 10_000_000_000_000_000
  {
    assert Pow10(4) == 10_000;
    Pow10Add(4, 4);
    Pow10Add(8, 8);
  }

  lemma MinHealthIsAtLeastOne(req: BorrowRequest)
    requires Validated(req)
    ensures MinHealth(req).Ok? && MinHealth(req).value >= RAY
  {
    DefaultMinHealth();
  }

  function ResolveBorrow(account: Account, price: U256, decimals: nat, req: BorrowRequest): Result<BorrowRequest, BorrowError>
    requires price > 0 && Validated(req)
  {
    MinHealthIsAtLeastOne(req);
    if account.collateral == 0 then Err(NoCollateral)
    else if account.available == 0 then Err(NoAvailableBorrows)
    else
      match (if IsAmountMax(req) then ResolveMax(account, price, decimals, MinHealth(req).value)
             else BorrowAmount(req, decimals))
      case Ok(amount) => Ok(WithAmountRaw(req, amount))
      case Err(e) => Err(e)
  }

  /** The checks on an amount that has been resolved. */
  function GuardAmount(account: Account, price: U256, decimals: nat, amount: U256, minHealth: U256): Result<U256, BorrowError>
  {
    match TokenAmountToBase(amount, price, decimals)
    case Err(e) => Err(e)
    case Ok(base) =>
      if base == 0 then Err(BelowOraclePrecision)
      else if base > account.available then Err(ExceedsAvailable)
      else if account.debt + base >= WORD then Err(DebtOverflow)
      else
        match Secured(account)
        case None => Err(CollateralOverflow)
        case Some(secured) =>
          match CheckedMul(secured, RAY)
          case None => Err(HealthOverflow)
          case Some(scaled) =>
            if Quotient(scaled, account.debt + base) < minHealth then Err(BelowMinHealth) else Ok(base)
  }

  function GuardBorrowHealth(account: Account, price: U256, decimals: nat, req: BorrowRequest): Result<BorrowRequest, BorrowError>
    requires price > 0 && Validated(req)
  {
    match ResolveBorrow(account, price, decimals, req)
    case Err(e) => Err(e)
    case Ok(resolved) =>
      match BorrowAmount(resolved, decimals)
      case Err(e) => Err(e)
      case Ok(amount) =>
        MinHealthIsAtLeastOne(req);
        match GuardAmount(account, price, decimals, amount, MinHealth(req).value)
        case Err(e) => Err(e)
        case Ok(_) => Ok(resolved)
  }

  // ---- Laws ---------------------------------------------------------------------------------

  /** Writing a resolved amount into the request and reading it back is the identity. */
  lemma RawAmountRoundTrip(req: BorrowRequest, amount: U256, decimals: nat)
    ensures BorrowAmount(WithAmountRaw(req, amount), decimals) == Ok(amount)
    ensures !IsAmountMax(WithAmountRaw(req, amount))
    ensures WithAmountRaw(req, amount).minHealth == req.minHealth && WithAmountRaw(req, amount).amount.None?
  {
    NumberOfPrint(amount);
    DigitsKeepTrim(Print(amount));
  }

  /** A debt keeps the health factor at or above the minimum exactly up to floor(scaled / minimum). */
  lemma HealthIffDebt(scaled: nat, debt: nat, minHealth: nat)
    requires debt > 0 && minHealth > 0
    ensures scaled / debt >= minHealth <==> debt <= scaled / minHealth
  {
    LeDiv(scaled, debt, minHealth);
    LeDiv(scaled, minHealth, debt);
    assert minHealth * debt == debt * minHealth;
  }

  /** The guard accepts an amount if and only if its base value is at least one unit and at most what
      `amount=max` aims for; all its overflow, availability and health checks amount to that. */
  lemma GuardIsTheCap(account: Account, price: U256, decimals: nat, amount: U256, minHealth: U256)
    requires price > 0 && minHealth >= RAY
    ensures GuardAmount(account, price, decimals, amount, minHealth).Ok? <==>
            && TokenAmountToBase(amount, price, decimals).Ok?
            && MaxBase(account, minHealth).Ok?
            && 1 <= TokenAmountToBase(amount, price, decimals).value <= MaxBase(account, minHealth).value
  {
    if Secured(account).Some? && CheckedMul(Secured(account).value, RAY).Some? {
      HealthCap(account, CheckedMul(Secured(account).value, RAY).value, amount, price, decimals, minHealth);
    }
  }

  lemma HealthCap(account: Account, scaled: U256, amount: U256, price: U256, decimals: nat, minHealth: U256)
    requires minHealth > 0 && Secured(account).Some? && CheckedMul(Secured(account).value, RAY) == Some(scaled)
    ensures GuardAmount(account, price, decimals, amount, minHealth).Ok? <==>
            && TokenAmountToBase(amount, price, decimals).Ok?
            && 1 <= TokenAmountToBase(amount, price, decimals).value <= MaxBase(account, minHealth).value
  {
    if TokenAmountToBase(amount, price, decimals).Ok? {
      var base := TokenAmountToBase(amount, price, decimals).value;
      if base > 0 {
        HealthIffDebt(scaled, account.debt + base, minHealth);
      }
    }
  }

  /** The base value of floor(base * unit / price) tokens: at most `base`, and short of it by at most
      one token's price rounded up to base units. */
  lemma FloorShortfall(base: nat, unit: nat, price: nat)
    requires unit > 0 && price > 0
    ensures var amount := MulDiv(base, unit, price);
            && amount * price <= base * unit
            && MulDiv(amount, price, unit) <= base
            && base - MulDiv(amount, price, unit) <= (price + unit - 1) / unit
  {
    var amount := MulDiv(base, unit, price);
    var back := MulDiv(amount, price, unit);
    var ceil := (price + unit - 1) / unit;
    DivIs(base * unit, price, amount);
    assert (amount + 1) * price == amount * price + price;
    DivIs(amount * price, unit, back);
    assert (base + 1) * unit == base * unit + unit;
    if back > base {
      MulMono(base + 1, back, unit);
    }
    DivIs(price + unit - 1, unit, ceil);
    assert (ceil + 1) * unit == ceil * unit + unit;
    assert (back + 1) * unit == back * unit + unit;
    assert (back + ceil + 1) * unit == back * unit + ceil * unit + unit;
    if base > back + ceil {
      MulMono(back + ceil + 1, base, unit);
    }
  }

  /** What resolving "max" yields, before it is written into the request. */
  lemma ResolvedMax(account: Account, price: U256, decimals: nat, minHealth: U256)
    requires price > 0 && minHealth >= RAY && ResolveMax(account, price, decimals, minHealth).Ok?
    ensures MaxBase(account, minHealth).Ok?
    ensures var base := TokenAmountToBase(ResolveMax(account, price, decimals, minHealth).value, price, decimals);
            var target := MaxBase(account, minHealth).value;
            && base.Ok? && base.value <= target
            && target - base.value <= (price + Pow10(decimals) - 1) / Pow10(decimals)
  {
    FloorShortfall(MaxBase(account, minHealth).value, Pow10(decimals), price);
  }

  /** An accepted or rejected amount, with the reason when its base value is at most the target. */
  lemma OnlyPrecisionRejects(account: Account, price: U256, decimals: nat, amount: U256, minHealth: U256)
    requires price > 0 && minHealth >= RAY
    requires TokenAmountToBase(amount, price, decimals).Ok? && MaxBase(account, minHealth).Ok?
    requires TokenAmountToBase(amount, price, decimals).value <= MaxBase(account, minHealth).value
    ensures GuardAmount(account, price, decimals, amount, minHealth) ==
            var base := TokenAmountToBase(amount, price, decimals).value;
            if base == 0 then Err(BelowOraclePrecision) else Ok(base)
  {
    GuardIsTheCap(account, price, decimals, amount, minHealth);
  }

  /** The guard on a request resolves it and then checks the resolved amount. */
  lemma GuardOfResolved(account: Account, price: U256, decimals: nat, req: BorrowRequest, amount: U256)
    requires price > 0 && Validated(req)
    requires ResolveBorrow(account, price, decimals, req) == Ok(WithAmountRaw(req, amount))
    ensures MinHealth(req).Ok?
    ensures GuardBorrowHealth(account, price, decimals, req) ==
            match GuardAmount(account, price, decimals, amount, MinHealth(req).value)
            case Err(e) => Err(e)
            case Ok(_) => Ok(WithAmountRaw(req, amount))
  {
    MinHealthIsAtLeastOne(req);
    RawAmountRoundTrip(req, amount, decimals);
  }

  /** Whenever `amount=max` resolves, the guard meets no overflow, no availability limit and no health
      limit: the only rejection left is a base value that rounds to zero.  The base value the resolved
      amount stands for misses the target by at most the price of one token unit, rounded up. */
  lemma MaxPassesGuard(account: Account, price: U256, decimals: nat, req: BorrowRequest) returns (amount: U256, base: U256, target: U256)
    requires price > 0 && Validated(req) && IsAmountMax(req)
    requires ResolveBorrow(account, price, decimals, req).Ok?
    ensures ResolveBorrow(account, price, decimals, req) == Ok(WithAmountRaw(req, amount))
    ensures BorrowAmount(WithAmountRaw(req, amount), decimals) == Ok(amount)
    ensures TokenAmountToBase(amount, price, decimals) == Ok(base)
    ensures MinHealth(req).Ok? && MinHealth(req).value > 0 && MaxBase(account, MinHealth(req).value) == Ok(target)
    ensures base <= target && target - base <= (price + Pow10(decimals) - 1) / Pow10(decimals)
    ensures GuardBorrowHealth(account, price, decimals, req) ==
            if base == 0 then Err(BelowOraclePrecision) else Ok(WithAmountRaw(req, amount))
  {
    MinHealthIsAtLeastOne(req);
    var minHealth := MinHealth(req).value;
    amount := ResolveMax(account, price, decimals, minHealth).value;
    ResolvedMax(account, price, decimals, minHealth);
    base := TokenAmountToBase(amount, price, decimals).value;
    target := MaxBase(account, minHealth).value;
    OnlyPrecisionRejects(account, price, decimals, amount, minHealth);
    RawAmountRoundTrip(req, amount, decimals);
    GuardOfResolved(account, price, decimals, req, amount);
  }

  /** An explicit amount passes if and only if its base value lies between one unit and the target of
      `amount=max`. */
  lemma ExplicitAmountIff(account: Account, price: U256, decimals: nat, req: BorrowRequest)
    requires price > 0 && Validated(req) && !IsAmountMax(req)
    ensures MinHealth(req).Ok? && MinHealth(req).value > 0
    ensures GuardBorrowHealth(account, price, decimals, req).Ok? <==>
            && account.collateral > 0 && account.available > 0 && BorrowAmount(req, decimals).Ok?
            && var base := TokenAmountToBase(BorrowAmount(req, decimals).value, price, decimals);
               var target := MaxBase(account, MinHealth(req).value);
               base.Ok? && target.Ok? && 1 <= base.value <= target.value
  {
    MinHealthIsAtLeastOne(req);
    if account.collateral > 0 && account.available > 0 && BorrowAmount(req, decimals).Ok? {
      var amount := BorrowAmount(req, decimals).value;
      RawAmountRoundTrip(req, amount, decimals);
      GuardIsTheCap(account, price, decimals, amount, MinHealth(req).value);
    }
  }

  // ---- In the account's own figures -----------------------------------------------------------

  /** The minimum health factor is the requested one, and 1.05 by default. */
  lemma MinHealthIs(req: BorrowRequest)
    ensures req.minHealth.None? ==> MinHealth(req) == Ok(1_050_000_000_000_000_000)
    ensures forall text, v :: req.minHealth == Some(text) && ParseDecimalAmount(text, 18) == Ok(v) ==> MinHealth(req) == Ok(v)
    ensures forall text :: req.minHealth == Some(text) && ParseDecimalAmount(text, 18).Err? ==> MinHealth(req).Err?
  {
    DefaultMinHealth();
  }

  /** Collateral, weighted by the liquidation threshold in basis points and scaled to 18 places, fits a word. */
  predicate Weighs(account: Account) {
    && account.collateral * account.thresholdBps < WORD
    && account.collateral * account.thresholdBps / 10_000 * 1_000_000_000_000_000_000 < WORD
  }

  function Weight(account: Account): nat {
    account.collateral * account.thresholdBps / 10_000 * 1_000_000_000_000_000_000
  }

  /** Borrowing b base units is available and leaves the health factor at or above the minimum. */
  predicate Affordable(account: Account, minHealth: nat, b: int) {
    && 1 <= b <= account.available
    && account.debt + b < WORD
    && Weighs(account)
    && Weight(account) / (account.debt + b) >= minHealth
  }

  /** The most that is available and safe to borrow, in base units. */
  function SafeRoom(account: Account, minHealth: nat): nat
    requires minHealth > 0
  {
    var debtLimit := Weight(account) / minHealth;
    var room := if debtLimit > account.debt then debtLimit - account.debt else 0;
    if account.available < room then account.available else room
  }

  lemma GuardIs(account: Account, price: U256, decimals: nat, amount: U256, minHealth: U256)
    ensures GuardAmount(account, price, decimals, amount, minHealth).Ok? <==>
            amount * price < WORD && Affordable(account, minHealth, amount * price / Pow10(decimals))
  {
  }

  /** An explicit amount is let through if and only if its base value is affordable. */
  lemma BorrowAllowedIff(account: Account, price: U256, decimals: nat, req: BorrowRequest, a: U256)
    requires price > 0 && Validated(req) && !IsAmountMax(req) && BorrowAmount(req, decimals) == Ok(a)
    ensures MinHealth(req).Ok?
    ensures GuardBorrowHealth(account, price, decimals, req).Ok? <==>
            && account.collateral > 0 && account.available > 0
            && a * price < WORD && Affordable(account, MinHealth(req).value, a * price / Pow10(decimals))
    ensures GuardBorrowHealth(account, price, decimals, req).Ok? ==>
            GuardBorrowHealth(account, price, decimals, req) == Ok(WithAmountRaw(req, a))
  {
    MinHealthIsAtLeastOne(req);
    if account.collateral > 0 && account.available > 0 {
      GuardOfResolved(account, price, decimals, req, a);
      GuardIs(account, price, decimals, a, MinHealth(req).value);
    }
  }

  lemma MaxBaseIs(account: Account, minHealth: U256)
    requires minHealth > 0
    ensures MaxBase(account, minHealth).Ok? <==> Weighs(account)
    ensures MaxBase(account, minHealth).Ok? ==> MaxBase(account, minHealth).value == SafeRoom(account, minHealth)
  {
  }

  /** "max" resolves to the most tokens whose value does not exceed the safe room. */
  lemma MaxResolvesIff(account: Account, price: U256, decimals: nat, req: BorrowRequest, a: U256)
    requires price > 0 && Validated(req) && IsAmountMax(req)
    ensures MinHealth(req).Ok? && MinHealth(req).value > 0
    ensures ResolveBorrow(account, price, decimals, req) == Ok(WithAmountRaw(req, a)) <==>
            && account.collateral > 0 && account.available > 0 && Weighs(account)
            && var room := SafeRoom(account, MinHealth(req).value) * Pow10(decimals);
               room < WORD && a > 0 && a * price <= room < (a + 1) * price
  {
    MinHealthIsAtLeastOne(req);
    var minHealth := MinHealth(req).value;
    MaxBaseIs(account, minHealth);
    DivIs(SafeRoom(account, minHealth) * Pow10(decimals), price, a);
    if ResolveMax(account, price, decimals, minHealth).Ok? {
      SameRaw(req, a, ResolveMax(account, price, decimals, minHealth).value);
    }
  }

  lemma SameRaw(req: BorrowRequest, a: U256, b: U256)
    ensures WithAmountRaw(req, a) == WithAmountRaw(req, b) <==> a == b
  {
    NumberOfPrint(a);
    NumberOfPrint(b);
  }

  /** What resolves is let through unless its value rounds to zero. */
  lemma GuardOfMax(account: Account, price: U256, decimals: nat, req: BorrowRequest, a: U256)
    requires price > 0 && Validated(req) && IsAmountMax(req)
    ensures GuardBorrowHealth(account, price, decimals, req) == Ok(WithAmountRaw(req, a)) <==>
            ResolveBorrow(account, price, decimals, req) == Ok(WithAmountRaw(req, a)) && a * price / Pow10(decimals) >= 1
  {
    if ResolveBorrow(account, price, decimals, req).Ok? {
      var amount, base, target := MaxPassesGuard(account, price, decimals, req);
      SameRaw(req, a, amount);
    }
  }

  /** A borrow of "max" is let through with amount a if and only if a is the most tokens whose value does not
      exceed the safe room, and that value is at least one base unit. */
  lemma MaxAllowedIff(account: Account, price: U256, decimals: nat, req: BorrowRequest, a: U256)
    requires price > 0 && Validated(req) && IsAmountMax(req)
    ensures MinHealth(req).Ok? && MinHealth(req).value > 0
    ensures GuardBorrowHealth(account, price, decimals, req) == Ok(WithAmountRaw(req, a)) <==>
            && account.collateral > 0 && account.available > 0 && Weighs(account)
            && (var room := SafeRoom(account, MinHealth(req).value) * Pow10(decimals);
                room < WORD && a > 0 && a * price <= room < (a + 1) * price)
            && a * price / Pow10(decimals) >= 1
  {
    MaxResolvesIff(account, price, decimals, req, a);
    GuardOfMax(account, price, decimals, req, a);
  }

  /** How the requested amount is read: "max" as the largest word, a decimal amount in units of 10^-decimals,
      a raw amount digit by digit; exactly one of the two must be there. */
  lemma BorrowAmountIs(req: BorrowRequest, decimals: nat, v: nat)
    ensures (v < WORD && BorrowAmount(req, decimals) == Ok(v)) <==>
            || (req.amountRaw.None? && req.amount.Some? &&
                if ReadsMax(req.amount.value) then v == WORD - 1
                else v < WORD && exists whole, fractional ::
                       Shape(Trim(req.amount.value), whole, fractional, decimals) && Units(whole, fractional, decimals) == v && v < WORD)
            || (req.amount.None? && req.amountRaw.Some? &&
                if ReadsMax(req.amountRaw.value) then v == WORD - 1
                else AllDigits(Trim(req.amountRaw.value)) && Number(Trim(req.amountRaw.value)) == v && v < WORD)
  {
    if req.amountRaw.None? && req.amount.Some? && !ReadsMax(req.amount.value) {
      ParserAcceptsExactly(req.amount.value, decimals, v);
    }
  }
}
