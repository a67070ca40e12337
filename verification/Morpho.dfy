/** Compiling Morpho Blue actions. */
module Morpho {
  import opened Wrappers
  import opened Arithmetic
  import opened Allowances

  const MORPHO: Address := 0xBBBBBbbBBb9cC5e90e3b3Af64bdAF62C37EEFFCb

  datatype Action = DoSupply | DoWithdraw | DoSupplyCollateral | DoWithdrawCollateral | DoBorrow | DoRepay

  datatype Market = Market(loanToken: Address, collateralToken: Address)

  datatype Amount = Assets(value: U256) | Shares(value: U256)

  datatype MorphoError = ZeroAmount | SharesUnsupported

  /** A single call, or a batch. */
  datatype Compiled = Single(call: Call) | Batch(calls: seq<Call>)

  function RequireAssets(amount: Amount): Result<U256, MorphoError> {
    match amount
    case Assets(value) => if value != 0 then Ok(value) else Err(ZeroAmount)
    case Shares(_) => Err(SharesUnsupported)
  }

  /** (assets, shares): exactly one of them can be non-zero. */
  function SplitAmount(amount: Amount): (U256, U256) {
    match amount
    case Assets(value) => (value, 0)
    case Shares(value) => (0, value)
  }

  function CompileAction(action: Action, market: Market, amount: Amount): Result<Compiled, MorphoError> {
    match action
    case DoSupply =>
      (match RequireAssets(amount)
       case Err(e) => Err(e)
       case Ok(assets) => Ok(Batch(ApprovalBatch(market.loanToken, MORPHO, assets, Supply(assets)))))
    case DoWithdraw =>
      var (assets, shares) := SplitAmount(amount);
      Ok(Single(Execute(MORPHO, Withdraw(assets, shares))))
    case DoSupplyCollateral =>
      (match RequireAssets(amount)
       case Err(e) => Err(e)
       case Ok(assets) => Ok(Batch(ApprovalBatch(market.collateralToken, MORPHO, assets, SupplyCollateral(assets)))))
    case DoWithdrawCollateral =>
      (match RequireAssets(amount)
       case Err(e) => Err(e)
       case Ok(assets) => Ok(Single(Execute(MORPHO, WithdrawCollateral(assets)))))
    case DoBorrow =>
      (match RequireAssets(amount)
       case Err(e) => Err(e)
       case Ok(assets) => Ok(Single(Execute(MORPHO, Borrow(assets)))))
    case DoRepay =>
      var (assets, shares) := SplitAmount(amount);
      var approval := if shares == 0 then assets else WORD_MAX;
      Ok(Batch(ApprovalBatch(market.loanToken, MORPHO, approval, Repay(assets, shares))))
  }

  /** Token and allowance an approving action needs: what it deposits, or, when a debt is repaid by
      shares whose asset value is not known beforehand, everything. */
  function Needs(action: Action, market: Market, amount: Amount): Option<(Address, U256)> {
    match action
    case DoSupply => Some((market.loanToken, amount.value))
    case DoSupplyCollateral => Some((market.collateralToken, amount.value))
    case DoRepay => Some((market.loanToken, if amount.Shares? && amount.value > 0 then WORD_MAX else amount.value))
    case _ => None
  }

  /** Every approving action compiles to a clean batch: Morpho may draw exactly what the action needs
      at the protocol call, nothing afterwards, and no other allowance is touched.  Every other action
      is one protocol call without approvals. */
  lemma ActionIsClean(action: Action, market: Market, amount: Amount)
    requires CompileAction(action, market, amount).Ok?
    ensures var compiled := CompileAction(action, market, amount).value;
            match Needs(action, market, amount)
            case None => compiled.Single? && compiled.call.Execute? && compiled.call.target == MORPHO
            case Some((token, allowance)) =>
              && compiled.Batch? && |compiled.calls| == 4 && compiled.calls[2].target == MORPHO
              && Clean(compiled.calls, 2, Intent(map[(token, MORPHO) := allowance], map[]))
  {
    if Needs(action, market, amount).Some? {
      var (token, allowance) := Needs(action, market, amount).value;
      ApprovalBatchClean(token, MORPHO, allowance, CompileAction(action, market, amount).value.calls[2].protocol);
    }
  }

  function ProtocolCall(compiled: Compiled): Call
    requires compiled.Batch? ==> |compiled.calls| > 2
  {
    match compiled
    case Single(call) => call
    case Batch(calls) => calls[2]
  }

  /** Which actions compile, and what each asks of Morpho: an amount of assets as assets, an amount of shares as
      shares, and shares only where a position is reduced. */
  lemma ActionCallIs(action: Action, market: Market, amount: Amount)
    ensures CompileAction(action, market, amount).Ok? <==>
            action.DoWithdraw? || action.DoRepay? || (amount.Assets? && amount.value > 0)
    ensures CompileAction(action, market, amount).Ok? ==>
              var compiled := CompileAction(action, market, amount).value;
              && (compiled.Batch? ==> |compiled.calls| == 4)
              && (compiled.Batch? <==> action.DoSupply? || action.DoSupplyCollateral? || action.DoRepay?)
              && ProtocolCall(compiled) == Execute(0xBBBBBbbBBb9cC5e90e3b3Af64bdAF62C37EEFFCb,
                   match action
                   case DoSupply => Supply(amount.value)
                   case DoSupplyCollateral => SupplyCollateral(amount.value)
                   case DoBorrow => Borrow(amount.value)
                   case DoWithdrawCollateral => WithdrawCollateral(amount.value)
                   case DoWithdraw => if amount.Assets? then Withdraw(amount.value, 0) else Withdraw(0, amount.value)
                   case DoRepay => if amount.Assets? then Repay(amount.value, 0) else Repay(0, amount.value))
  {
  }
}
