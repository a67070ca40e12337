/** Validating, ordering and compiling Balancer V3 swaps and liquidity operations. */
module BalancerV3 {
  import opened Wrappers
  import opened Arithmetic
  import opened Decimal
  import opened Slippage
  import opened Allowances
  import Engine

  const ROUTER: Address := 0x5e315f96389C1aaF9324D97d3512ae1e0Bf3C21a
  const PERMIT2: Address := 0x000000000022D473030F116dDEE9F6B43aC78BA3
  const MAX_ADD_LIQUIDITY_INPUT_TOKENS: nat := 3
  const UINT48: nat := 0x1_0000_0000_0000

  datatype CompileError = Invalid | Unresolved | AmountTooLarge | BadArrays | Unregistered | NotRaw

  datatype TokenAmount = TokenAmount(token: Address, amountRaw: string)

  datatype SwapRequest = SwapRequest(
    pool: Option<Address>, tokenIn: Address, tokenOut: Address, kind: SwapKind, amountRaw: string,
    limitRaw: Option<string>, slippageBps: nat, deadline: Option<nat>)

  datatype AddRequest = AddRequest(
    pool: Address, amountsIn: seq<TokenAmount>, minBptRaw: Option<string>, slippageBps: nat, deadline: Option<nat>)

  datatype RemoveRequest = RemoveRequest(
    pool: Address, bptInRaw: string, minAmountsOut: Option<seq<TokenAmount>>, slippageBps: nat)

  /** `parse_positive_u256`: trims, then wants a positive word. */
  function ParsePositive(raw: string): Option<U256> {
    match FromDecStr(Trim(raw))
    case Some(v) => if v > 0 then Some(v) else None
    case None => None
  }

  predicate DeadlineOk(deadline: Option<nat>) {
    deadline.Some? ==> 0 < deadline.value < UINT48
  }

  // ---- Swaps --------------------------------------------------------------------------------

  predicate ValidSwap(req: SwapRequest) {
    && req.pool != Some(0) && req.tokenIn != 0 && req.tokenOut != 0 && req.tokenIn != req.tokenOut
    && ParsePositive(req.amountRaw).Some?
    && (req.kind.ExactIn? ==> ParsePositive(req.amountRaw).value < UINT160)
    && (req.limitRaw.Some? ==>
          && ParsePositive(req.limitRaw.value).Some?
          && (req.kind.ExactOut? ==> ParsePositive(req.limitRaw.value).value < UINT160))
    && req.slippageBps <= SCALE
    && DeadlineOk(req.deadline)
  }

  function CompileSwap(req: SwapRequest): Result<seq<Call>, CompileError> {
    if !ValidSwap(req) then Err(Invalid)
    else if req.pool.None? || req.limitRaw.None? || req.deadline.None? then Err(Unresolved)
    else
      var amount, limit := ParsePositive(req.amountRaw).value, ParsePositive(req.limitRaw.value).value;
      var maxInput := if req.kind.ExactIn? then amount else limit;
      var (pool, deadline) := (req.pool.value, req.deadline.value);
      if maxInput >= UINT160 then Err(AmountTooLarge)
      else
        var swap := if req.kind.ExactIn? then SwapExactIn(pool, req.tokenIn, req.tokenOut, amount, limit, deadline)
                    else SwapExactOut(pool, req.tokenIn, req.tokenOut, amount, limit, deadline);
        Ok([Erc20Approve(req.tokenIn, PERMIT2, 0),
            Erc20Approve(req.tokenIn, PERMIT2, maxInput),
            Permit2Approve(req.tokenIn, ROUTER, maxInput, deadline),
            Execute(ROUTER, swap),
            Permit2Approve(req.tokenIn, ROUTER, 0, deadline),
            Erc20Approve(req.tokenIn, PERMIT2, 0)])
  }

  /** What the protocol call of a swap can draw from the wallet at most. */
  function SwapSpend(p: Protocol): nat {
    match p
    case SwapExactIn(_, _, _, amountIn, _, _) => amountIn
    case SwapExactOut(_, _, _, _, maxIn, _) => maxIn
    case _ => 0
  }

  function Via(token: Address, amount: nat, deadline: nat): Intent {
    Intent(map[(token, PERMIT2) := amount], map[(token, ROUTER) := Grant(amount, deadline)])
  }

  lemma ViaPermit2Clean(token: Address, amount: U256, deadline: nat, protocol: Protocol)
    ensures Clean(GrantCalls(token, PERMIT2, ROUTER, amount, deadline) + [Execute(ROUTER, protocol)] +
                  RevokeCalls(token, PERMIT2, ROUTER, deadline), 3, Via(token, amount, deadline))
  {
    var grant := GrantCalls(token, PERMIT2, ROUTER, amount, deadline);
    var revoke := RevokeCalls(token, PERMIT2, ROUTER, deadline);
    var calls := grant + [Execute(ROUTER, protocol)] + revoke;
    assert calls[..3] == grant && calls[4..] == revoke;
    assert [] + grant == grant && [] + revoke == revoke;
    forall s: State
      ensures Opens(s, grant, Via(token, amount, deadline)) && Closes(s, revoke, Via(token, amount, deadline))
    {
      GrantOne(s, [], token, PERMIT2, ROUTER, amount, deadline);
      RevokeOne(s, [], token, PERMIT2, ROUTER, deadline);
    }
  }

  /** A compiled swap is a clean batch: at the router call the token allows Permit2, and Permit2 allows
      the router until the deadline, exactly what the swap can spend; both are closed afterwards. */
  lemma SwapIsClean(req: SwapRequest)
    requires CompileSwap(req).Ok?
    ensures var calls := CompileSwap(req).value;
            && |calls| == 6 && calls[3].Execute? && calls[3].target == ROUTER
            && SwapSpend(calls[3].protocol) < UINT160
            && req.deadline.Some? && req.deadline.value < UINT48
            && Clean(calls, 3, Via(req.tokenIn, SwapSpend(calls[3].protocol), req.deadline.value))
  {
    var calls := CompileSwap(req).value;
    var spend := SwapSpend(calls[3].protocol);
    ViaPermit2Clean(req.tokenIn, spend, req.deadline.value, calls[3].protocol);
    assert calls == GrantCalls(req.tokenIn, PERMIT2, ROUTER, spend, req.deadline.value) + [calls[3]] +
                    RevokeCalls(req.tokenIn, PERMIT2, ROUTER, req.deadline.value);
  }

  /** The text, trimmed, is the digits of a positive word. */
  predicate ReadsPositive(raw: string, v: nat) {
    AllDigits(Trim(raw)) && Number(Trim(raw)) == v && 0 < v < WORD
  }

  ghost predicate Positive(raw: string) {
    exists v :: ReadsPositive(raw, v)
  }

  /** When a swap compiles. */
  lemma SwapCompilesIff(req: SwapRequest)
    ensures CompileSwap(req).Ok? <==>
            && req.pool.Some? && req.pool.value != 0
            && req.tokenIn != 0 && req.tokenOut != 0 && req.tokenIn != req.tokenOut
            && req.slippageBps <= 10_000
            && req.deadline.Some? && 0 < req.deadline.value < 0x1_0000_0000_0000
            && req.limitRaw.Some?
            && exists amount, limit :: ReadsPositive(req.amountRaw, amount) && ReadsPositive(req.limitRaw.value, limit) &&
                 (if req.kind.ExactIn? then amount else limit) < 0x1_0000000000000000_0000000000000000_00000000
  {
    if ParsePositive(req.amountRaw).Some? && req.limitRaw.Some? && ParsePositive(req.limitRaw.value).Some? {
      assert ReadsPositive(req.amountRaw, ParsePositive(req.amountRaw).value);
      assert ReadsPositive(req.limitRaw.value, ParsePositive(req.limitRaw.value).value);
    }
  }

  /** What a compiled swap asks of the router: the request's pool, tokens and deadline, its amount exactly, and
      its limit as the least output or the most input. */
  lemma SwapCallIs(req: SwapRequest, amount: U256, limit: U256)
    requires CompileSwap(req).Ok? && req.limitRaw.Some?
    requires ReadsPositive(req.amountRaw, amount) && ReadsPositive(req.limitRaw.value, limit)
    ensures var calls := CompileSwap(req).value;
            && |calls| == 6 && req.pool.Some? && req.deadline.Some?
            && calls[3] ==
               match req.kind
               case ExactIn =>
                 Execute(ROUTER, SwapExactIn(req.pool.value, req.tokenIn, req.tokenOut, amount, limit, req.deadline.value))
               case ExactOut =>
                 Execute(ROUTER, SwapExactOut(req.pool.value, req.tokenIn, req.tokenOut, amount, limit, req.deadline.value))
  {
  }

  // ---- Removing liquidity -------------------------------------------------------------------

  function CompileRemoveLiquidity(req: RemoveRequest, minAmountsOut: seq<U256>): Result<seq<Call>, CompileError> {
    if req.pool == 0 || req.slippageBps > SCALE || ParsePositive(req.bptInRaw).None? ||
       (req.minAmountsOut.Some? && !ValidAmounts(req.minAmountsOut.value, false)) then Err(Invalid)
    else if minAmountsOut == [] then Err(BadArrays)
    else
      var bptIn := ParsePositive(req.bptInRaw).value;
      Ok([Erc20Approve(req.pool, ROUTER, 0),
          Erc20Approve(req.pool, ROUTER, bptIn),
          Execute(ROUTER, RemoveLiquidity(req.pool, bptIn, minAmountsOut)),
          Erc20Approve(req.pool, ROUTER, 0)])
  }

  /** A compiled removal is a clean batch: the router may draw exactly the pool tokens being burned. */
  lemma RemoveIsClean(req: RemoveRequest, minAmountsOut: seq<U256>)
    requires CompileRemoveLiquidity(req, minAmountsOut).Ok?
    ensures var calls := CompileRemoveLiquidity(req, minAmountsOut).value;
            && |calls| == 4 && calls[2].Execute? && calls[2].protocol.RemoveLiquidity?
            && Clean(calls, 2, Intent(map[(req.pool, ROUTER) := calls[2].protocol.bptIn], map[]))
  {
    var calls := CompileRemoveLiquidity(req, minAmountsOut).value;
    ApprovalBatchClean(req.pool, ROUTER, calls[2].protocol.bptIn, calls[2].protocol);
    assert calls == ApprovalBatch(req.pool, ROUTER, calls[2].protocol.bptIn, calls[2].protocol);
  }

  /** When a removal compiles, and what it asks of the router: the pool tokens the request burns, for at least
      the given amounts. */
  lemma RemovalCompilesIff(req: RemoveRequest, minAmountsOut: seq<U256>)
    ensures CompileRemoveLiquidity(req, minAmountsOut).Ok? <==>
            && req.pool != 0 && req.slippageBps <= 10_000 && minAmountsOut != []
            && Positive(req.bptInRaw)
            && (req.minAmountsOut.Some? ==> WellListed(req.minAmountsOut.value))
    ensures forall bptIn: U256 :: CompileRemoveLiquidity(req, minAmountsOut).Ok? && ReadsPositive(req.bptInRaw, bptIn) ==>
              var calls := CompileRemoveLiquidity(req, minAmountsOut).value;
              |calls| == 4 && calls[2] == Execute(ROUTER, RemoveLiquidity(req.pool, bptIn, minAmountsOut))
  {
    if ParsePositive(req.bptInRaw).Some? {
      assert ReadsPositive(req.bptInRaw, ParsePositive(req.bptInRaw).value);
    }
    if req.minAmountsOut.Some? {
      ValidAmountsIs(req.minAmountsOut.value);
    }
  }

  /** At least one entry; tokens real and all different; amounts positive words. */
  ghost predicate WellListed(amounts: seq<TokenAmount>) {
    && amounts != []
    && (forall i :: 0 <= i < |amounts| ==> amounts[i].token != 0)
    && (forall i :: 0 <= i < |amounts| ==> Positive(amounts[i].amountRaw))
    && (forall i, j :: 0 <= i < |amounts| && 0 <= j < |amounts| && amounts[i].token == amounts[j].token ==> i == j)
  }

  lemma ParsesIffReads(raw: string)
    ensures ParsePositive(raw).Some? <==> Positive(raw)
    ensures ParsePositive(raw).Some? ==> ReadsPositive(raw, ParsePositive(raw).value)
  {
    if ParsePositive(raw).Some? {
      assert ReadsPositive(raw, ParsePositive(raw).value);
    }
  }

  lemma DistinctIs(amounts: seq<TokenAmount>)
    ensures Distinct(amounts) <==>
            forall i, j :: 0 <= i < |amounts| && 0 <= j < |amounts| && amounts[i].token == amounts[j].token ==> i == j
  {
  }

  lemma ValidAmountsIs(amounts: seq<TokenAmount>)
    ensures ValidAmounts(amounts, false) <==> WellListed(amounts)
    ensures ValidAmounts(amounts, true) <==> amounts == [] || WellListed(amounts)
  {
    DistinctIs(amounts);
    AllPositiveIs(amounts);
  }

  lemma AllPositiveIs(amounts: seq<TokenAmount>)
    ensures AllPositive(amounts) <==> forall i :: 0 <= i < |amounts| ==> Positive(amounts[i].amountRaw)
  {
    forall i | 0 <= i < |amounts|
      ensures ParsePositive(amounts[i].amountRaw).Some? <==> Positive(amounts[i].amountRaw)
    {
      ParsesIffReads(amounts[i].amountRaw);
    }
  }

  /** When a deposit request is valid, in its fields. */
  lemma AddIsValidIff(req: AddRequest)
    ensures ValidAdd(req) <==>
            && req.pool != 0 && req.slippageBps <= 10_000
            && WellListed(req.amountsIn) && |req.amountsIn| <= 3
            && (forall i, v :: 0 <= i < |req.amountsIn| && ReadsPositive(req.amountsIn[i].amountRaw, v) ==>
                  v < 0x1_0000000000000000_0000000000000000_00000000)
            && (req.minBptRaw.Some? ==> Positive(req.minBptRaw.value))
            && (req.deadline.Some? ==> 0 < req.deadline.value < 0x1_0000_0000_0000)
  {
    ValidAmountsIs(req.amountsIn);
    if req.minBptRaw.Some? {
      ParsesIffReads(req.minBptRaw.value);
    }
    forall i | 0 <= i < |req.amountsIn|
      ensures ParsePositive(req.amountsIn[i].amountRaw).Some? ==>
                ReadsPositive(req.amountsIn[i].amountRaw, ParsePositive(req.amountsIn[i].amountRaw).value)
    {
      ParsesIffReads(req.amountsIn[i].amountRaw);
    }
  }

  // ---- Deposits: validation -------------------------------------------------------------------

  predicate ValidAmounts(amounts: seq<TokenAmount>, allowEmpty: bool) {
    && (amounts == [] ==> allowEmpty)
    && (forall i :: 0 <= i < |amounts| ==> amounts[i].token != 0)
    && AllPositive(amounts) && Distinct(amounts)
  }

  predicate Distinct(amounts: seq<TokenAmount>) {
    forall i, j :: 0 <= i < j < |amounts| ==> amounts[i].token != amounts[j].token
  }

  method ValidateTokenAmounts(amounts: seq<TokenAmount>, allowEmpty: bool) returns (ok: bool)
    ensures ok == ValidAmounts(amounts, allowEmpty)
  {
    if amounts == [] && !allowEmpty {
      return false;
    }
    var seen := {};
    for n := 0 to |amounts|
      invariant seen == set i | 0 <= i < n :: amounts[i].token
      invariant forall i :: 0 <= i < n ==> amounts[i].token != 0 && ParsePositive(amounts[i].amountRaw).Some?
      invariant forall i, j :: 0 <= i < j < n ==> amounts[i].token != amounts[j].token
    {
      var token := amounts[n].token;
      if token == 0 || token in seen {
        return false;
      }
      if ParsePositive(amounts[n].amountRaw).None? {
        return false;
      }
      seen := seen + {token};
    }
    return true;
  }

  predicate ValidAdd(req: AddRequest) {
    && req.pool != 0 && req.slippageBps <= SCALE
    && ValidAmounts(req.amountsIn, false)
    && |req.amountsIn| <= MAX_ADD_LIQUIDITY_INPUT_TOKENS
    && (forall i :: 0 <= i < |req.amountsIn| ==> ParsePositive(req.amountsIn[i].amountRaw).value < UINT160)
    && (req.minBptRaw.Some? ==> ParsePositive(req.minBptRaw.value).Some?)
    && DeadlineOk(req.deadline)
  }

  // ---- Deposits: ordering ---------------------------------------------------------------------

  function FirstIndex(pool: seq<Address>, token: Address): Option<nat> {
    if pool == [] then None
    else if pool[0] == token then Some(0)
    else match FirstIndex(pool[1..], token)
      case Some(i) => Some(i + 1)
      case None => None
  }

  lemma {:induction false} FirstIndexIs(pool: seq<Address>, token: Address)
    ensures FirstIndex(pool, token).None? <==> token !in pool
    ensures FirstIndex(pool, token).Some? ==>
              var i := FirstIndex(pool, token).value;
              i < |pool| && pool[i] == token && token !in pool[..i]
  {
    if pool != [] && pool[0] != token {
      FirstIndexIs(pool[1..], token);
      if FirstIndex(pool[1..], token).Some? {
        var i := FirstIndex(pool[1..], token).value;
        assert pool[..i + 1] == [pool[0]] + pool[1..][..i];
      }
    }
  }

  /** One entry written into its slot.  The amount is parsed without trimming. */
  function Place(pool: seq<Address>, ordered: seq<U256>, entry: TokenAmount): (r: Result<seq<U256>, CompileError>)
    requires |ordered| == |pool|
    ensures r.Ok? ==> |r.value| == |pool|
  {
    FirstIndexIs(pool, entry.token);
    match FirstIndex(pool, entry.token)
    case None => Err(Unregistered)
    case Some(i) =>
      match FromDecStr(entry.amountRaw)
      case None => Err(NotRaw)
      case Some(v) => Ok(ordered[i := v])
  }

  function PlaceAll(pool: seq<Address>, requested: seq<TokenAmount>): (r: Result<seq<U256>, CompileError>)
    ensures r.Ok? ==> |r.value| == |pool|
  {
    if requested == [] then Ok(seq(|pool|, i => 0))
    else
      match PlaceAll(pool, requested[..|requested| - 1])
      case Err(e) => Err(e)
      case Ok(ordered) => Place(pool, ordered, requested[|requested| - 1])
  }

  method OrderTokenAmounts(pool: seq<Address>, requested: seq<TokenAmount>) returns (r: Result<seq<U256>, CompileError>)
    ensures r == PlaceAll(pool, requested)
  {
    var ordered: seq<U256> := seq(|pool|, i => 0);
    for n := 0 to |requested|
      invariant |ordered| == |pool|
      invariant PlaceAll(pool, requested[..n]) == Ok(ordered)
    {
      assert requested[..n + 1][..n] == requested[..n];
      FirstIndexIs(pool, requested[n].token);
      match FirstIndex(pool, requested[n].token) {
        case None =>
          StopsAt(pool, requested, n + 1);
          return Err(Unregistered);
        case Some(i) =>
          var amount := FromDecStr(requested[n].amountRaw);
          if amount.None? {
            StopsAt(pool, requested, n + 1);
            return Err(NotRaw);
          }
          ordered := ordered[i := amount.value];
      }
    }
    assert requested[..|requested|] == requested;
    return Ok(ordered);
  }

  /** The first error is the result. */
  lemma {:induction false} StopsAt(pool: seq<Address>, requested: seq<TokenAmount>, n: nat)
    requires n <= |requested| && PlaceAll(pool, requested[..n]).Err?
    ensures PlaceAll(pool, requested) == PlaceAll(pool, requested[..n])
    decreases |requested|
  {
    if n < |requested| {
      assert requested[..|requested| - 1][..n] == requested[..n];
      StopsAt(pool, requested[..|requested| - 1], n);
    } else {
      assert requested[..n] == requested;
    }
  }

  function Sum(amounts: seq<U256>): nat {
    if amounts == [] then 0 else Sum(amounts[..|amounts| - 1]) + amounts[|amounts| - 1]
  }

  function NonZero(amounts: seq<U256>): nat {
    if amounts == [] then 0 else NonZero(amounts[..|amounts| - 1]) + if amounts[|amounts| - 1] != 0 then 1 else 0
  }

  lemma {:induction false} FillZero(amounts: seq<U256>, i: nat, v: U256)
    requires i < |amounts| && amounts[i] == 0
    ensures Sum(amounts[i := v]) == Sum(amounts) + v
    ensures NonZero(amounts[i := v]) == NonZero(amounts) + if v != 0 then 1 else 0
  {
    var n := |amounts| - 1;
    if i < n {
      FillZero(amounts[..n], i, v);
      assert amounts[i := v][..n] == amounts[..n][i := v];
    } else {
      assert amounts[i := v][..n] == amounts[..n];
    }
  }

  lemma {:induction false} AllZeroAmounts(n: nat)
    ensures Sum(seq(n, i => 0)) == 0 && NonZero(seq(n, i => 0)) == 0
  {
    if n > 0 {
      AllZeroAmounts(n - 1);
      assert seq<U256>(n, i => 0)[..n - 1] == seq<U256>(n - 1, i => 0);
    }
  }

  predicate AllRaw(requested: seq<TokenAmount>) {
    forall i :: 0 <= i < |requested| ==> FromDecStr(requested[i].amountRaw).Some?
  }

  function RequestedSum(requested: seq<TokenAmount>): nat
    requires AllRaw(requested)
  {
    if requested == [] then 0
    else RequestedSum(requested[..|requested| - 1]) + FromDecStr(requested[|requested| - 1].amountRaw).value
  }

  /** The entry's amount is in the first slot of its token. */
  predicate InSlot(pool: seq<Address>, entry: TokenAmount, ordered: seq<U256>) {
    var i := FirstIndex(pool, entry.token);
    i.Some? && i.value < |ordered| && FromDecStr(entry.amountRaw) == Some(ordered[i.value])
  }

  predicate HasEntry(pool: seq<Address>, requested: seq<TokenAmount>, i: nat) {
    exists j :: 0 <= j < |requested| && FirstIndex(pool, requested[j].token) == Some(i)
  }

  /** Every entry is in its slot, and every other slot is zero. */
  predicate Ordered(pool: seq<Address>, requested: seq<TokenAmount>, ordered: seq<U256>) {
    && |ordered| == |pool|
    && (forall j :: 0 <= j < |requested| ==> InSlot(pool, requested[j], ordered))
    && (forall i :: 0 <= i < |pool| && ordered[i] != 0 ==> HasEntry(pool, requested, i))
  }

  /** Placing one more entry, of a token not yet placed. */
  lemma PlaceOne(pool: seq<Address>, front: seq<TokenAmount>, last: TokenAmount, before: seq<U256>, i: nat, v: U256)
    requires Ordered(pool, front, before) && i < |pool|
    requires FirstIndex(pool, last.token) == Some(i) && FromDecStr(last.amountRaw) == Some(v)
    requires forall j :: 0 <= j < |front| ==> front[j].token != last.token
    ensures before[i] == 0
    ensures Ordered(pool, front + [last], before[i := v])
  {
    var all, after := front + [last], before[i := v];
    FirstIndexIs(pool, last.token);
    forall j | 0 <= j < |front| ensures FirstIndex(pool, front[j].token) != Some(i) {
      FirstIndexIs(pool, front[j].token);
    }
    assert !HasEntry(pool, front, i);
    forall j | 0 <= j < |all| ensures InSlot(pool, all[j], after) {
      if j < |front| {
        assert InSlot(pool, front[j], before);
      }
    }
    forall k | 0 <= k < |pool| && after[k] != 0 ensures HasEntry(pool, all, k) {
      if k == i {
        assert all[|front|] == last;
      } else {
        var j :| 0 <= j < |front| && FirstIndex(pool, front[j].token) == Some(k);
        assert all[j] == front[j];
      }
    }
  }

  predicate AllRegistered(pool: seq<Address>, requested: seq<TokenAmount>) {
    forall i :: 0 <= i < |requested| ==> requested[i].token in pool
  }

  /** Ordering succeeds exactly when every token is registered and every amount is a plain digit string. */
  lemma {:induction false} OrderingDefinedIff(pool: seq<Address>, requested: seq<TokenAmount>)
    ensures PlaceAll(pool, requested).Ok? <==> AllRaw(requested) && AllRegistered(pool, requested)
    decreases |requested|
  {
    if requested != [] {
      var n := |requested| - 1;
      var front, last := requested[..n], requested[n];
      OrderingDefinedIff(pool, front);
      FirstIndexIs(pool, last.token);
      assert requested == front + [last];
      assert AllRaw(requested) <==> AllRaw(front) && FromDecStr(last.amountRaw).Some?;
      assert AllRegistered(pool, requested) <==> AllRegistered(pool, front) && last.token in pool;
    }
  }

  predicate AllPositive(requested: seq<TokenAmount>) {
    forall i :: 0 <= i < |requested| ==> ParsePositive(requested[i].amountRaw).Some?
  }

  lemma ValidFront(requested: seq<TokenAmount>)
    requires requested != [] && Distinct(requested) && AllPositive(requested)
    ensures var front, last := requested[..|requested| - 1], requested[|requested| - 1];
            && Distinct(front) && AllPositive(front) && ParsePositive(last.amountRaw).Some?
            && forall j :: 0 <= j < |front| ==> front[j].token != last.token
  {
  }

  lemma PlaceLast(pool: seq<Address>, requested: seq<TokenAmount>)
    requires requested != [] && PlaceAll(pool, requested).Ok?
    ensures var n := |requested| - 1;
            var before, token, raw := PlaceAll(pool, requested[..n]), requested[n].token, requested[n].amountRaw;
            && before.Ok? && FirstIndex(pool, token).Some? && FromDecStr(raw).Some?
            && FirstIndex(pool, token).value < |pool|
            && PlaceAll(pool, requested).value == before.value[FirstIndex(pool, token).value := FromDecStr(raw).value]
  {
    FirstIndexIs(pool, requested[|requested| - 1].token);
  }

  /** For any request, repeated tokens included: a slot holds the amount of the last entry whose token it is the
      first slot of... */
  lemma {:induction false} SlotIsLast(pool: seq<Address>, requested: seq<TokenAmount>, j: nat, i: nat)
    requires PlaceAll(pool, requested).Ok? && j < |requested| && i < |pool|
    requires FirstIndex(pool, requested[j].token) == Some(i)
    requires forall k :: j < k < |requested| ==> FirstIndex(pool, requested[k].token) != Some(i)
    ensures FromDecStr(requested[j].amountRaw) == Some(PlaceAll(pool, requested).value[i])
    decreases |requested|
  {
    PlaceLast(pool, requested);
    if j < |requested| - 1 {
      SlotIsLast(pool, requested[..|requested| - 1], j, i);
    }
  }

  /** ...and zero if there is none. */
  lemma {:induction false} SlotIsEmpty(pool: seq<Address>, requested: seq<TokenAmount>, i: nat)
    requires PlaceAll(pool, requested).Ok? && i < |pool|
    requires forall k :: 0 <= k < |requested| ==> FirstIndex(pool, requested[k].token) != Some(i)
    ensures PlaceAll(pool, requested).value[i] == 0
    decreases |requested|
  {
    if requested != [] {
      PlaceLast(pool, requested);
      SlotIsEmpty(pool, requested[..|requested| - 1], i);
    }
  }

  /** Every amount is in its token's first slot, the sum is the requested sum, and there are exactly as
      many non-zero slots as entries. */
  predicate Conserved(pool: seq<Address>, requested: seq<TokenAmount>, ordered: seq<U256>)
    requires AllRaw(requested)
  {
    && Ordered(pool, requested, ordered)
    && Sum(ordered) == RequestedSum(requested)
    && NonZero(ordered) == |requested|
  }

  lemma ConserveLast(pool: seq<Address>, requested: seq<TokenAmount>)
    requires requested != [] && Distinct(requested) && AllPositive(requested)
    requires PlaceAll(pool, requested).Ok?
    requires var front := requested[..|requested| - 1];
             AllRaw(front) && PlaceAll(pool, front).Ok? && Conserved(pool, front, PlaceAll(pool, front).value)
    ensures AllRaw(requested) && Conserved(pool, requested, PlaceAll(pool, requested).value)
  {
    var n := |requested| - 1;
    var front, last := requested[..n], requested[n];
    ValidFront(requested);
    PlaceLast(pool, requested);
    RawIsPositive(last.amountRaw);
    var before := PlaceAll(pool, front).value;
    var i, v := FirstIndex(pool, last.token).value, FromDecStr(last.amountRaw).value;
    PlaceOne(pool, front, last, before, i, v);
    FillZero(before, i, v);
    assert requested == front + [last];
  }

  /** Ordering a validated request conserves it: every amount is in its token's first slot, the sum is
      the requested sum, and there are exactly as many non-zero slots as entries. */
  lemma {:induction false} OrderingConserves(pool: seq<Address>, requested: seq<TokenAmount>)
    requires Distinct(requested) && AllPositive(requested) && PlaceAll(pool, requested).Ok?
    ensures AllRaw(requested) && Conserved(pool, requested, PlaceAll(pool, requested).value)
    decreases |requested|
  {
    if requested == [] {
      AllZeroAmounts(|pool|);
    } else {
      ValidFront(requested);
      PlaceLast(pool, requested);
      OrderingConserves(pool, requested[..|requested| - 1]);
      ConserveLast(pool, requested);
    }
  }

  /** An amount that parses untrimmed parses to the same word trimmed. */
  lemma RawIsPositive(raw: string)
    requires FromDecStr(raw).Some? && ParsePositive(raw).Some?
    ensures ParsePositive(raw) == FromDecStr(raw) && FromDecStr(raw).value > 0
  {
    if raw != "" {
      DigitsKeepTrim(raw);
    }
  }

  /** Validation trims amounts and ordering does not: a request that validates can still be refused. */
  lemma PaddedAmountRefused(pool: seq<Address>, token: Address)
    requires token != 0 && token in pool
    ensures ValidAmounts([TokenAmount(token, " 5")], false)
    ensures PlaceAll(pool, [TokenAmount(token, " 5")]) == Err(NotRaw)
  {
    var entry := TokenAmount(token, " 5");
    assert TrimStart(" 5") == "5" by {
      assert " 5"[1..] == "5";
    }
    assert Number("5") == 5 by {
      assert "5"[..0] == "";
    }
    assert !AllDigits(" 5") by {
      assert !IsDigit(" 5"[0]);
    }
    FirstIndexIs(pool, token);
    assert [entry][..0] == [];
  }

  // ---- Deposits: compilation ------------------------------------------------------------------

  function Grants(tokens: seq<Address>, amounts: seq<U256>, deadline: nat, n: nat): seq<Call>
    requires |tokens| == |amounts| && n <= |tokens|
  {
    if n == 0 then []
    else Grants(tokens, amounts, deadline, n - 1) +
         if amounts[n - 1] == 0 then [] else GrantCalls(tokens[n - 1], PERMIT2, ROUTER, amounts[n - 1], deadline)
  }

  function Revokes(tokens: seq<Address>, amounts: seq<U256>, deadline: nat, n: nat): seq<Call>
    requires |tokens| == |amounts| && n <= |tokens|
  {
    if n == 0 then []
    else Revokes(tokens, amounts, deadline, n - 1) +
         if amounts[n - 1] == 0 then [] else RevokeCalls(tokens[n - 1], PERMIT2, ROUTER, deadline)
  }

  /** The last non-zero amount of each deposited token. */
  function DepositIntent(tokens: seq<Address>, amounts: seq<U256>, deadline: nat, n: nat): Intent
    requires |tokens| == |amounts| && n <= |tokens|
  {
    if n == 0 then Intent(map[], map[])
    else
      var before := DepositIntent(tokens, amounts, deadline, n - 1);
      if amounts[n - 1] == 0 then before
      else WithGrant(before, tokens[n - 1], amounts[n - 1], deadline)
  }

  method CompileAddLiquidity(req: AddRequest, tokens: seq<Address>, amountsIn: seq<U256>, minBpt: U256, deadline: nat)
    returns (r: Result<seq<Call>, CompileError>)
    ensures r.Ok? <==> Compiles(req, tokens, amountsIn, deadline)
    ensures r.Ok? ==>
              r.value == DepositBatch(tokens, amountsIn, deadline, AddLiquidity(req.pool, amountsIn, minBpt))
  {
    if !ValidAdd(req) {
      return Err(Invalid);
    }
    if tokens == [] || |tokens| != |amountsIn| {
      return Err(BadArrays);
    }
    if deadline == 0 || deadline >= UINT48 {
      return Err(Invalid);
    }
    var calls: seq<Call> := [];
    for i := 0 to |tokens|
      invariant calls == Grants(tokens, amountsIn, deadline, i)
      invariant forall k :: 0 <= k < i ==> amountsIn[k] < UINT160
    {
      var token, amount := tokens[i], amountsIn[i];
      if amount == 0 {
        continue;
      }
      if amount >= UINT160 {
        return Err(AmountTooLarge);
      }
      calls := calls + [Erc20Approve(token, PERMIT2, 0)];
      calls := calls + [Erc20Approve(token, PERMIT2, amount)];
      calls := calls + [Permit2Approve(token, ROUTER, amount, deadline)];
    }
    ghost var granted := calls;
    calls := calls + [Execute(ROUTER, AddLiquidity(req.pool, amountsIn, minBpt))];
    ghost var executed := calls;
    for i := 0 to |tokens|
      invariant calls == executed + Revokes(tokens, amountsIn, deadline, i)
    {
      if amountsIn[i] == 0 {
        continue;
      }
      calls := calls + [Permit2Approve(tokens[i], ROUTER, 0, deadline)];
      calls := calls + [Erc20Approve(tokens[i], PERMIT2, 0)];
    }
    return Ok(calls);
  }

  function WithGrant(intent: Intent, token: Address, amount: U256, deadline: nat): Intent {
    Intent(intent.erc20[(token, PERMIT2) := amount], intent.permit2[(token, ROUTER) := Grant(amount, deadline)])
  }

  lemma OpensOneMore(s: State, before: seq<Call>, intent: Intent, token: Address, amount: U256, deadline: nat)
    requires Opens(s, before, intent)
    ensures Opens(s, before + GrantCalls(token, PERMIT2, ROUTER, amount, deadline), WithGrant(intent, token, amount, deadline))
  {
    GrantOne(s, before, token, PERMIT2, ROUTER, amount, deadline);
  }

  lemma ClosesOneMore(s: State, before: seq<Call>, intent: Intent, token: Address, amount: U256, deadline: nat)
    requires Closes(s, before, intent)
    ensures Closes(s, before + RevokeCalls(token, PERMIT2, ROUTER, deadline), WithGrant(intent, token, amount, deadline))
  {
    RevokeOne(s, before, token, PERMIT2, ROUTER, deadline);
  }

  lemma {:induction false} GrantsOpen(s: State, tokens: seq<Address>, amounts: seq<U256>, deadline: nat, n: nat)
    requires |tokens| == |amounts| && n <= |tokens|
    ensures Opens(s, Grants(tokens, amounts, deadline, n), DepositIntent(tokens, amounts, deadline, n))
  {
    if n > 0 {
      GrantsOpen(s, tokens, amounts, deadline, n - 1);
      var before := Grants(tokens, amounts, deadline, n - 1);
      assert before + [] == before;
      if amounts[n - 1] != 0 {
        OpensOneMore(s, before, DepositIntent(tokens, amounts, deadline, n - 1), tokens[n - 1], amounts[n - 1], deadline);
      }
    }
  }

  lemma {:induction false} RevokesClose(s: State, tokens: seq<Address>, amounts: seq<U256>, deadline: nat, n: nat)
    requires |tokens| == |amounts| && n <= |tokens|
    ensures Closes(s, Revokes(tokens, amounts, deadline, n), DepositIntent(tokens, amounts, deadline, n))
  {
    if n > 0 {
      RevokesClose(s, tokens, amounts, deadline, n - 1);
      var before := Revokes(tokens, amounts, deadline, n - 1);
      assert before + [] == before;
      if amounts[n - 1] != 0 {
        ClosesOneMore(s, before, DepositIntent(tokens, amounts, deadline, n - 1), tokens[n - 1], amounts[n - 1], deadline);
      }
    }
  }

  lemma {:induction false} CallCounts(tokens: seq<Address>, amounts: seq<U256>, deadline: nat, n: nat)
    requires |tokens| == |amounts| && n <= |tokens|
    ensures |Grants(tokens, amounts, deadline, n)| == 3 * NonZero(amounts[..n])
    ensures |Revokes(tokens, amounts, deadline, n)| == 2 * NonZero(amounts[..n])
  {
    if n > 0 {
      CallCounts(tokens, amounts, deadline, n - 1);
      assert amounts[..n][..n - 1] == amounts[..n - 1];
    }
  }

  function DepositBatch(tokens: seq<Address>, amounts: seq<U256>, deadline: nat, protocol: Protocol): seq<Call>
    requires |tokens| == |amounts|
  {
    Grants(tokens, amounts, deadline, |tokens|) + [Execute(ROUTER, protocol)] + Revokes(tokens, amounts, deadline, |tokens|)
  }

  /** A compiled deposit of k non-zero amounts is a clean batch of exactly 5 k + 1 calls, repeated
      tokens included; the engine's cap accepts it if and only if k is at most 3. */
  lemma DepositIsClean(tokens: seq<Address>, amounts: seq<U256>, deadline: nat, protocol: Protocol)
    requires |tokens| == |amounts|
    ensures var calls := DepositBatch(tokens, amounts, deadline, protocol);
            && |calls| == 5 * NonZero(amounts) + 1
            && (Engine.BatchSizeOk(|calls|) <==> NonZero(amounts) <= 3)
            && Clean(calls, 3 * NonZero(amounts), DepositIntent(tokens, amounts, deadline, |tokens|))
  {
    var n := |tokens|;
    var calls := DepositBatch(tokens, amounts, deadline, protocol);
    var grants, revokes := Grants(tokens, amounts, deadline, n), Revokes(tokens, amounts, deadline, n);
    CallCounts(tokens, amounts, deadline, n);
    assert amounts[..n] == amounts;
    assert calls[..|grants|] == grants && calls[|grants| + 1..] == revokes;
    forall s: State
      ensures Opens(s, grants, DepositIntent(tokens, amounts, deadline, n)) &&
              Closes(s, revokes, DepositIntent(tokens, amounts, deadline, n))
    {
      GrantsOpen(s, tokens, amounts, deadline, n);
      RevokesClose(s, tokens, amounts, deadline, n);
    }
  }

  /** The intent of an ordered deposit is the request: every deposited token opens its own amount. */
  lemma {:induction false} IntentOfSlot(tokens: seq<Address>, amounts: seq<U256>, deadline: nat, n: nat, i: nat)
    requires |tokens| == |amounts| && i < n <= |tokens| && amounts[i] != 0
    requires forall k :: 0 <= k < |tokens| && k != i && amounts[k] != 0 ==> tokens[k] != tokens[i]
    ensures var intent := DepositIntent(tokens, amounts, deadline, n);
            && (tokens[i], PERMIT2) in intent.erc20 && intent.erc20[(tokens[i], PERMIT2)] == amounts[i]
            && (tokens[i], ROUTER) in intent.permit2 && intent.permit2[(tokens[i], ROUTER)] == Grant(amounts[i], deadline)
  {
    if i < n - 1 {
      IntentOfSlot(tokens, amounts, deadline, n - 1, i);
    }
  }

  /** An intent opens what its deposited tokens need and nothing else. */
  lemma {:induction false} IntentKeys(tokens: seq<Address>, amounts: seq<U256>, deadline: nat, n: nat)
    requires |tokens| == |amounts| && n <= |tokens|
    ensures var intent := DepositIntent(tokens, amounts, deadline, n);
            && (forall k :: k in intent.erc20 ==> k.1 == PERMIT2 && Deposited(tokens, amounts, n, k.0))
            && (forall k :: k in intent.permit2 ==> k.1 == ROUTER && Deposited(tokens, amounts, n, k.0))
  {
    if n > 0 {
      IntentKeys(tokens, amounts, deadline, n - 1);
      forall token: Address | Deposited(tokens, amounts, n - 1, token) ensures Deposited(tokens, amounts, n, token) {
        var i :| 0 <= i < n - 1 && tokens[i] == token && amounts[i] != 0;
      }
      assert amounts[n - 1] != 0 ==> Deposited(tokens, amounts, n, tokens[n - 1]);
    }
  }

  predicate Deposited(tokens: seq<Address>, amounts: seq<U256>, n: nat, token: Address)
    requires |tokens| == |amounts| && n <= |tokens|
  {
    exists i :: 0 <= i < n && tokens[i] == token && amounts[i] != 0
  }

  predicate Requested(req: AddRequest, token: Address) {
    exists j :: 0 <= j < |req.amountsIn| && req.amountsIn[j].token == token
  }

  /** The intent of a request: every entry's own amount, at the token and at Permit2, and nothing else. */
  ghost predicate IntentOf(req: AddRequest, deadline: nat, intent: Intent) {
    && (forall k :: k in intent.erc20 ==> k.1 == PERMIT2 && Requested(req, k.0))
    && (forall k :: k in intent.permit2 ==> k.1 == ROUTER && Requested(req, k.0))
    && forall j :: 0 <= j < |req.amountsIn| ==> Granted(req.amountsIn[j], deadline, intent)
  }

  predicate Granted(entry: TokenAmount, deadline: nat, intent: Intent) {
    && (entry.token, PERMIT2) in intent.erc20 && (entry.token, ROUTER) in intent.permit2
    && var amount := intent.erc20[(entry.token, PERMIT2)];
       && Some(amount) == ParsePositive(entry.amountRaw)
       && intent.permit2[(entry.token, ROUTER)] == Grant(amount, deadline)
  }

  lemma EntryGranted(req: AddRequest, pool: seq<Address>, deadline: nat, j: nat)
    requires ValidAdd(req) && PlaceAll(pool, req.amountsIn).Ok? && j < |req.amountsIn|
    requires Ordered(pool, req.amountsIn, PlaceAll(pool, req.amountsIn).value)
    ensures Granted(req.amountsIn[j], deadline, DepositIntent(pool, PlaceAll(pool, req.amountsIn).value, deadline, |pool|))
  {
    var amounts := PlaceAll(pool, req.amountsIn).value;
    FirstIndexIs(pool, req.amountsIn[j].token);
    assert InSlot(pool, req.amountsIn[j], amounts);
    var i := FirstIndex(pool, req.amountsIn[j].token).value;
    RawIsPositive(req.amountsIn[j].amountRaw);
    forall k | 0 <= k < |pool| && k != i && amounts[k] != 0 ensures pool[k] != pool[i] {
      SlotHasEntry(pool, req.amountsIn, amounts, k);
    }
    IntentOfSlot(pool, amounts, deadline, |pool|, i);
  }

  lemma RequestIntent(req: AddRequest, pool: seq<Address>, deadline: nat)
    requires ValidAdd(req) && PlaceAll(pool, req.amountsIn).Ok?
    requires Ordered(pool, req.amountsIn, PlaceAll(pool, req.amountsIn).value)
    ensures IntentOf(req, deadline, DepositIntent(pool, PlaceAll(pool, req.amountsIn).value, deadline, |pool|))
  {
    var amounts := PlaceAll(pool, req.amountsIn).value;
    IntentKeys(pool, amounts, deadline, |pool|);
    forall token: Address | Deposited(pool, amounts, |pool|, token) ensures Requested(req, token) {
      var i :| 0 <= i < |pool| && pool[i] == token && amounts[i] != 0;
      SlotHasEntry(pool, req.amountsIn, amounts, i);
    }
    forall j | 0 <= j < |req.amountsIn|
      ensures Granted(req.amountsIn[j], deadline, DepositIntent(pool, amounts, deadline, |pool|))
    {
      EntryGranted(req, pool, deadline, j);
    }
  }

  /** When `CompileAddLiquidity` succeeds. */
  predicate Compiles(req: AddRequest, tokens: seq<Address>, amountsIn: seq<U256>, deadline: nat) {
    && ValidAdd(req) && tokens != [] && |tokens| == |amountsIn| && DeadlineOk(Some(deadline))
    && forall i :: 0 <= i < |amountsIn| ==> amountsIn[i] < UINT160
  }

  /** The whole deposit path: a validated request whose amounts could be ordered compiles; the batch has
      five calls per deposited token and one more, so the engine never refuses it; it is clean; and it
      opens exactly the entries' amounts for the router call, each at its token and at Permit2. */
  lemma DepositPath(req: AddRequest, pool: seq<Address>, minBpt: U256, deadline: nat)
    requires ValidAdd(req) && PlaceAll(pool, req.amountsIn).Ok? && DeadlineOk(Some(deadline))
    ensures var amounts := PlaceAll(pool, req.amountsIn).value;
            && Compiles(req, pool, amounts, deadline)
            && var calls := DepositBatch(pool, amounts, deadline, AddLiquidity(req.pool, amounts, minBpt));
               var intent := DepositIntent(pool, amounts, deadline, |pool|);
               && |calls| == 5 * |req.amountsIn| + 1 <= 16
               && Engine.BatchSizeOk(|calls|)
               && Clean(calls, 3 * |req.amountsIn|, intent)
               && IntentOf(req, deadline, intent)
  {
    var amounts := PlaceAll(pool, req.amountsIn).value;
    OrderingConserves(pool, req.amountsIn);
    DepositIsClean(pool, amounts, deadline, AddLiquidity(req.pool, amounts, minBpt));
    RequestIntent(req, pool, deadline);
    assert pool != [] by {
      FirstIndexIs(pool, req.amountsIn[0].token);
    }
    forall i | 0 <= i < |amounts|
      ensures amounts[i] < UINT160
    {
      if amounts[i] != 0 {
        SlotHasEntry(pool, req.amountsIn, amounts, i);
      }
    }
  }

  /** A non-zero slot is the first slot of its token. */
  lemma SlotHasEntry(pool: seq<Address>, requested: seq<TokenAmount>, ordered: seq<U256>, k: nat)
    requires Ordered(pool, requested, ordered) && k < |pool| && ordered[k] != 0
    ensures FirstIndex(pool, pool[k]) == Some(k)
    ensures AllPositive(requested) ==>
              exists j :: 0 <= j < |requested| && requested[j].token == pool[k] && ParsePositive(requested[j].amountRaw) == Some(ordered[k])
  {
    assert HasEntry(pool, requested, k);
    var j :| 0 <= j < |requested| && FirstIndex(pool, requested[j].token) == Some(k);
    FirstIndexIs(pool, requested[j].token);
    assert InSlot(pool, requested[j], ordered);
    if AllPositive(requested) {
      RawIsPositive(requested[j].amountRaw);
    }
  }
}
