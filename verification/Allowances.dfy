/**
What a compiled batch does to the wallet's token allowances.

Calls are identified by what they are rather than by selector bytes.  An ERC-20 `approve` sets one
allowance; a Permit2 `approve` sets one amount and its expiration; the protocol call may use up
allowances of the tokens it pulls, by any amount.
*/
module Allowances {
  import opened Wrappers
  import opened Arithmetic

  type Address = nat

  datatype Protocol =
    | SwapExactIn(pool: Address, tokenIn: Address, tokenOut: Address, amountIn: U256, minOut: U256, deadline: nat)
    | SwapExactOut(pool: Address, tokenIn: Address, tokenOut: Address, amountOut: U256, maxIn: U256, deadline: nat)
    | AddLiquidity(pool: Address, amountsIn: seq<U256>, minBpt: U256)
    | RemoveLiquidity(pool: Address, bptIn: U256, minAmountsOut: seq<U256>)
    | Supply(assets: U256)
    | SupplyCollateral(assets: U256)
    | Withdraw(assets: U256, shares: U256)
    | WithdrawCollateral(assets: U256)
    | Borrow(assets: U256)
    | Repay(assets: U256, shares: U256)

  datatype Call =
    | Erc20Approve(token: Address, spender: Address, amount: U256)
    | Permit2Approve(token: Address, spender: Address, amount: U256, expiration: nat)
    | Execute(target: Address, protocol: Protocol)

  datatype Grant = Grant(amount: nat, expiration: nat)

  /** Allowances of one wallet, by token and spender; a missing entry is zero. */
  datatype State = State(erc20: map<(Address, Address), nat>, permit2: map<(Address, Address), Grant>)

  function Erc20(s: State, token: Address, spender: Address): nat {
    if (token, spender) in s.erc20 then s.erc20[(token, spender)] else 0
  }

  function Permit2(s: State, token: Address, spender: Address): Grant {
    if (token, spender) in s.permit2 then s.permit2[(token, spender)] else Grant(0, 0)
  }

  predicate IsApproval(c: Call) {
    !c.Execute?
  }

  function Approve(s: State, c: Call): State
    requires IsApproval(c)
  {
    match c
    case Erc20Approve(token, spender, amount) => s.(erc20 := s.erc20[(token, spender) := amount])
    case Permit2Approve(token, spender, amount, expiration) =>
      s.(permit2 := s.permit2[(token, spender) := Grant(amount, expiration)])
  }

  predicate AllApprovals(calls: seq<Call>) {
    forall i :: 0 <= i < |calls| ==> IsApproval(calls[i])
  }

  function ApproveAll(s: State, calls: seq<Call>): State
    requires AllApprovals(calls)
  {
    if calls == [] then s else Approve(ApproveAll(s, calls[..|calls| - 1]), calls[|calls| - 1])
  }

  /** No ERC-20 approval of the list changes a non-zero allowance to another non-zero value, a change
      that some tokens refuse. */
  predicate NeverRaisesNonZero(s: State, calls: seq<Call>)
    requires AllApprovals(calls)
  {
    calls == [] ||
    var front, last := calls[..|calls| - 1], calls[|calls| - 1];
    && NeverRaisesNonZero(s, front)
    && (last.Erc20Approve? ==> last.amount == 0 || Erc20(ApproveAll(s, front), last.token, last.spender) == 0)
  }

  /** The protocol call: the listed (token, spender) allowances may go down, everything else stays. */
  ghost predicate Spends(s: State, n: State, erc20: set<(Address, Address)>, permit2: set<(Address, Address)>) {
    && (forall t: Address, a: Address :: Erc20(n, t, a) <= Erc20(s, t, a) && ((t, a) !in erc20 ==> Erc20(n, t, a) == Erc20(s, t, a)))
    && (forall t: Address, a: Address :: Permit2(n, t, a).amount <= Permit2(s, t, a).amount &&
                       ((t, a) !in permit2 ==> Permit2(n, t, a) == Permit2(s, t, a)))
  }

  /** Allowances other than the listed ones are the same. */
  ghost predicate OthersSame(s: State, n: State, erc20: set<(Address, Address)>, permit2: set<(Address, Address)>) {
    && (forall t: Address, a: Address :: (t, a) !in erc20 ==> Erc20(n, t, a) == Erc20(s, t, a))
    && (forall t: Address, a: Address :: (t, a) !in permit2 ==> Permit2(n, t, a) == Permit2(s, t, a))
  }

  lemma ApproveOneMore(s: State, calls: seq<Call>, c: Call)
    requires AllApprovals(calls) && IsApproval(c)
    ensures AllApprovals(calls + [c])
    ensures ApproveAll(s, calls + [c]) == Approve(ApproveAll(s, calls), c)
    ensures NeverRaisesNonZero(s, calls + [c]) <==>
            NeverRaisesNonZero(s, calls) &&
            (c.Erc20Approve? ==> c.amount == 0 || Erc20(ApproveAll(s, calls), c.token, c.spender) == 0)
  {
    assert (calls + [c])[..|calls + [c]| - 1] == calls;
  }

  /** The allowances a batch is meant to open for its protocol call. */
  datatype Intent = Intent(erc20: map<(Address, Address), nat>, permit2: map<(Address, Address), Grant>)

  /** The calls open exactly the intended allowances, and touch no other. */
  ghost predicate Opens(s: State, calls: seq<Call>, intent: Intent) {
    && AllApprovals(calls) && NeverRaisesNonZero(s, calls)
    && var n := ApproveAll(s, calls);
       && (forall k :: k in intent.erc20 ==> Erc20(n, k.0, k.1) == intent.erc20[k])
       && (forall k :: k in intent.permit2 ==> Permit2(n, k.0, k.1) == intent.permit2[k])
       && OthersSame(s, n, intent.erc20.Keys, intent.permit2.Keys)
  }

  /** The calls close exactly the intended allowances, and touch no other. */
  ghost predicate Closes(s: State, calls: seq<Call>, intent: Intent) {
    && AllApprovals(calls) && NeverRaisesNonZero(s, calls)
    && var n := ApproveAll(s, calls);
       && (forall k :: k in intent.erc20 ==> Erc20(n, k.0, k.1) == 0)
       && (forall k :: k in intent.permit2 ==> Permit2(n, k.0, k.1).amount == 0)
       && OthersSame(s, n, intent.erc20.Keys, intent.permit2.Keys)
  }

  ghost predicate AlwaysOpens(calls: seq<Call>, intent: Intent) {
    forall s :: Opens(s, calls, intent)
  }

  ghost predicate AlwaysCloses(calls: seq<Call>, intent: Intent) {
    forall s :: Closes(s, calls, intent)
  }

  /** A batch with its only protocol call at position i, which from any allowances opens the intent
      before that call and closes it after. */
  ghost predicate Clean(calls: seq<Call>, i: nat, intent: Intent) {
    && i < |calls| && calls[i].Execute?
    && AlwaysOpens(calls[..i], intent) && AlwaysCloses(calls[i + 1..], intent)
  }

  lemma SameThroughout(a: State, b: State, c: State, d: State, erc20: set<(Address, Address)>, permit2: set<(Address, Address)>)
    requires OthersSame(a, b, erc20, permit2) && Spends(b, c, erc20, permit2) && OthersSame(c, d, erc20, permit2)
    ensures OthersSame(a, d, erc20, permit2)
  {
  }

  /** Running a clean batch from any allowances, whatever its protocol call uses up of the intended
      ones: at the protocol call they are exactly as intended, no ERC-20 allowance ever goes from
      non-zero to another non-zero value, and at the end they are zero and every other allowance is
      what it was at the start. */
  lemma RunClean(calls: seq<Call>, i: nat, intent: Intent, s: State, spent: State)
    requires Clean(calls, i, intent)
    requires AllApprovals(calls[..i]) && Spends(ApproveAll(s, calls[..i]), spent, intent.erc20.Keys, intent.permit2.Keys)
    ensures var granted := ApproveAll(s, calls[..i]);
            && NeverRaisesNonZero(s, calls[..i])
            && (forall k :: k in intent.erc20 ==> Erc20(granted, k.0, k.1) == intent.erc20[k])
            && (forall k :: k in intent.permit2 ==> Permit2(granted, k.0, k.1) == intent.permit2[k])
            && OthersSame(s, granted, intent.erc20.Keys, intent.permit2.Keys)
    ensures AllApprovals(calls[i + 1..]) && NeverRaisesNonZero(spent, calls[i + 1..])
    ensures var end := ApproveAll(spent, calls[i + 1..]);
            && (forall k :: k in intent.erc20 ==> Erc20(end, k.0, k.1) == 0)
            && (forall k :: k in intent.permit2 ==> Permit2(end, k.0, k.1).amount == 0)
            && OthersSame(s, end, intent.erc20.Keys, intent.permit2.Keys)
  {
    var granted := ApproveAll(s, calls[..i]);
    assert Opens(s, calls[..i], intent);
    assert Closes(spent, calls[i + 1..], intent);
    var end := ApproveAll(spent, calls[i + 1..]);
    SameThroughout(s, granted, spent, end, intent.erc20.Keys, intent.permit2.Keys);
  }

  /** The approvals around a protocol call that pulls one token directly. */
  function ApprovalBatch(token: Address, spender: Address, allowance: U256, protocol: Protocol): seq<Call> {
    [Erc20Approve(token, spender, 0), Erc20Approve(token, spender, allowance), Execute(spender, protocol),
     Erc20Approve(token, spender, 0)]
  }

  lemma OpensDirect(s: State, token: Address, spender: Address, allowance: U256)
    ensures Opens(s, [Erc20Approve(token, spender, 0), Erc20Approve(token, spender, allowance)],
                  Intent(map[(token, spender) := allowance], map[]))
  {
    var first, second := Erc20Approve(token, spender, 0), Erc20Approve(token, spender, allowance);
    ApproveOneMore(s, [], first);
    ApproveOneMore(s, [first], second);
    assert [] + [first] == [first] && [first] + [second] == [first, second];
  }

  lemma ClosesDirect(s: State, token: Address, spender: Address, allowance: U256)
    ensures Closes(s, [Erc20Approve(token, spender, 0)], Intent(map[(token, spender) := allowance], map[]))
  {
    ApproveOneMore(s, [], Erc20Approve(token, spender, 0));
    assert [] + [Erc20Approve(token, spender, 0)] == [Erc20Approve(token, spender, 0)];
  }

  lemma ApprovalBatchClean(token: Address, spender: Address, allowance: U256, protocol: Protocol)
    ensures Clean(ApprovalBatch(token, spender, allowance, protocol), 2, Intent(map[(token, spender) := allowance], map[]))
  {
    var calls := ApprovalBatch(token, spender, allowance, protocol);
    assert calls[..2] == [Erc20Approve(token, spender, 0), Erc20Approve(token, spender, allowance)];
    assert calls[3..] == [Erc20Approve(token, spender, 0)];
    forall s: State
      ensures Opens(s, calls[..2], Intent(map[(token, spender) := allowance], map[])) &&
              Closes(s, calls[3..], Intent(map[(token, spender) := allowance], map[]))
    {
      OpensDirect(s, token, spender, allowance);
      ClosesDirect(s, token, spender, allowance);
    }
  }

  /** Opening a Permit2 allowance: the token allows Permit2, and Permit2 allows the router. */
  function GrantCalls(token: Address, permit2: Address, router: Address, amount: U256, deadline: nat): seq<Call> {
    [Erc20Approve(token, permit2, 0), Erc20Approve(token, permit2, amount), Permit2Approve(token, router, amount, deadline)]
  }

  function RevokeCalls(token: Address, permit2: Address, router: Address, deadline: nat): seq<Call> {
    [Permit2Approve(token, router, 0, deadline), Erc20Approve(token, permit2, 0)]
  }

  lemma GrantOne(s: State, before: seq<Call>, token: Address, permit2: Address, router: Address, amount: U256, deadline: nat)
    requires AllApprovals(before)
    ensures var all := before + GrantCalls(token, permit2, router, amount, deadline);
            && AllApprovals(all)
            && (NeverRaisesNonZero(s, before) ==> NeverRaisesNonZero(s, all))
            && var m, n := ApproveAll(s, before), ApproveAll(s, all);
               && (forall t: Address, a: Address :: Erc20(n, t, a) == if t == token && a == permit2 then amount else Erc20(m, t, a))
               && (forall t: Address, a: Address ::
                     Permit2(n, t, a) == if t == token && a == router then Grant(amount, deadline) else Permit2(m, t, a))
  {
    var calls := GrantCalls(token, permit2, router, amount, deadline);
    ApproveOneMore(s, before, calls[0]);
    ApproveOneMore(s, before + [calls[0]], calls[1]);
    ApproveOneMore(s, before + [calls[0]] + [calls[1]], calls[2]);
    assert before + [calls[0]] + [calls[1]] + [calls[2]] == before + calls;
  }

  lemma RevokeOne(s: State, before: seq<Call>, token: Address, permit2: Address, router: Address, deadline: nat)
    requires AllApprovals(before)
    ensures var all := before + RevokeCalls(token, permit2, router, deadline);
            && AllApprovals(all)
            && (NeverRaisesNonZero(s, before) ==> NeverRaisesNonZero(s, all))
            && var m, n := ApproveAll(s, before), ApproveAll(s, all);
               && (forall t: Address, a: Address :: Erc20(n, t, a) == if t == token && a == permit2 then 0 else Erc20(m, t, a))
               && (forall t: Address, a: Address ::
                     Permit2(n, t, a) == if t == token && a == router then Grant(0, deadline) else Permit2(m, t, a))
  {
    var calls := RevokeCalls(token, permit2, router, deadline);
    ApproveOneMore(s, before, calls[0]);
    ApproveOneMore(s, before + [calls[0]], calls[1]);
    assert before + [calls[0]] + [calls[1]] == before + calls;
  }
}
